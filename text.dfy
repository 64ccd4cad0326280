/** The JavaScript string operations the panel relies on, over `string`
    (a sequence of Unicode scalar values, where JavaScript has UTF-16
    code units): `toLowerCase` (ASCII letters only),
    `includes`, `trim`, `split`/`join` and the relational `<=` used on
    ISO dates. */
module Text {

  function LowerChar(c: char): char
  {
    if 'A' <= c <= 'Z' then (c as int + 32) as char else c
  }

  /** `s.toLowerCase()` restricted to ASCII letters. */
  function Lower(s: string): (r: string)
    ensures |r| == |s|
    ensures forall i :: 0 <= i < |s| ==> r[i] == LowerChar(s[i])
  {
    seq(|s|, i requires 0 <= i < |s| => LowerChar(s[i]))
  }

  /** Lowering twice is lowering once: searching with an already-lowered
      term is the same search. */
  lemma LowerIdempotent(s: string)
    ensures Lower(Lower(s)) == Lower(s)
  {
  }

  /** `s.includes(t)`: `t` occurs in `s` at some position. */
  predicate Contains(s: string, t: string)
  {
    t <= s || (s != [] && Contains(s[1..], t))
  }

  /** `t` occurs in `s` starting at position `k`. */
  predicate OccursAt(s: string, t: string, k: int)
  {
    0 <= k <= |s| - |t| && s[k..k + |t|] == t
  }

  /** `includes` is a search for a position: `s` contains `t` exactly when
      `t` occurs in `s` at some position. */
  lemma {:induction false} ContainsAt(s: string, t: string)
    ensures Contains(s, t) <==> exists k :: OccursAt(s, t, k)
  {
    if Contains(s, t) {
      if t <= s {
        assert s[0..|t|] == t;
        assert OccursAt(s, t, 0);
      } else {
        ContainsAt(s[1..], t);
        var k :| OccursAt(s[1..], t, k);
        assert s[k + 1..k + 1 + |t|] == s[1..][k..k + |t|];
        assert OccursAt(s, t, k + 1);
      }
    }
    if exists k :: OccursAt(s, t, k) {
      var k :| OccursAt(s, t, k);
      if k == 0 {
        assert t <= s;
      } else {
        assert s[1..][k - 1..k - 1 + |t|] == s[k..k + |t|];
        assert OccursAt(s[1..], t, k - 1);
        ContainsAt(s[1..], t);
      }
    }
  }

  /** The pages' case-insensitive search: `text.toLowerCase().includes(term.toLowerCase())`. */
  predicate Matches(text: string, term: string)
  {
    Contains(Lower(text), Lower(term))
  }

  /** An empty search term matches every text. */
  lemma EmptyTermMatches(text: string)
    ensures Matches(text, "")
  {
    assert Lower("") == "";
  }

  /** The search ignores the case of the term. */
  lemma MatchesIgnoresTermCase(text: string, term: string)
    ensures Matches(text, Lower(term)) == Matches(text, term)
  {
    LowerIdempotent(term);
  }

  /** The characters `String.prototype.trim` removes: ECMAScript
      WhiteSpace and LineTerminator code points. */
  predicate IsSpace(c: char)
  {
    var n := c as int;
    n == 0x20 || 0x09 <= n <= 0x0D || n == 0xA0 || n == 0x1680
    || 0x2000 <= n <= 0x200A || n == 0x2028 || n == 0x2029 || n == 0x202F
    || n == 0x205F || n == 0x3000 || n == 0xFEFF
  }

  /** Nothing but whitespace (the empty string included). */
  predicate IsBlank(s: string)
  {
    forall i :: 0 <= i < |s| ==> IsSpace(s[i])
  }

  function TrimStart(s: string): (r: string)
    ensures |r| <= |s| && r == s[|s| - |r|..]
    ensures IsBlank(s[..|s| - |r|])
    ensures r != [] ==> !IsSpace(r[0])
  {
    if s != [] && IsSpace(s[0]) then
      var r := TrimStart(s[1..]);
      assert s[..|s| - |r|] == [s[0]] + s[1..][..|s[1..]| - |r|];
      r
    else s
  }

  function TrimEnd(s: string): (r: string)
    ensures |r| <= |s| && r == s[..|r|]
    ensures IsBlank(s[|r|..])
    ensures r != [] ==> !IsSpace(r[|r| - 1])
  {
    if s != [] && IsSpace(s[|s| - 1]) then
      var r := TrimEnd(s[..|s| - 1]);
      assert s[|r|..] == s[..|s| - 1][|r|..] + [s[|s| - 1]];
      r
    else s
  }

  /** `s.trim()`: `s` with its leading and trailing whitespace removed and
      nothing else, a piece that neither starts nor ends with whitespace
      and that is empty exactly when `s` is blank. */
  function Trim(s: string): (r: string)
    ensures r == "" <==> IsBlank(s)
    ensures r != "" ==> !IsSpace(r[0]) && !IsSpace(r[|r| - 1])
    ensures exists i :: PaddedAt(s, r, i)
  {
    TrimPiece(s);
    TrimWitness(s);
    TrimEmptyIffBlank(s);
    TrimEnd(TrimStart(s))
  }

  /** `r` occurs in `s` at `i` with nothing but white space before and
      after it. */
  predicate PaddedAt(s: string, r: string, i: int)
  {
    OccursAt(s, r, i) && IsBlank(s[..i]) && IsBlank(s[i + |r|..])
  }

  /** The position where the leading blanks end witnesses the piece. */
  lemma TrimWitness(s: string)
    ensures exists i :: PaddedAt(s, TrimEnd(TrimStart(s)), i)
  {
    var front := TrimStart(s);
    var r := TrimEnd(front);
    var i := |s| - |front|;
    TrimPiece(s);
    assert OccursAt(s, r, i);
    assert IsBlank(s[..i]);
    assert IsBlank(s[i + |r|..]);
    assert PaddedAt(s, r, i);
  }

  /** Trimming both ends leaves a piece of `s`, starting where the leading
      blanks end, with no blank at either end. */
  lemma TrimPiece(s: string)
    ensures OccursAt(s, TrimEnd(TrimStart(s)), |s| - |TrimStart(s)|)
    ensures IsBlank(s[..|s| - |TrimStart(s)|])
    ensures IsBlank(s[|s| - |TrimStart(s)| + |TrimEnd(TrimStart(s))|..])
    ensures var r := TrimEnd(TrimStart(s));
      r != "" ==> !IsSpace(r[0]) && !IsSpace(r[|r| - 1])
  {
    var front := TrimStart(s);
    var i := |s| - |front|;
    var r := TrimEnd(front);
    assert front == s[i..];
    PrefixOccurs(s, i, r);
    TrimEndKeepsStart(front);
    BlankAfterPiece(s, i, r);
  }

  /** What follows a prefix of the suffix from `i` is the rest of that
      suffix. */
  lemma BlankAfterPiece(s: string, i: nat, r: string)
    requires i <= |s| && r <= s[i..] && IsBlank(s[i..][|r|..])
    ensures IsBlank(s[i + |r|..])
  {
    assert s[i + |r|..] == s[i..][|r|..];
  }

  /** A prefix of the suffix from `i` occurs at `i`. */
  lemma PrefixOccurs(s: string, i: nat, r: string)
    requires i <= |s| && r <= s[i..]
    ensures OccursAt(s, r, i)
  {
    assert s[i..i + |r|] == s[i..][..|r|];
  }

  /** Trimming the end of a text that starts with a non-blank keeps that
      first character. */
  lemma TrimEndKeepsStart(front: string)
    requires front != [] ==> !IsSpace(front[0])
    ensures var r := TrimEnd(front);
      r != "" ==> !IsSpace(r[0])
  {
    var r := TrimEnd(front);
    if r != "" {
      assert r[0] == front[..|r|][0];
    }
  }

  lemma {:induction false} TrimEmptyIffBlank(s: string)
    ensures TrimEnd(TrimStart(s)) == "" <==> IsBlank(s)
  {
    var front := TrimStart(s);
    var i := |s| - |front|;
    if TrimEnd(front) == "" {
      assert front[0..] == front;
      BlankConcat(s[..i], front);
      assert s == s[..i] + front;
    }
  }

  lemma {:induction false} BlankConcat(a: string, b: string)
    requires IsBlank(a) && IsBlank(b)
    ensures IsBlank(a + b)
  {
    forall j | 0 <= j < |a + b| ensures IsSpace((a + b)[j]) {
      if j < |a| { assert (a + b)[j] == a[j]; } else { assert (a + b)[j] == b[j - |a|]; }
    }
  }

  /** `s.split(sep)`: the pieces between separators, at least one. */
  function Split(s: string, sep: char): (parts: seq<string>)
    ensures |parts| >= 1
    ensures forall i :: 0 <= i < |parts| ==> sep !in parts[i]
  {
    if s == [] then [""]
    else
      var rest := Split(s[1..], sep);
      if s[0] == sep then [""] + rest
      else [[s[0]] + rest[0]] + rest[1..]
  }

  /** `parts.join(sep)`. */
  function Join(parts: seq<string>, sep: char): string
    requires |parts| >= 1
  {
    if |parts| == 1 then parts[0] else parts[0] + [sep] + Join(parts[1..], sep)
  }

  /** Splitting and joining again gives back the original text. */
  lemma {:induction false} JoinSplit(s: string, sep: char)
    ensures Join(Split(s, sep), sep) == s
  {
    if s != [] {
      var rest := Split(s[1..], sep);
      JoinSplit(s[1..], sep);
      if s[0] != sep {
        var parts := Split(s, sep);
        assert parts[0] == [s[0]] + rest[0];
        if |rest| > 1 {
          assert parts[1..] == rest[1..];
        }
      }
    }
  }

  /** Splitting a text that starts with a separator-free word extends the
      first piece by that word. */
  lemma {:induction false} SplitAfterWord(w: string, t: string, sep: char)
    requires sep !in w
    ensures Split(w + t, sep) == [w + Split(t, sep)[0]] + Split(t, sep)[1..]
  {
    if w != [] {
      var parts := Split(t, sep);
      assert (w + t)[0] == w[0] && (w + t)[1..] == w[1..] + t;
      SplitAfterWord(w[1..], t, sep);
      var rest := Split(w[1..] + t, sep);
      assert rest[0] == w[1..] + parts[0] && rest[1..] == parts[1..];
      assert [w[0]] + rest[0] == w + parts[0];
    } else {
      var parts := Split(t, sep);
      assert w + t == t && w + parts[0] == parts[0];
      assert [parts[0]] + parts[1..] == parts;
    }
  }

  /** Joining separator-free pieces and splitting again gives the pieces
      back: split and join are inverse on such lists. */
  lemma {:induction false} SplitJoin(parts: seq<string>, sep: char)
    requires |parts| >= 1
    requires forall i :: 0 <= i < |parts| ==> sep !in parts[i]
    ensures Split(Join(parts, sep), sep) == parts
  {
    if |parts| == 1 {
      SplitAfterWord(parts[0], "", sep);
      assert parts[0] + "" == parts[0];
    } else {
      var tail := Join(parts[1..], sep);
      SplitJoin(parts[1..], sep);
      assert Split([sep] + tail, sep) == [""] + parts[1..];
      assert parts[0] + [sep] + tail == parts[0] + ([sep] + tail);
      SplitAfterWord(parts[0], [sep] + tail, sep);
      assert parts[0] + "" == parts[0];
    }
  }

  /** JavaScript's `a <= b` on strings: lexicographic by character, a
      proper prefix coming first (by code point here, where JavaScript
      compares UTF-16 code units; the two agree outside the astral
      planes, and the dates it is used on are ASCII). */
  predicate LexLe(a: string, b: string)
  {
    if a == [] then true
    else if b == [] then false
    else if a[0] != b[0] then a[0] < b[0]
    else LexLe(a[1..], b[1..])
  }

  /** The comparison is total: of two dates one is always `<=` the other. */
  lemma {:induction false} LexLeTotal(a: string, b: string)
    ensures LexLe(a, b) || LexLe(b, a)
  {
    if a != [] && b != [] && a[0] == b[0] {
      LexLeTotal(a[1..], b[1..]);
    }
  }

  function DigitChar(d: nat): (c: char)
    requires d < 10
    ensures '0' <= c <= '9'
    ensures c as int - '0' as int == d
  {
    ('0' as int + d) as char
  }

  /** The number a string of decimal digits denotes, most significant
      digit first. */
  function DigitsValue(s: string): int
  {
    if s == [] then 0 else 10 * DigitsValue(s[..|s| - 1]) + (s[|s| - 1] as int - '0' as int)
  }

  /** The decimal rendering of a number in a template string (a status
      code, a clock reading): digits only, and they denote `n`. */
  function NatToString(n: nat): (r: string)
    ensures |r| >= 1
    ensures forall i :: 0 <= i < |r| ==> '0' <= r[i] <= '9'
    ensures DigitsValue(r) == n
  {
    if n < 10 then
      assert [DigitChar(n)][..0] == [];
      [DigitChar(n)]
    else
      var front := NatToString(n / 10);
      var r := front + [DigitChar(n % 10)];
      assert r[..|r| - 1] == front;
      r
  }

  /** Different numbers render differently, so ids built from different
      clock readings differ. */
  lemma NatToStringInjective(a: nat, b: nat)
    requires NatToString(a) == NatToString(b)
    ensures a == b
  {
    assert DigitsValue(NatToString(a)) == a;
  }
}
