/** The multi-value dropdown: the selected values are a list the component
    hands back through `onChange`; clicking an option toggles it and the
    cross on a chip removes it. */
module MultiSelect {
  import opened Common
  import opened SelectOptions

  /** `toggleOption`: a selected value is removed, every copy of it; an
      unselected one is appended at the end. Every other value keeps its
      membership. */
  function ToggleOption(value: seq<string>, optValue: string): (r: seq<string>)
    ensures optValue in r <==> optValue !in value
    ensures forall v :: v != optValue ==> (v in r <==> v in value)
    ensures optValue in value ==> r == Without(value, optValue)
    ensures optValue !in value ==> r == value + [optValue]
  {
    Toggle(value, optValue)
  }

  /** Picking an unselected option and then unpicking it restores the
      selection exactly. */
  lemma ToggleOptionTwice(value: seq<string>, optValue: string)
    requires optValue !in value
    ensures ToggleOption(ToggleOption(value, optValue), optValue) == value
  {
    ToggleTwice(value, optValue);
  }

  /** `removeOption`: every copy of the value goes; every other value stays
      with as many copies as before. */
  function RemoveOption(value: seq<string>, optValue: string): (r: seq<string>)
    ensures optValue !in r
    ensures forall v :: v != optValue ==> multiset(r)[v] == multiset(value)[v]
    ensures IsSubsequence(r, value)
  {
    FilterIsSubsequence(value, IsNot(optValue));
    Without(value, optValue)
  }

  /** Removing a value is toggling it off when it is selected, and changes
      nothing when it is not. */
  lemma RemoveIsToggleOff(value: seq<string>, optValue: string)
    ensures optValue in value ==> RemoveOption(value, optValue) == ToggleOption(value, optValue)
    ensures optValue !in value ==> RemoveOption(value, optValue) == value
  {
  }

  /** Some option carries the value. */
  predicate HasOption(options: seq<SelectOption>, v: string)
  {
    exists i :: 0 <= i < |options| && options[i].value == v
  }

  function HasOptionFor(options: seq<SelectOption>): string -> bool
  {
    v => HasOption(options, v)
  }

  /** `o` is the first of the options that carries its value. */
  predicate FirstWithValue(options: seq<SelectOption>, o: SelectOption)
  {
    exists i :: 0 <= i < |options| && options[i] == o && forall j :: 0 <= j < i ==> options[j].value != o.value
  }

  /** The chips in the header: for each selected value, in selection order,
      the first option with that value; values without an option show no
      chip. */
  function Chips(options: seq<SelectOption>, value: seq<string>): (r: seq<SelectOption>)
    ensures Map(r, OptionValue) == Filter(value, HasOptionFor(options))
    ensures forall o :: o in r ==> o in options && FirstWithValue(options, o)
  {
    if value == [] then []
    else
      var rest := Chips(options, value[1..]);
      var v := value[0];
      FirstFound(options, v);
      match FindFirst(options, OptionValue, v)
      case Some(o) =>
        var r := [o] + rest;
        assert Map(r, OptionValue) == [o.value] + Map(rest, OptionValue);
        r
      case None => rest
  }

  /** The lookup finds the first option with the value, and finds none
      exactly when no option carries it. */
  lemma FirstFound(options: seq<SelectOption>, v: string)
    ensures FindFirst(options, OptionValue, v).None? <==> !HasOption(options, v)
    ensures FindFirst(options, OptionValue, v).Some? ==>
      var o := FindFirst(options, OptionValue, v).value;
      o.value == v && o in options && FirstWithValue(options, o)
  {
    var found := FindFirst(options, OptionValue, v);
    if found.Some? {
      var i :| 0 <= i < |options| && options[i] == found.value && forall j :: 0 <= j < i ==> OptionValue(options[j]) != v;
      assert FirstWithValue(options, found.value);
    } else {
      assert !HasOption(options, v);
    }
  }

  /** There are at most as many chips as selected values, each for a
      selected value, and one per value when every value has an option. */
  lemma ChipsCount(options: seq<SelectOption>, value: seq<string>)
    ensures |Chips(options, value)| <= |value|
    ensures forall o :: o in Chips(options, value) ==> o.value in value
    ensures (forall v :: v in value ==> HasOption(options, v)) ==> |Chips(options, value)| == |value|
  {
    var r := Chips(options, value);
    var shown := Map(r, OptionValue);
    forall o | o in r ensures o.value in value {
      var k :| 0 <= k < |r| && r[k] == o;
      assert shown[k] == o.value;
    }
    if forall v :: v in value ==> HasOption(options, v) {
      FilterKeepsAll(value, HasOptionFor(options));
    }
  }
}
