/** The serverless API in front of the Google Apps Script store: one
    process-wide snapshot (`cachedData`), a single-flight fetch guard
    (`fetchPromise`) and the last fetch error (`lastError`). `GET /data`
    serves the snapshot, fetching it first when it is empty; `POST /sync`
    patches one field of the snapshot and forwards the write. */
module ServerCache {
  import opened Common
  import opened Text

  /** A parsed JSON value. */
  datatype Json = JNull | JBool(b: bool) | JNum(n: real) | JStr(s: string)
                | JArr(elems: seq<Json>) | JObj(fields: map<string, Json>)

  /** JavaScript truthiness of a parsed value: `if (cachedData)`. */
  predicate Truthy(j: Json)
  {
    match j
    case JNull => false
    case JBool(b) => b
    case JNum(n) => n != 0.0
    case JStr(s) => s != ""
    case JArr(_) => true
    case JObj(_) => true
  }

  /** How one remote read ends: the body parsed, the body was not JSON, a
      non-2xx status, or a thrown network error with its message. */
  datatype FetchOutcome = Parsed(json: Json) | ParseFailed | HttpFailed(status: nat, statusText: string)
                        | NetworkFailed(message: string)

  /** How the forwarded write ends: any HTTP response, or a thrown error. */
  datatype WriteOutcome = Delivered | Threw

  datatype HttpReply = HttpReply(status: nat, body: Json)

  const NotConfiguredMessage: string :=
    "URL Google Apps Script belum dikonfigurasi di Vercel Environment Variables (VITE_GAS_URL)."
  const ParseFailedMessage: string :=
    "Gagal membaca data. Pastikan Google Apps Script di-deploy dengan akses 'Anyone' (Siapa saja)."
  const DefaultFetchError: string :=
    "Gagal mengambil data dari Google Sheets. Pastikan URL sudah benar dan script sudah di-deploy dengan akses 'Anyone'."
  const SyncFailedMessage: string := "Failed to sync to Google Sheets"

  function ErrorBody(message: string): Json
  {
    JObj(map["error" := JStr(message)])
  }

  const OkBody: Json := JObj(map["status" := JStr("ok")])

  /** The message a failed read leaves in `lastError`; never empty, so it
      always wins over the default in the read handler's `lastError || …`,
      and it ends with the thrown message or the status text. */
  function FetchErrorMessage(o: FetchOutcome): (m: string)
    requires !o.Parsed?
    ensures m != ""
    ensures o.NetworkFailed? ==> |m| > |o.message| && m[|m| - |o.message|..] == o.message
    ensures o.HttpFailed? ==> |m| > |o.statusText| && m[|m| - |o.statusText|..] == o.statusText
  {
    match o
    case ParseFailed => ParseFailedMessage
    case HttpFailed(status, text) => "Failed to fetch from GAS: " + NatToString(status) + " " + text
    case NetworkFailed(message) => "Error fetching from GAS: " + message
  }

  /** The two module variables a read updates. */
  datatype CacheState = CacheState(data: Json, error: string)

  /** The effect of one completed read: a parsed body replaces the snapshot
      and clears the error; every failure keeps the snapshot and records
      its message. */
  function AfterFetch(c: CacheState, o: FetchOutcome): (r: CacheState)
    ensures o.Parsed? ==> r.data == o.json && r.error == ""
    ensures !o.Parsed? ==> r.data == c.data && r.error != ""
  {
    match o
    case Parsed(json) => CacheState(json, "")
    case _ => CacheState(c.data, FetchErrorMessage(o))
  }

  /** The body the read handler sends once a read has been attempted: the
      snapshot when it is truthy, otherwise an `error` object whose message
      is never empty. */
  function Served(c: CacheState): (body: Json)
    ensures Truthy(c.data) ==> body == c.data
    ensures !Truthy(c.data) ==> body.JObj? && "error" in body.fields && body.fields["error"].JStr?
                                && body.fields["error"].s != ""
    ensures !Truthy(c.data) && c.error != "" ==> body == ErrorBody(c.error)
  {
    if Truthy(c.data) then c.data
    else ErrorBody(if c.error != "" then c.error else DefaultFetchError)
  }

  /** A body that parses to a falsy value (`null`, `0`, `false`, `""`)
      counts as success for the read, yet the handler still answers with
      the default error, because `lastError` was just cleared. */
  lemma FalsyBodyServesDefault(c: CacheState, j: Json)
    requires !Truthy(j)
    ensures Served(AfterFetch(c, Parsed(j))) == ErrorBody(DefaultFetchError)
  {
  }

  /** The sync dispatch table: the snapshot field each action writes. */
  function FieldFor(action: string): (f: Option<string>)
    ensures f.Some? ==> f.value in {"locations", "suppliers", "items", "competitorList",
                                    "competitors", "purchases", "salesData"}
    ensures f.Some? ==> |action| > 4 && action[..4] == "sync"
  {
    if action == "syncLocations" then Some("locations")
    else if action == "syncSuppliers" then Some("suppliers")
    else if action == "syncItems" then Some("items")
    else if action == "syncCompetitorList" then Some("competitorList")
    else if action == "syncCompetitors" then Some("competitors")
    else if action == "syncPurchases" then Some("purchases")
    else if action == "syncSalesData" then Some("salesData")
    else None
  }

  /** No two actions write the same field. */
  lemma FieldForInjective(a: string, b: string)
    requires FieldFor(a).Some? && FieldFor(a) == FieldFor(b)
    ensures a == b
  {
  }

  /** The optimistic cache patch of the sync handler. Only a snapshot that
      is a JSON object is patched (see README for other truthy values). */
  function SyncCache(cached: Json, action: string, data: Json): (r: Json)
    ensures r.JObj? <==> cached.JObj?
    ensures cached.JObj? && FieldFor(action).Some? ==> r.fields.Keys == cached.fields.Keys + {FieldFor(action).value}
    ensures FieldFor(action).None? ==> r == cached
  {
    if Truthy(cached) && cached.JObj? && FieldFor(action).Some? then
      JObj(cached.fields[FieldFor(action).value := data])
    else cached
  }

  /** A known action on a snapshot object sets exactly its field to `data`
      and leaves every other field as it was. */
  lemma SyncReplacesOnlyItsField(cached: Json, action: string, data: Json, g: string)
    requires cached.JObj? && FieldFor(action).Some?
    ensures SyncCache(cached, action, data).JObj?
    ensures SyncCache(cached, action, data).fields[FieldFor(action).value] == data
    ensures g != FieldFor(action).value ==>
      (g in SyncCache(cached, action, data).fields <==> g in cached.fields) &&
      (g in cached.fields ==> SyncCache(cached, action, data).fields[g] == cached.fields[g])
  {
  }

  /** An unknown action, or any action while the cache is empty, changes
      nothing. */
  lemma SyncNoOp(cached: Json, action: string, data: Json)
    requires !Truthy(cached) || FieldFor(action).None?
    ensures SyncCache(cached, action, data) == cached
  {
  }

  /** The second of two syncs of the same action wins. */
  lemma SyncLastWins(cached: Json, action: string, d1: Json, d2: Json)
    ensures SyncCache(SyncCache(cached, action, d1), action, d2) == SyncCache(cached, action, d2)
  {
    if cached.JObj? && FieldFor(action).Some? {
      var f := FieldFor(action).value;
      assert cached.fields[f := d1][f := d2] == cached.fields[f := d2];
    }
  }

  /** Syncs of two different actions commute. */
  lemma SyncCommutes(cached: Json, a: string, da: Json, b: string, db: Json)
    requires a != b
    ensures SyncCache(SyncCache(cached, a, da), b, db) == SyncCache(SyncCache(cached, b, db), a, da)
  {
    if cached.JObj? && FieldFor(a).Some? && FieldFor(b).Some? {
      var fa := FieldFor(a).value;
      var fb := FieldFor(b).value;
      if fa == fb { FieldForInjective(a, b); }
      assert cached.fields[fa := da][fb := db] == cached.fields[fb := db][fa := da];
    }
  }

  /** A sync never empties or fills the cache, so it never changes whether
      the next read must fetch. */
  lemma SyncKeepsPresence(cached: Json, action: string, data: Json)
    ensures Truthy(SyncCache(cached, action, data)) == Truthy(cached)
  {
  }

  /** The reply of the sync handler: a 500 only when the forwarded write
      throws; an unset URL and a non-2xx remote answer both give `ok`. */
  function SyncReply(configured: bool, remote: WriteOutcome): (r: HttpReply)
    ensures r.status == 500 <==> configured && remote.Threw?
    ensures r.status != 500 ==> r == HttpReply(200, OkBody)
  {
    if configured && remote.Threw? then HttpReply(500, ErrorBody(SyncFailedMessage))
    else HttpReply(200, OkBody)
  }

  class Server {
    /** `VITE_GAS_URL`; the empty string stands for unset. */
    const gasUrl: string
    var cachedData: Json
    /** `fetchPromise !== null`. */
    var fetching: bool
    /** `lastError`; the empty string stands for `null`. */
    var lastError: string
    /** Reads and writes sent to the remote store so far. */
    ghost var remoteReads: nat
    ghost var remoteWrites: nat

    /** Without a URL nothing is ever fetched or cached. */
    ghost predicate Valid()
      reads this
    {
      gasUrl == "" ==> !fetching && cachedData == JNull && lastError == "" && remoteReads == 0
    }

    /** Module load: the variables start empty and the cold-start read is
        issued when a URL is configured. */
    constructor (url: string)
      ensures Valid()
      ensures gasUrl == url && cachedData == JNull && lastError == ""
      ensures fetching == (url != "")
      ensures remoteReads == (if url != "" then 1 else 0) && remoteWrites == 0
    {
      gasUrl := url;
      cachedData := JNull;
      fetching := false;
      lastError := "";
      remoteReads := 0;
      remoteWrites := 0;
      new;
      var _ := BeginFetch();
    }

    /** The synchronous part of `fetchFromGAS`: nothing without a URL, the
        running read when one is in flight, otherwise a new read. */
    method BeginFetch() returns (started: bool)
      requires Valid()
      modifies this
      ensures Valid()
      ensures started <==> gasUrl != "" && !old(fetching)
      ensures fetching == (old(fetching) || started)
      ensures remoteReads == old(remoteReads) + (if started then 1 else 0)
      ensures cachedData == old(cachedData) && lastError == old(lastError)
      ensures remoteWrites == old(remoteWrites)
    {
      if gasUrl == "" {
        return false;
      }
      if fetching {
        return false;
      }
      fetching := true;
      remoteReads := remoteReads + 1;
      started := true;
    }

    /** The in-flight read settles with `o`; the guard is cleared whatever
        the outcome. */
    method CompleteFetch(o: FetchOutcome)
      requires Valid() && fetching
      modifies this
      ensures Valid()
      ensures !fetching
      ensures CacheState(cachedData, lastError) == AfterFetch(old(CacheState(cachedData, lastError)), o)
      ensures remoteReads == old(remoteReads) && remoteWrites == old(remoteWrites)
    {
      match o {
        case Parsed(json) =>
          cachedData := json;
          lastError := "";
        case _ =>
          lastError := FetchErrorMessage(o);
      }
      fetching := false;
    }

    /** `GET /data`. `o` is how the read it awaits ends, if it awaits one. */
    method GetData(o: FetchOutcome) returns (reply: HttpReply)
      requires Valid()
      modifies this
      ensures Valid()
      ensures reply.status == 200
      ensures gasUrl == "" ==> reply.body == ErrorBody(NotConfiguredMessage)
      ensures gasUrl == "" || Truthy(old(cachedData)) ==>
        cachedData == old(cachedData) && lastError == old(lastError) && fetching == old(fetching)
        && remoteReads == old(remoteReads)
      ensures gasUrl != "" && Truthy(old(cachedData)) ==> reply.body == old(cachedData)
      ensures gasUrl != "" && !Truthy(old(cachedData)) ==>
        CacheState(cachedData, lastError) == AfterFetch(old(CacheState(cachedData, lastError)), o)
        && !fetching
        && remoteReads == old(remoteReads) + (if old(fetching) then 0 else 1)
        && reply.body == Served(CacheState(cachedData, lastError))
      ensures remoteWrites == old(remoteWrites)
    {
      if gasUrl == "" {
        return HttpReply(200, ErrorBody(NotConfiguredMessage));
      }
      if !Truthy(cachedData) {
        var _ := BeginFetch();
        CompleteFetch(o);
      }
      if !Truthy(cachedData) {
        reply := HttpReply(200, ErrorBody(if lastError != "" then lastError else DefaultFetchError));
      } else {
        reply := HttpReply(200, cachedData);
      }
    }

    /** `POST /sync`: patch the cache first, then forward the write; the
        patch stays even when the write fails. */
    method Sync(action: string, data: Json, remote: WriteOutcome) returns (reply: HttpReply)
      requires Valid()
      modifies this
      ensures Valid()
      ensures cachedData == SyncCache(old(cachedData), action, data)
      ensures reply == SyncReply(gasUrl != "", remote)
      ensures remoteWrites == old(remoteWrites) + (if gasUrl != "" then 1 else 0)
      ensures fetching == old(fetching) && lastError == old(lastError) && remoteReads == old(remoteReads)
    {
      if Truthy(cachedData) {
        match cachedData {
          case JObj(fields) =>
            match FieldFor(action) {
              case Some(f) => cachedData := JObj(fields[f := data]);
              case None =>
            }
          case _ =>
        }
      }
      if gasUrl != "" {
        remoteWrites := remoteWrites + 1;
        if remote.Threw? {
          return HttpReply(500, ErrorBody(SyncFailedMessage));
        }
      }
      reply := HttpReply(200, OkBody);
    }
  }
}
