/**
 * The background batcher of `src/background/background.js`: captured records are
 * wrapped with metadata and collected in `dataBatch`; a full batch, or the single
 * flush timer, commits the batch to extension storage under generated keys; a
 * retention sweep removes expired `data_` entries; the storage configuration is
 * merged field by field; network frames are queued and drained in bounded ticks.
 *
 * Time is an explicit parameter (`now`, milliseconds since the epoch), timers are
 * explicit state, and extension storage is the map `store`.
 */
module Background {
  import opened Wrappers
  import opened Json
  import opened Text
  import Codec
  import Packet

  /** Records per committed batch (the first `BATCH_SIZE`). */
  const BATCH_SIZE: nat := 20
  /** Declared capacity; nothing in the extension enforces it. */
  const MAX_STORAGE_ITEMS: nat := 1000
  /** Delay of the flush timer. */
  const BATCH_INTERVAL: nat := 2000
  /** Frames decoded per queue tick (the second, redeclared `BATCH_SIZE`). */
  const QUEUE_BATCH_SIZE: nat := 10
  /** `24 * 60 * 60 * 1000`. */
  const DAY_MS: nat := 86400000
  /** The keys the extension writes for itself, besides the `data_` entries. */
  const RESERVED_KEYS: set<string> := {"storageConfig", "monitoringStatus", "monitoringTabId", "isEnabled"}

  /** A value in extension storage: an encoded record, or a plain value such as the configuration. */
  datatype Stored = Encoded(toks: seq<Codec.Tok>) | Plain(v: Json)

  /** The record `logCapturedData` builds around its argument. */
  datatype Captured = Captured(timestamp: int, kind: Json, source: string, sessionId: Option<int>, data: Json)

  /**
   * The metadata wrapper of `logCapturedData`. Reading `data.type` on `null` throws,
   * so a `null` argument yields no record.
   */
  function Wrap(data: Json, now: int, session: Option<int>): (r: Option<Captured>)
    ensures r.None? <==> data == JNull
    ensures r.Some? ==> r.value.timestamp == now && r.value.source == "whatsapp_web" && r.value.sessionId == session
    ensures r.Some? ==> r.value.kind == if Truthy(Get(data, "type")) then Get(data, "type").value else JStr("unknown")
    ensures r.Some? ==> r.value.data == if Truthy(Get(data, "data")) then Get(data, "data").value else data
  {
    if data == JNull then None
    else Some(Captured(now, Or(Get(data, "type"), JStr("unknown")), "whatsapp_web", session, Or(Get(data, "data"), data)))
  }

  function SessionJson(s: Option<int>): Json
  {
    match s
    case Some(id) => JNum(id)
    case None => JNull
  }

  /** The stored object: the metadata spread first, then `data`. */
  function Envelope(c: Captured): Json
  {
    JObj([Field("timestamp", JNum(c.timestamp)), Field("type", c.kind), Field("source", JStr(c.source)),
          Field("sessionId", SessionJson(c.sessionId)), Field("data", c.data)])
  }

  /** `encryptData(record)`. */
  function EncryptRecord(c: Captured): Stored
  {
    Encoded(Codec.Encode(Envelope(c)))
  }

  /** `data_<timestamp>_<index>`, the key of the `index`-th record of a batch committed at `ts`. */
  function Key(ts: nat, i: nat): string
  {
    "data_" + Dec(ts) + "_" + Dec(i)
  }

  /** Every generated key is a `data_` key. */
  lemma KeyIsData(ts: nat, i: nat)
    ensures StartsWith(Key(ts, i), "data_")
    ensures Key(ts, i)[0] == 'd'
  {
    assert Key(ts, i)[..5] == "data_";
  }

  /** The keys the extension itself writes are not `data_` keys. */
  lemma ReservedNotData(k: string)
    requires k in RESERVED_KEYS
    ensures !StartsWith(k, "data_")
    ensures forall ts: nat, i: nat :: k != Key(ts, i)
  {
    assert k[0] != 'd';
    forall ts: nat, i: nat ensures k != Key(ts, i) {
      KeyIsData(ts, i);
    }
  }

  /** Generated keys differ whenever commit time or index differ. */
  lemma KeyInjective(t1: nat, i1: nat, t2: nat, i2: nat)
    requires Key(t1, i1) == Key(t2, i2)
    ensures t1 == t2 && i1 == i2
  {
    KeySuffix(t1, i1);
    KeySuffix(t2, i2);
    SplitAtSeparator(Dec(t1), Dec(i1), Dec(t2), Dec(i2), '_');
    DecInjective(t1, t2);
    DecInjective(i1, i2);
  }

  /** After the `data_` prefix, a key is the commit time and the index around a `_`. */
  lemma KeySuffix(ts: nat, i: nat)
    ensures |Key(ts, i)| >= 5 && Key(ts, i)[5..] == Dec(ts) + ['_'] + Dec(i)
  {
    assert Key(ts, i) == "data_" + (Dec(ts) + ['_'] + Dec(i));
  }

  /** The object `processBatch` builds with its `forEach`: record `i` encoded under `Key(ts, i)`. */
  function BatchEntries(batch: seq<Captured>, ts: nat): map<string, Stored>
  {
    if |batch| == 0 then map[]
    else BatchEntries(batch[..|batch| - 1], ts)[Key(ts, |batch| - 1) := EncryptRecord(batch[|batch| - 1])]
  }

  /** Record `i` of a batch is written, encoded, under `Key(ts, i)`. */
  lemma {:induction false} BatchEntriesAt(batch: seq<Captured>, ts: nat, i: nat)
    requires i < |batch|
    ensures Key(ts, i) in BatchEntries(batch, ts)
    ensures BatchEntries(batch, ts)[Key(ts, i)] == EncryptRecord(batch[i])
  {
    var n := |batch| - 1;
    if i < n {
      BatchEntriesAt(batch[..n], ts, i);
      if Key(ts, i) == Key(ts, n) {
        KeyInjective(ts, i, ts, n);
      }
    }
  }

  /** A batch writes nothing but its own generated keys. */
  lemma {:induction false} BatchEntriesOnly(batch: seq<Captured>, ts: nat, k: string)
    requires k in BatchEntries(batch, ts)
    ensures exists i :: 0 <= i < |batch| && k == Key(ts, i)
  {
    var n := |batch| - 1;
    if k != Key(ts, n) {
      BatchEntriesOnly(batch[..n], ts, k);
    }
  }

  /** A batch writes exactly one entry per record: its keys are pairwise distinct. */
  lemma {:induction false} BatchEntriesSize(batch: seq<Captured>, ts: nat)
    ensures |BatchEntries(batch, ts)| == |batch|
  {
    if |batch| > 0 {
      var n := |batch| - 1;
      BatchEntriesSize(batch[..n], ts);
      if Key(ts, n) in BatchEntries(batch[..n], ts) {
        BatchEntriesOnly(batch[..n], ts, Key(ts, n));
        var j :| 0 <= j < n && Key(ts, n) == Key(ts, j);
        KeyInjective(ts, n, ts, j);
      }
    }
  }

  /** The part of the background state the batcher works on. */
  datatype Batcher = Batcher(batch: seq<Captured>, timer: Option<int>, store: map<string, Stored>)

  /**
   * What holds between any two events: the batch is below its size limit, the flush
   * timer is armed exactly when records wait, and it is due `BATCH_INTERVAL` after the
   * oldest waiting record was captured.
   */
  ghost predicate Inv(b: Batcher)
  {
    && |b.batch| < BATCH_SIZE
    && (b.timer.Some? <==> b.batch != [])
    && (b.batch != [] ==> b.timer == Some(b.batch[0].timestamp + BATCH_INTERVAL))
  }

  /** `processBatch` at time `now`: commit the waiting records (if any), empty the batch, disarm the timer. */
  function Flushed(b: Batcher, now: nat): Batcher
  {
    if |b.batch| > 0 then Batcher([], None, b.store + BatchEntries(b.batch, now))
    else Batcher(b.batch, None, b.store)
  }

  /** `logCapturedData(data)` at time `now` while monitoring `session`. */
  function Logged(b: Batcher, data: Json, now: nat, session: Option<int>): Batcher
  {
    match Wrap(data, now, session)
    case None => b
    case Some(c) =>
      var batch := b.batch + [c];
      if |batch| >= BATCH_SIZE then Flushed(Batcher(batch, None, b.store), now)
      else if b.timer.None? then Batcher(batch, Some(now + BATCH_INTERVAL), b.store)
      else Batcher(batch, b.timer, b.store)
  }

  /** A flush leaves no timer armed and an empty batch; an empty batch writes nothing; otherwise it writes exactly the batch. */
  lemma FlushSpec(b: Batcher, now: nat)
    ensures Flushed(b, now).timer.None? && Flushed(b, now).batch == []
    ensures b.batch == [] ==> Flushed(b, now).store == b.store
    ensures b.batch != [] ==>
      Flushed(b, now).store.Keys == b.store.Keys + BatchEntries(b.batch, now).Keys &&
      |BatchEntries(b.batch, now)| == |b.batch|
    ensures forall i :: 0 <= i < |b.batch| ==>
      Key(now, i) in Flushed(b, now).store && Flushed(b, now).store[Key(now, i)] == EncryptRecord(b.batch[i])
    ensures forall k :: k in b.store && (forall i :: 0 <= i < |b.batch| ==> k != Key(now, i)) ==>
      k in Flushed(b, now).store && Flushed(b, now).store[k] == b.store[k]
  {
    if b.batch != [] {
      var entries := BatchEntries(b.batch, now);
      var r := b.store + entries;
      assert Flushed(b, now).store == r;
      BatchEntriesSize(b.batch, now);
      forall i | 0 <= i < |b.batch| ensures Key(now, i) in r && r[Key(now, i)] == EncryptRecord(b.batch[i]) {
        BatchEntriesAt(b.batch, now, i);
      }
      forall k | k in b.store && (forall i :: 0 <= i < |b.batch| ==> k != Key(now, i))
        ensures k in r && r[k] == b.store[k]
      {
        if k in entries {
          BatchEntriesOnly(b.batch, now, k);
        }
      }
    }
  }

  /**
   * One call adds exactly one record (or none, on `null`). Reaching `BATCH_SIZE`
   * commits the whole batch in the same call and disarms the timer; below it, the
   * timer is armed only if none is armed, and the store is untouched.
   */
  lemma LogSpec(b: Batcher, data: Json, now: nat, session: Option<int>)
    requires data != JNull
    ensures var c := Wrap(data, now, session).value;
      var r := Logged(b, data, now, session);
      if |b.batch| + 1 >= BATCH_SIZE then
        r.batch == [] && r.timer.None? && r.store == b.store + BatchEntries(b.batch + [c], now)
      else
        && r.batch == b.batch + [c] && r.store == b.store
        && r.timer == (if b.timer.Some? then b.timer else Some(now + BATCH_INTERVAL))
  {
  }

  /** Logging and flushing keep the invariant. */
  lemma LoggedKeepsInv(b: Batcher, data: Json, now: nat, session: Option<int>)
    requires Inv(b)
    ensures Inv(Logged(b, data, now, session))
    ensures Inv(Flushed(b, now))
  {
  }

  /** A sequence of `logCapturedData` calls, one per `(data, now)` event, in order. */
  function LogAll(b: Batcher, events: seq<(Json, nat)>, session: Option<int>): Batcher
  {
    if |events| == 0 then b
    else
      var last := events[|events| - 1];
      Logged(LogAll(b, events[..|events| - 1], session), last.0, last.1, session)
  }

  /** The records those events produce (every event non-null). */
  function WrapAll(events: seq<(Json, nat)>, session: Option<int>): (r: seq<Captured>)
    requires forall i :: 0 <= i < |events| ==> events[i].0 != JNull
    ensures |r| == |events|
    ensures forall i :: 0 <= i < |events| ==> r[i] == Wrap(events[i].0, events[i].1, session).value
  {
    if |events| == 0 then []
    else WrapAll(events[..|events| - 1], session) + [Wrap(events[|events| - 1].0, events[|events| - 1].1, session).value]
  }

  /** Fewer than `BATCH_SIZE` records after an empty batch: all of them wait, behind one timer armed by the first. */
  lemma {:induction false} PartialFill(b: Batcher, events: seq<(Json, nat)>, session: Option<int>)
    requires b.batch == [] && b.timer.None?
    requires |events| < BATCH_SIZE
    requires forall i :: 0 <= i < |events| ==> events[i].0 != JNull
    ensures |events| == 0 ==> LogAll(b, events, session) == b
    ensures |events| > 0 ==>
      LogAll(b, events, session) == Batcher(WrapAll(events, session), Some(events[0].1 + BATCH_INTERVAL), b.store)
  {
    if |events| > 0 {
      var n := |events| - 1;
      var prefix := events[..n];
      assert forall i :: 0 <= i < n ==> prefix[i] == events[i];
      PartialFill(b, prefix, session);
      var before := LogAll(b, prefix, session);
      assert LogAll(b, events, session) == Logged(before, events[n].0, events[n].1, session);
      assert before.timer == (if n == 0 then None else Some(events[0].1 + BATCH_INTERVAL));
      assert before.batch == WrapAll(prefix, session) && before.store == b.store;
      LoggedBelowLimit(before, events[n].0, events[n].1, session);
      assert WrapAll(events, session) == WrapAll(prefix, session) + [Wrap(events[n].0, events[n].1, session).value];
    }
  }

  /** A record that leaves the batch below its limit is appended, arming the timer if none is armed. */
  lemma LoggedBelowLimit(b: Batcher, data: Json, now: nat, session: Option<int>)
    requires data != JNull && |b.batch| + 1 < BATCH_SIZE
    ensures Logged(b, data, now, session) ==
      Batcher(b.batch + [Wrap(data, now, session).value], if b.timer.None? then Some(now + BATCH_INTERVAL) else b.timer, b.store)
  {
  }

  /**
   * The size trigger: `BATCH_SIZE` records logged after an empty batch cause exactly
   * one commit, at the time of the last one, of exactly those records, and leave no
   * timer armed.
   */
  lemma SizeTrigger(b: Batcher, events: seq<(Json, nat)>, session: Option<int>)
    requires b.batch == [] && b.timer.None?
    requires |events| == BATCH_SIZE
    requires forall i :: 0 <= i < |events| ==> events[i].0 != JNull
    ensures var t := events[BATCH_SIZE - 1].1;
      LogAll(b, events, session) == Batcher([], None, b.store + BatchEntries(WrapAll(events, session), t))
  {
    var n := BATCH_SIZE - 1;
    var prefix := events[..n];
    PartialFill(b, prefix, session);
    assert WrapAll(events, session) == WrapAll(prefix, session) + [Wrap(events[n].0, events[n].1, session).value];
  }

  /** The time trigger: one record, then the timer fires at `t`: exactly that record is committed. */
  lemma TimeTrigger(b: Batcher, data: Json, now: nat, t: nat, session: Option<int>)
    requires b.batch == [] && b.timer.None?
    requires data != JNull
    ensures Logged(b, data, now, session).timer == Some(now + BATCH_INTERVAL)
    ensures Flushed(Logged(b, data, now, session), t).store ==
      b.store[Key(t, 0) := EncryptRecord(Wrap(data, now, session).value)]
    ensures Flushed(Logged(b, data, now, session), t).timer.None?
  {
    var c := Wrap(data, now, session).value;
    LoggedBelowLimit(b, data, now, session);
    var logged := Batcher([c], Some(now + BATCH_INTERVAL), b.store);
    assert Logged(b, data, now, session) == logged;
    assert [c][..0] == [];
    assert BatchEntries([c], t) == map[Key(t, 0) := EncryptRecord(c)];
    assert Flushed(logged, t) == Batcher([], None, b.store + map[Key(t, 0) := EncryptRecord(c)]);
  }

  /** A committed record decodes to its envelope, whose `timestamp` is the capture time. */
  lemma StoredRecordDecodes(c: Captured)
    ensures Codec.Decode(EncryptRecord(c).toks) == Some(Envelope(c))
    ensures Get(Envelope(c), "timestamp") == Some(JNum(c.timestamp))
  {
    Codec.RoundTrip(Envelope(c));
  }

  /**
   * Keys have millisecond resolution: a second commit in the same millisecond reuses
   * the first one's keys, so its records replace the first one's instead of joining them.
   */
  lemma SameInstantOverwrite(b: Batcher, later: seq<Captured>, now: nat)
    requires b.batch != [] && later != [] && |later| <= |b.batch|
    ensures var first := Flushed(b, now);
      var second := Flushed(first.(batch := later), now);
      && second.store.Keys == first.store.Keys
      && forall i :: 0 <= i < |later| ==> Key(now, i) in second.store && second.store[Key(now, i)] == EncryptRecord(later[i])
  {
    var first := Flushed(b, now);
    FlushSpec(b, now);
    FlushSpec(first.(batch := later), now);
    forall k | k in BatchEntries(later, now) ensures k in first.store {
      BatchEntriesOnly(later, now, k);
    }
  }

  // ---- retention sweep

  /**
   * `storageConfig.retentionDays * 86400000`, or `None` when the sweep cannot use it:
   * a missing or `null` configuration throws (and the sweep's `catch` ends it), any
   * other non-number yields NaN, against which no age compares greater.
   */
  function MaxAge(items: map<string, Stored>): Option<int>
  {
    if "storageConfig" !in items then None
    else
      match items["storageConfig"]
      case Encoded(_) => None
      case Plain(v) =>
        if v == JNull then None
        else
          match ToNumber(Get(v, "retentionDays"))
          case Some(d) => Some(d * DAY_MS)
          case None => None
  }

  /**
   * `new Date(JSON.parse(atob(item)).timestamp).getTime()`, or `None` when decoding
   * throws or the timestamp is not a number.
   */
  function EntryTime(item: Stored): Option<int>
  {
    match item
    case Plain(_) => None
    case Encoded(toks) =>
      match Codec.Decode(toks)
      case None => None
      case Some(v) => if v == JNull then None else ToNumber(Get(v, "timestamp"))
  }

  /** The filter predicate of the sweep; strict: an entry exactly `maxAge` old is kept. */
  predicate Expired(item: Stored, maxAge: int, now: int)
  {
    match EntryTime(item)
    case Some(t) => now - t > maxAge
    case None => false
  }

  /** The keys the sweep removes. */
  function KeysToRemove(items: map<string, Stored>, now: int): (r: set<string>)
    ensures r <= items.Keys
    ensures forall k :: k in r ==> StartsWith(k, "data_")
    ensures MaxAge(items).None? ==> r == {}
    ensures forall k :: k in items && EntryTime(items[k]).None? ==> k !in r
    ensures MaxAge(items).Some? ==> forall k :: k in items && StartsWith(k, "data_") && EntryTime(items[k]).Some? ==>
      (k in r <==> now - EntryTime(items[k]).value > MaxAge(items).value)
  {
    match MaxAge(items)
    case None => {}
    case Some(maxAge) => set k | k in items && StartsWith(k, "data_") && Expired(items[k], maxAge, now)
  }

  /** The storage after a sweep. */
  function Swept(items: map<string, Stored>, now: int): map<string, Stored>
  {
    var keys := KeysToRemove(items, now);
    if keys != {} then items - keys else items
  }

  /** A sweep never touches the reserved keys, nor any entry it cannot decode. */
  lemma SweepKeeps(items: map<string, Stored>, now: int, k: string)
    requires k in items
    requires k in RESERVED_KEYS || EntryTime(items[k]).None?
    ensures k in Swept(items, now) && Swept(items, now)[k] == items[k]
  {
    if k in RESERVED_KEYS {
      ReservedNotData(k);
    }
  }

  /**
   * A record committed at `ts` is removed by a later sweep at `now` exactly when it was
   * captured more than the retention age before `now`.
   */
  lemma CommittedRecordExpiry(b: Batcher, ts: nat, i: nat, now: int)
    requires i < |b.batch|
    requires MaxAge(b.store).Some?
    ensures var s := Flushed(b, ts).store;
      Key(ts, i) in s &&
      (Key(ts, i) in KeysToRemove(s, now) <==> now - b.batch[i].timestamp > MaxAge(b.store).value)
  {
    var s := Flushed(b, ts).store;
    CommitKeepsConfig(b, ts);
    BatchEntriesAt(b.batch, ts, i);
    KeyIsData(ts, i);
    StoredRecordDecodes(b.batch[i]);
    assert EntryTime(s[Key(ts, i)]) == Some(b.batch[i].timestamp);
  }

  /** A commit leaves the configuration, and so the retention age, as it was. */
  lemma CommitKeepsConfig(b: Batcher, ts: nat)
    ensures MaxAge(Flushed(b, ts).store) == MaxAge(b.store)
  {
    if "storageConfig" in BatchEntries(b.batch, ts) {
      BatchEntriesOnly(b.batch, ts, "storageConfig");
      ReservedNotData("storageConfig");
    }
  }

  /** The retention age the extension is installed with is seven days. */
  lemma DefaultRetention(items: map<string, Stored>)
    ensures MaxAge(items["storageConfig" := Plain(DEFAULT_CONFIG)]) == Some(7 * DAY_MS)
  {
    var fs := DEFAULT_CONFIG.fields;
    assert fs[0].key[0] != 'r';
    assert Lookup(fs, "retentionDays") == Lookup(fs[1..], "retentionDays") == Some(JNum(7));
  }

  // ---- configuration

  /** `STORAGE_CONFIG`, written at installation. */
  const DEFAULT_CONFIG: Json :=
    JObj([Field("maxItems", JNum(MAX_STORAGE_ITEMS)), Field("retentionDays", JNum(7)), Field("batchSize", JNum(BATCH_SIZE))])

  /** The fields of the stored configuration that `{...result.storageConfig}` copies. */
  function ConfigFields(items: map<string, Stored>): seq<Field>
  {
    if "storageConfig" in items && items["storageConfig"].Plain? then OwnFields(items["storageConfig"].v) else []
  }

  /** The storage after `updateStorageConfig(patch)`. */
  function WithConfigUpdate(items: map<string, Stored>, patch: Json): map<string, Stored>
  {
    items["storageConfig" := Plain(JObj(Spread(ConfigFields(items), OwnFields(patch))))]
  }

  /**
   * Shallow merge: a field present in the patch takes its value, every other field of
   * the old configuration is unchanged, and nothing but the configuration is written.
   */
  lemma ConfigMerge(items: map<string, Stored>, patch: Json, k: string)
    ensures var after := WithConfigUpdate(items, patch);
      && after.Keys == items.Keys + {"storageConfig"}
      && (forall other :: other in items && other != "storageConfig" ==> after[other] == items[other])
      && Lookup(ConfigFields(after), k) ==
           if Lookup(OwnFields(patch), k).Some? then Lookup(OwnFields(patch), k) else Lookup(ConfigFields(items), k)
  {
    SpreadLookup(ConfigFields(items), OwnFields(patch), k);
  }

  /** An update without `retentionDays` leaves the sweep's retention age as it was. */
  lemma UpdateKeepsRetention(items: map<string, Stored>, patch: Json)
    requires Lookup(OwnFields(patch), "retentionDays").None?
    ensures MaxAge(WithConfigUpdate(items, patch)) == MaxAge(items)
  {
    SpreadLookup(ConfigFields(items), OwnFields(patch), "retentionDays");
  }

  /** An update setting `retentionDays` to `d` makes the retention age `d` days. */
  lemma UpdateSetsRetention(items: map<string, Stored>, patch: Json, d: int)
    requires Lookup(OwnFields(patch), "retentionDays") == Some(JNum(d))
    ensures MaxAge(WithConfigUpdate(items, patch)) == Some(d * DAY_MS)
  {
    SpreadLookup(ConfigFields(items), OwnFields(patch), "retentionDays");
  }

  // ---- network capture

  /** The parts of `new URL(details.url)` the extension reads. */
  datatype Url = Url(pathname: string, protocol: string)

  /**
   * A `webRequest` event; `url` is `None` when `new URL` throws, `rawBody` the decoded
   * first raw chunk. `requestHeaders` is `None` when the event carries none, as the
   * `onBeforeRequest` events the extension listens to do not.
   */
  datatype RequestDetails = RequestDetails(
    tabId: int, kind: string, url: Option<Url>, requestHeaders: Option<Json>, rawBody: Option<string>)

  /** The event type `processWebSocketData` assigns from the URL path. */
  function ConnectionType(pathname: string): (r: string)
    ensures r == "chat_connection" <==> OccursIn("/chat", pathname)
    ensures r == "presence_connection" <==> !OccursIn("/chat", pathname) && OccursIn("/presence", pathname)
    ensures r == "websocket" <==> !OccursIn("/chat", pathname) && !OccursIn("/presence", pathname)
  {
    IncludesIffOccurs(pathname, "/chat");
    IncludesIffOccurs(pathname, "/presence");
    if Includes(pathname, "/chat") then "chat_connection"
    else if Includes(pathname, "/presence") then "presence_connection"
    else "websocket"
  }

  /** `headers: details.requestHeaders`; an `undefined` value leaves the key out of the stored text. */
  function HeaderFields(headers: Option<Json>): seq<Field>
  {
    match headers
    case Some(h) => [Field("headers", h)]
    case None => []
  }

  /** `processWebSocketData(details)`. */
  function ProcessWebSocketData(url: Url, headers: Option<Json>, now: int): Json
  {
    JObj([Field("type", JStr(ConnectionType(url.pathname))), Field("timestamp", JNum(now)),
          Field("data", JObj([Field("url", JStr(url.pathname)), Field("protocol", JStr(url.protocol))]
                             + HeaderFields(headers)))])
  }

  /**
   * A connection record is logged with its connection type as `type` and its URL parts
   * as `data`, with a `headers` field only when the event has headers.
   */
  lemma WebSocketRecordWrap(url: Url, headers: Option<Json>, now: int, session: Option<int>)
    ensures Wrap(ProcessWebSocketData(url, headers, now), now, session) ==
      Some(Captured(now, JStr(ConnectionType(url.pathname)), "whatsapp_web", session,
                    JObj([Field("url", JStr(url.pathname)), Field("protocol", JStr(url.protocol))] + HeaderFields(headers))))
    ensures headers.None? ==> Lookup(HeaderFields(headers), "headers").None?
  {
    var fs := ProcessWebSocketData(url, headers, now).fields;
    assert Lookup(fs, "type") == Some(JStr(ConnectionType(url.pathname)));
    assert Lookup(fs, "data") == Lookup(fs[1..], "data") == Lookup(fs[2..], "data");
  }

  /** A parsed packet is logged with its packet type as `type` and its `data` object as `data`. */
  lemma PacketRecordWrap(p: Packet.Packet, now: int, session: Option<int>)
    ensures Wrap(Packet.ToJson(p), now, session) ==
      Some(Captured(now, JStr(Packet.TypeName(p.body)), "whatsapp_web", session, Packet.BodyJson(p.body)))
  {
    var fs := Packet.ToJson(p).fields;
    Packet.TypeNameTruthy(p.body);
    assert Lookup(fs, "data") == Lookup(fs[1..], "data") == Lookup(fs[2..], "data");
  }

  /** `logCapturedData` applied to what one `parse` invocation delivers. */
  function LogPacket(b: Batcher, p: Option<Packet.Packet>, now: nat, session: Option<int>): Batcher
  {
    match p
    case Some(packet) => Logged(b, Packet.ToJson(packet), now, session)
    case None => b
  }

  /** The frames of one queue tick, decoded and logged in queue order. */
  function LogFrames(b: Batcher, frames: seq<string>, parseJson: string -> Option<Json>, now: nat, session: Option<int>): Batcher
  {
    if |frames| == 0 then b
    else
      LogPacket(LogFrames(b, frames[..|frames| - 1], parseJson, now, session),
                Packet.ParsePacket(frames[|frames| - 1], parseJson, now), now, session)
  }

  /** A tick keeps the batcher invariant, however many frames it logs. */
  lemma {:induction false} LogFramesKeepsInv(b: Batcher, frames: seq<string>, parseJson: string -> Option<Json>, now: nat, session: Option<int>)
    requires Inv(b)
    ensures Inv(LogFrames(b, frames, parseJson, now, session))
  {
    if |frames| > 0 {
      var mid := LogFrames(b, frames[..|frames| - 1], parseJson, now, session);
      LogFramesKeepsInv(b, frames[..|frames| - 1], parseJson, now, session);
      match Packet.ParsePacket(frames[|frames| - 1], parseJson, now)
      case Some(packet) => LoggedKeepsInv(mid, Packet.ToJson(packet), now, session);
      case None =>
    }
  }

  /** The state of the background script. */
  class BackgroundScript {
    var isMonitoring: bool
    var monitoringTabId: Option<int>
    var dataBatch: seq<Captured>
    /** `batchTimeout`: the due time of the armed flush timer, `None` when disarmed. */
    var batchTimeout: Option<int>
    /** `chrome.storage.local`. */
    var store: map<string, Stored>
    var messageQueue: seq<string>

    ghost function Batch(): Batcher
      reads this
    {
      Batcher(dataBatch, batchTimeout, store)
    }

    ghost predicate Valid()
      reads this
    {
      Inv(Batch()) && (isMonitoring ==> monitoringTabId.Some?)
    }

    constructor ()
      ensures Valid()
      ensures !isMonitoring && monitoringTabId.None? && dataBatch == [] && batchTimeout.None?
      ensures store == map[] && messageQueue == []
    {
      isMonitoring := false;
      monitoringTabId := None;
      dataBatch := [];
      batchTimeout := None;
      store := map[];
      messageQueue := [];
    }

    /** `processBatch()`, called by the timer or by a full batch. */
    method ProcessBatch(now: nat)
      modifies this
      ensures Batch() == Flushed(old(Batch()), now)
      ensures isMonitoring == old(isMonitoring) && monitoringTabId == old(monitoringTabId)
      ensures messageQueue == old(messageQueue)
    {
      if |dataBatch| > 0 {
        var batchToStore: map<string, Stored> := map[];
        var i := 0;
        while i < |dataBatch|
          invariant 0 <= i <= |dataBatch|
          invariant batchToStore == BatchEntries(dataBatch[..i], now)
        {
          assert dataBatch[..i + 1][..i] == dataBatch[..i];
          batchToStore := batchToStore[Key(now, i) := EncryptRecord(dataBatch[i])];
          i := i + 1;
        }
        assert dataBatch[..i] == dataBatch;
        store := store + batchToStore;
        dataBatch := [];
      }
      batchTimeout := None;
    }

    /** `logCapturedData(data)`. */
    method LogCapturedData(data: Json, now: nat)
      requires Valid()
      modifies this
      ensures Valid()
      ensures Batch() == Logged(old(Batch()), data, now, old(monitoringTabId))
      ensures isMonitoring == old(isMonitoring) && monitoringTabId == old(monitoringTabId)
      ensures messageQueue == old(messageQueue)
    {
      LoggedKeepsInv(Batch(), data, now, monitoringTabId);
      var record := Wrap(data, now, monitoringTabId);
      if record.None? {
        return;
      }
      dataBatch := dataBatch + [record.value];
      if |dataBatch| >= BATCH_SIZE {
        if batchTimeout.Some? {
          batchTimeout := None;
        }
        ProcessBatch(now);
      } else if batchTimeout.None? {
        batchTimeout := Some(now + BATCH_INTERVAL);
      }
    }

    /** The flush timer expires (it can only do so while armed, at or after its due time). */
    method BatchTimerFires(now: nat)
      requires Valid()
      requires batchTimeout.Some? && batchTimeout.value <= now
      modifies this
      ensures Valid()
      ensures Batch() == Flushed(old(Batch()), now)
      ensures isMonitoring == old(isMonitoring) && monitoringTabId == old(monitoringTabId)
      ensures messageQueue == old(messageQueue)
    {
      ProcessBatch(now);
    }

    /** `cleanupOldData()`; `removeCall` is the argument of the one `remove` call, if it is issued. */
    method CleanupOldData(now: nat) returns (removeCall: Option<set<string>>)
      requires Valid()
      modifies this
      ensures Valid()
      ensures removeCall == if KeysToRemove(old(store), now) != {} then Some(KeysToRemove(old(store), now)) else None
      ensures store == Swept(old(store), now)
      ensures dataBatch == old(dataBatch) && batchTimeout == old(batchTimeout)
      ensures isMonitoring == old(isMonitoring) && monitoringTabId == old(monitoringTabId)
      ensures messageQueue == old(messageQueue)
    {
      var keysToRemove := KeysToRemove(store, now);
      if keysToRemove != {} {
        store := store - keysToRemove;
        removeCall := Some(keysToRemove);
      } else {
        removeCall := None;
      }
    }

    /** `chrome.runtime.onInstalled`: seed the defaults, then run the first sweep. */
    method OnInstalled(reason: string, now: nat)
      requires Valid()
      modifies this
      ensures Valid()
      ensures reason != "install" ==> store == old(store)
      ensures reason == "install" ==> store == Swept(old(store)["isEnabled" := Plain(JBool(true))]
        ["monitoringStatus" := Plain(JStr("inactive"))]["storageConfig" := Plain(DEFAULT_CONFIG)], now)
      ensures dataBatch == old(dataBatch) && batchTimeout == old(batchTimeout)
      ensures isMonitoring == old(isMonitoring) && monitoringTabId == old(monitoringTabId)
      ensures messageQueue == old(messageQueue)
    {
      if reason == "install" {
        store := store["isEnabled" := Plain(JBool(true))]["monitoringStatus" := Plain(JStr("inactive"))]
          ["storageConfig" := Plain(DEFAULT_CONFIG)];
        var _ := CleanupOldData(now);
      }
    }

    /** `updateStorageConfig(newConfig)`. */
    method UpdateStorageConfig(newConfig: Json)
      requires Valid()
      modifies this
      ensures Valid()
      ensures store == WithConfigUpdate(old(store), newConfig)
      ensures dataBatch == old(dataBatch) && batchTimeout == old(batchTimeout)
      ensures isMonitoring == old(isMonitoring) && monitoringTabId == old(monitoringTabId)
      ensures messageQueue == old(messageQueue)
    {
      store := WithConfigUpdate(store, newConfig);
    }

    /** `startMonitoring(tabId)`: only the first start takes effect. */
    method StartMonitoring(tabId: int)
      requires Valid()
      modifies this
      ensures Valid()
      ensures old(isMonitoring) ==> isMonitoring && monitoringTabId == old(monitoringTabId) && store == old(store)
      ensures !old(isMonitoring) ==> (isMonitoring && monitoringTabId == Some(tabId) &&
        store == old(store)["monitoringStatus" := Plain(JStr("active"))]["monitoringTabId" := Plain(JNum(tabId))])
      ensures dataBatch == old(dataBatch) && batchTimeout == old(batchTimeout)
      ensures messageQueue == old(messageQueue)
    {
      if !isMonitoring {
        isMonitoring := true;
        monitoringTabId := Some(tabId);
        store := store["monitoringStatus" := Plain(JStr("active"))]["monitoringTabId" := Plain(JNum(tabId))];
      }
    }

    /** `stopMonitoring()`: unconditional. */
    method StopMonitoring()
      requires Valid()
      modifies this
      ensures Valid()
      ensures !isMonitoring && monitoringTabId.None?
      ensures store == old(store)["monitoringStatus" := Plain(JStr("inactive"))]["monitoringTabId" := Plain(JNull)]
      ensures dataBatch == old(dataBatch) && batchTimeout == old(batchTimeout)
      ensures messageQueue == old(messageQueue)
    {
      isMonitoring := false;
      monitoringTabId := None;
      store := store["monitoringStatus" := Plain(JStr("inactive"))]["monitoringTabId" := Plain(JNull)];
    }

    /** `handleWebSocketMessages(details)`: only websocket events of the monitored tab are captured. */
    method HandleWebSocketMessages(details: RequestDetails, now: nat)
      requires Valid()
      modifies this
      ensures Valid()
      ensures var accepted := old(isMonitoring) && old(monitoringTabId) == Some(details.tabId)
                              && details.kind == "websocket" && details.url.Some?;
        && Batch() == (if accepted
                       then Logged(old(Batch()), ProcessWebSocketData(details.url.value, details.requestHeaders, now),
                                   now, old(monitoringTabId))
                       else old(Batch()))
        && messageQueue == old(messageQueue) + (if accepted && details.rawBody.Some? then [details.rawBody.value] else [])
      ensures isMonitoring == old(isMonitoring) && monitoringTabId == old(monitoringTabId)
    {
      if !isMonitoring || monitoringTabId != Some(details.tabId) {
        return;
      }
      if details.kind == "websocket" {
        match details.url
        case None =>
        case Some(url) =>
          LogCapturedData(ProcessWebSocketData(url, details.requestHeaders, now), now);
          if details.rawBody.Some? {
            messageQueue := messageQueue + [details.rawBody.value];
          }
      }
    }

    /** `decodeMQTTMessage(data)`: a fresh parser whose callback logs the packet. */
    method DecodeMqttMessage(frame: string, parseJson: string -> Option<Json>, now: nat)
      requires Valid()
      modifies this
      ensures Valid()
      ensures Batch() == LogPacket(old(Batch()), Packet.ParsePacket(frame, parseJson, now), now, old(monitoringTabId))
      ensures isMonitoring == old(isMonitoring) && monitoringTabId == old(monitoringTabId)
      ensures messageQueue == old(messageQueue)
    {
      var parser := new Packet.Parser();
      parser.On("packet", Some(0));
      parser.Parse(frame, parseJson, now);
      if |parser.calls| > 0 {
        LogCapturedData(parser.calls[0].packet, now);
      }
    }

    /** One run of the 500 ms queue interval: decode at most `QUEUE_BATCH_SIZE` queued frames, oldest first. */
    method MessageQueueTick(parseJson: string -> Option<Json>, now: nat)
      requires Valid()
      modifies this
      ensures Valid()
      ensures var k := if old(|messageQueue| > 0 && isMonitoring) then Min(|old(messageQueue)|, QUEUE_BATCH_SIZE) else 0;
        && messageQueue == old(messageQueue)[k..]
        && Batch() == LogFrames(old(Batch()), old(messageQueue)[..k], parseJson, now, old(monitoringTabId))
      ensures isMonitoring == old(isMonitoring) && monitoringTabId == old(monitoringTabId)
    {
      if |messageQueue| > 0 && isMonitoring {
        var k := Min(|messageQueue|, QUEUE_BATCH_SIZE);
        var batch := messageQueue[..k];
        messageQueue := messageQueue[k..];
        var i := 0;
        while i < |batch|
          invariant 0 <= i <= |batch|
          invariant Valid()
          invariant Batch() == LogFrames(old(Batch()), batch[..i], parseJson, now, old(monitoringTabId))
          invariant isMonitoring == old(isMonitoring) && monitoringTabId == old(monitoringTabId)
          invariant messageQueue == old(messageQueue)[k..]
        {
          assert batch[..i + 1][..i] == batch[..i];
          DecodeMqttMessage(batch[i], parseJson, now);
          i := i + 1;
        }
        assert batch[..i] == batch;
      } else {
        assert old(messageQueue)[..0] == [];
      }
    }
  }
}
