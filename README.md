# WhatsInspect capture pipeline in Dafny

This project models the capture pipeline of the WhatsInspect browser extension and proves
properties of the model. The pipeline has four parts:

- **Background batcher and store** (`src/background/background.js`).
  - Captured records are wrapped with metadata and collected in `dataBatch`.
  - A full batch, or the single flush timer, commits the batch to extension storage under
    generated `data_<time>_<index>` keys. Each record is encoded with `encryptData`.
  - A retention sweep removes expired `data_` entries.
  - The storage configuration is updated by a shallow merge.
  - Monitoring starts and stops for one tab.
  - WebSocket requests are classified by URL path. Their raw bodies are queued and decoded
    as packets, at most ten per tick.
- **DOM message monitor** (`src/content/content.js`). It deduplicates message rows by
  `data-id`, queues them, and drains the queue in throttled batches of at most ten.
- **Packet classifier** (`src/lib/mqtt-packet.js`). It maps a parsed frame to a typed packet
  with defaults. Text that is not JSON is wrapped as `{rawData}`.
- **Dashboard view** (`src/dashboard/dashboard.js`). It loads and sorts records, filters them,
  cuts them into pages, and counts them per type and per direction.

Modules:

| file | module | models |
|---|---|---|
| `wrappers.dfy` | `Wrappers` | `Option` |
| `json.dfy` | `Json` | JavaScript values as the code uses them: truthiness, `\|\|` defaults, property access, object spread, numeric coercion |
| `text.dfy` | `Text` | `includes`, `startsWith`, ASCII `toLowerCase`, decimal rendering of a number |
| `codec.dfy` | `Codec` | `btoa(JSON.stringify(..))` / `JSON.parse(atob(..))` as a token stream with a proved round trip |
| `mqtt_packet.dfy` | `Packet` | `mqtt.parser()`, `on`, `parse`, `processWhatsAppData` |
| `background.dfy` | `Background` | the background script's state (class `BackgroundScript`) and what its operations compute |
| `content.dfy` | `Content` | `messageMonitorState` (class `MessageMonitor`) and its transitions, as written and as intended |
| `dashboard.dfy` | `Dashboard` | loading, filtering, paging and counting (class `DashboardState`) |

The state-changing code is stated in two layers:
- **A pure layer.** A datatype holds the state, and functions such as `Background.Logged`,
  `Background.Flushed`, `Content.Queue` and `Content.Drain` give each transition. These
  functions carry the lemmas.
- **A class layer.** A class holds the same fields. Each method's `ensures` ties its new
  state to the pure transition of its old state, through a ghost `Batch()` or `State()`.

Time is always an explicit parameter `now`, in milliseconds. Pending timers are explicit state:
- `batchTimeout` holds the due time of the one flush timer.
- `Content.Monitor.timers` holds the multiset of due times of the pending drain timers.

`JSON.parse` of a network frame is the parameter `parseJson`. The extraction of a DOM row is
the parameter `extract`, which models the second of the two `extractMessageData` definitions,
the one that takes effect.

The model follows the code where its behaviour is easy to misread:
- **Undecodable entries.** The sweep keeps a `data_` entry it cannot decode. Its `catch`
  returns `false`, and `Background.SweepKeeps` proves the entry survives.
- **Retention clock.** Retention is measured from the `timestamp` inside the stored record,
  which is the capture time. It is not measured from a separate insertion time.
- **Capacity.** `MAX_STORAGE_ITEMS` is declared but never enforced, so the model has no
  eviction.
- **Duplicate `BATCH_SIZE`.** `background.js` declares `const BATCH_SIZE` twice, at lines 8
  and 235. JavaScript rejects that in a module. The model reads them as two constants:
  `Background.BATCH_SIZE` (20) for the batcher and `Background.QUEUE_BATCH_SIZE` (10) for the
  queue tick.
- **`logCapturedData` in the content script.** `content.js` calls `logCapturedData`, but the
  file does not define it, so each such call throws a `ReferenceError` that the drain's
  `catch` swallows. `Content.Emission` records the argument of each such call.
- **Throwing extractions.** The `extractMessageData` that takes effect (content.js:234-254)
  has no `try`; `new Date(t).toISOString()` throws on a time text that does not parse. The
  drain has already spliced its rows off the queue by then, so the whole batch is lost and
  its ids stay seen. `Content.Extraction` gives extraction its three outcomes (an object,
  `null`, a throw), and `Content.DrainSpec` states the loss.

## Model

| member | source | states |
|---|---|---|
| Json.SpreadLookup | src/background/background.js:126 | in `{...a, ...b}` a key present in `b` takes `b`'s value; every other key keeps `a`'s value or stays absent |
| Json.SpreadKeys | src/background/background.js:126 | the spread object has exactly the keys of both operands |
| Text.IncludesIffOccurs | src/background/background.js:223-228 | `s.includes(p)` is true exactly when `p` occurs at some position of `s` |
| Text.ToLower | src/dashboard/dashboard.js:103-104 | lowercasing keeps the length and maps each character through ASCII case folding |
| Text.DecInjective | src/background/background.js:40-43 | distinct commit times render to distinct texts, so commits at distinct times get distinct keys |
| Codec.RoundTrip | src/background/background.js:158-167 | decoding an encoded value gives the value back (`decryptData(encryptData(v)) == v`) |
| Packet.ProcessWhatsAppData | src/lib/mqtt-packet.js:35-69 | `null` gives no packet (the property read throws); `'message'`, `'presence'` and `'contact'` select the three packet kinds and anything else gives type `unknown` with empty data; every field takes its `\|\|` default when falsy; the inner timestamp falls back to `now` |
| Packet.NonJsonIsUnknown | src/lib/mqtt-packet.js:17-22 | text that is not JSON always yields a packet, and its type is `unknown` |
| Packet.TypeNameTruthy | src/lib/mqtt-packet.js:38-59 | the packet type is one of the four constants and is never falsy |
| Packet.Deliveries | src/lib/mqtt-packet.js:25-29 | a parse with a registered callback calls it once with the packet when there is one, and not at all otherwise |
| Packet.Parser.constructor | src/lib/mqtt-packet.js:3-4 | a new parser has no callback and has made no calls |
| Packet.Parser.On | src/lib/mqtt-packet.js:5-7 | `on` replaces the callback whatever the event name, and invokes nothing |
| Packet.Parser.Parse | src/lib/mqtt-packet.js:8-33 | without a callback nothing is invoked; with one, exactly the deliveries of the parsed packet are appended |
| Background.Wrap | src/background/background.js:56-70 | `null` yields no record; otherwise the record has time `now`, `type` defaulting to `'unknown'`, source `'whatsapp_web'`, the monitored tab as session, and `data.data \|\| data` as data |
| Background.KeyIsData | src/background/background.js:43 | every generated key starts with `data_` |
| Background.KeyInjective | src/background/background.js:43 | two generated keys are equal only for the same commit time and index |
| Background.BatchEntriesAt | src/background/background.js:42-45 | record `i` of a batch is stored, encoded, under `data_<ts>_<i>` |
| Background.BatchEntriesOnly | src/background/background.js:42-45 | a batch writes no key other than its generated ones |
| Background.BatchEntriesSize | src/background/background.js:42-45 | a batch writes exactly one entry per record, so its keys are pairwise distinct |
| Background.FlushSpec | src/background/background.js:37-53 | a flush leaves the batch empty and the timer disarmed; an empty batch writes nothing; otherwise exactly the batch's keys are added, each holding its record, and every other entry is unchanged |
| Background.LogSpec | src/background/background.js:56-80 | one call adds exactly one record; reaching `BATCH_SIZE` commits the whole batch in that call and disarms the timer; below it the timer is armed only when none is armed, and storage is untouched |
| Background.LoggedKeepsInv | src/background/background.js:72-80 | logging and flushing keep the invariant: the batch stays below `BATCH_SIZE`, a timer is armed exactly when records wait, and it is due `BATCH_INTERVAL` after the oldest one |
| Background.PartialFill | src/background/background.js:72-80 | fewer than `BATCH_SIZE` records after an empty batch all wait, in order, behind the one timer the first armed |
| Background.SizeTrigger | src/background/background.js:72-76 | `BATCH_SIZE` records after an empty batch cause exactly one commit of exactly those records, and leave no timer |
| Background.TimeTrigger | src/background/background.js:77-79 | one record arms the timer for `now + BATCH_INTERVAL`, and its expiry commits exactly that record under index 0 |
| Background.StoredRecordDecodes | src/background/background.js:58-70 | a stored record decodes to its envelope, whose `timestamp` is the capture time |
| Background.SameInstantOverwrite | src/background/background.js:37-53 | a second commit in the same millisecond, of no more records than the first, adds no key: its records replace the first commit's under the same keys |
| Background.KeysToRemove | src/background/background.js:86-100 | the sweep removes only `data_` keys; it removes nothing when the retention age is unusable; it keeps entries it cannot decode; for the rest it removes a key exactly when `now - timestamp > retentionDays * 86400000` (strict) |
| Background.ReservedNotData | src/background/background.js:22-27 | the keys the extension writes itself are not `data_` keys and never equal a generated key |
| Background.SweepKeeps | src/background/background.js:91-99 | a sweep leaves the reserved keys and every undecodable entry in place |
| Background.CommittedRecordExpiry | src/background/background.js:40-45 | a record committed by a flush is removed by a later sweep exactly when it was captured more than the retention age earlier |
| Background.CommitKeepsConfig | src/background/background.js:47 | a commit leaves the configuration, and so the retention age, unchanged |
| Background.DefaultRetention | src/background/background.js:14-18 | the configuration written at installation gives a seven-day retention age |
| Background.ConfigMerge | src/background/background.js:124-131 | an update writes only `storageConfig`; a field present in the patch takes its new value and every other field keeps its old one |
| Background.UpdateKeepsRetention | src/background/background.js:124-131 | an update without `retentionDays` leaves the sweep's retention age as it was |
| Background.UpdateSetsRetention | src/background/background.js:124-131 | an update setting `retentionDays` to `d` makes the retention age `d` days |
| Background.ConnectionType | src/background/background.js:223-228 | the type is `chat_connection` exactly when the path contains `/chat`; otherwise `presence_connection` exactly when it contains `/presence`; otherwise `websocket` |
| Background.WebSocketRecordWrap | src/background/background.js:208-230 | a connection record is logged with its connection type as `type` and its path and protocol as `data`, plus a `headers` field only when the event carries headers |
| Background.PacketRecordWrap | src/background/background.js:172-176 | a decoded packet is logged with its packet type as `type` and its data object as `data` |
| Background.LogFramesKeepsInv | src/background/background.js:238-249 | a queue tick keeps the batcher invariant however many frames it logs |
| Background.BackgroundScript.constructor | src/background/background.js:5-7 | the script starts not monitoring, with an empty batch, no timer and an empty queue |
| Background.BackgroundScript.ProcessBatch | src/background/background.js:37-53 | the `forEach` builds exactly the batch's entries; the new state is the flush of the old one, and the monitoring state and queue are unchanged |
| Background.BackgroundScript.LogCapturedData | src/background/background.js:56-80 | the new batcher state is the logging transition of the old one, and the invariant is kept |
| Background.BackgroundScript.BatchTimerFires | src/background/background.js:78 | an armed timer that is due flushes the batch |
| Background.BackgroundScript.CleanupOldData | src/background/background.js:83-112 | storage loses exactly the keys to remove; `remove` is issued, with those keys, only when there are some |
| Background.BackgroundScript.OnInstalled | src/background/background.js:21-31 | on `install`, the enabled flag, the inactive status and the default configuration are written, then a sweep runs; any other reason changes nothing |
| Background.BackgroundScript.UpdateStorageConfig | src/background/background.js:124-131 | storage becomes the merged configuration and nothing else changes |
| Background.BackgroundScript.StartMonitoring | src/background/background.js:134-144 | only the first start takes effect: it records the tab and writes the active status and tab id |
| Background.BackgroundScript.StopMonitoring | src/background/background.js:147-155 | monitoring stops unconditionally, the tab is cleared, and the inactive status and a null tab id are written |
| Background.BackgroundScript.HandleWebSocketMessages | src/background/background.js:184-205 | only websocket events of the monitored tab with a valid URL are logged, and only then is their raw body queued |
| Background.BackgroundScript.DecodeMqttMessage | src/background/background.js:170-181 | a fresh parser's callback logs the parsed packet, if there is one |
| Background.BackgroundScript.MessageQueueTick | src/background/background.js:238-249 | while monitoring and with frames queued, the first `min(10, \|queue\|)` frames leave the queue and are logged oldest first; otherwise nothing changes |
| Content.Delay | src/content/content.js:148-152 | the delay is `max(0, last + THROTTLE_MS - now)`: zero exactly when the throttle has elapsed, at most `THROTTLE_MS` when `now >= last`, and never due before `last + THROTTLE_MS` |
| Content.QueueDuplicate | src/content/content.js:127-129 | a repeated id changes nothing: ids, queue and timers stay as they were |
| Content.QueueNew | src/content/content.js:131-134 | a new id is recorded, its row is appended at the tail, and one timer is added unless a drain is running |
| Content.ProcessedIdsGrow | src/content/content.js:131 | seen ids stay seen, and only queueing adds one |
| Content.ExtractedAppend | src/content/content.js:170-173 | the successful extractions of a concatenation are those of its parts, in order |
| Content.ExtractedEmpty | src/content/content.js:172-176 | the filtered batch is empty exactly when no extraction returns an object |
| Content.ExtractedFrom | src/content/content.js:170-173 | every handed-on message is the extraction of some drained row |
| Content.DrainSpec | src/content/content.js:160-198 | a drain takes the first `min(BATCH_SIZE, \|pending\|)` rows in order, keeps the rest in order, records `now`, and schedules another drain exactly when rows remain; when no extraction throws it hands on exactly the extracted objects (nothing if there are none); when one throws it hands on nothing, and the taken rows are lost with their ids still seen |
| Content.DrainNoop | src/content/content.js:161-163 | a drain while another runs, or with nothing pending, does nothing |
| Content.IdleBetweenEvents | src/content/content.js:165-191 | `isProcessing` is false again after every queueing and every drain |
| Content.QueueFreshRow | src/content/content.js:123-155 | a fresh row queued after the throttle has elapsed arms a timer due at once |
| Content.QueueFreshRows | src/content/content.js:123-155 | `n` fresh rows queued after the throttle has elapsed arm `n` timers, all due at once |
| Content.ThrottleViolated | src/content/content.js:143-155 | as written, `BATCH_SIZE + 1` fresh rows lead to two drains handing on records at the same instant |
| Content.InitialThrottled | src/content/content.js:55-62 | the initial monitor satisfies the intended throttle invariant |
| Content.QueueOnceThrottled | src/content/content.js:123-138 | with the intended guard, queueing keeps the throttle invariant |
| Content.FireOnceThrottled | src/content/content.js:160-198 | with the intended guard, a drain keeps the throttle invariant: consecutive hand-ons are at least `THROTTLE_MS` apart, at most one timer is pending, and one is pending whenever rows wait |
| Content.MessageMonitor.constructor | src/content/content.js:55-62 | the monitor starts with no ids, no rows, not processing, last drain at 0 and no timers |
| Content.MessageMonitor.ScheduleMessageProcessing | src/content/content.js:143-155 | the new state is the scheduling transition of the old one |
| Content.MessageMonitor.QueueMessageForProcessing | src/content/content.js:123-138 | the new state is the queueing transition of the old one |
| Content.MessageMonitor.ProcessPendingMessages | src/content/content.js:160-198 | the in-place splice, the emission skipped when an extraction throws, and the `finally` give the drain transition of the old state |
| Content.MessageMonitor.TimerFires | src/content/content.js:154 | a due timer is consumed and runs a drain |
| Dashboard.Kept | src/dashboard/dashboard.js:74-75 | no kept item carries an error |
| Dashboard.KeptFrom | src/dashboard/dashboard.js:74-75 | every kept message is a successfully decoded item without an error |
| Dashboard.InsertSpec | src/dashboard/dashboard.js:76 | inserting into a newest-first sequence keeps it newest first and adds exactly that message |
| Dashboard.SortSorted | src/dashboard/dashboard.js:76 | the sort leaves every message at least as recent as every later one |
| Dashboard.SortPerm | src/dashboard/dashboard.js:76 | the sort keeps exactly the messages it was given, each as often |
| Dashboard.SortSpec | src/dashboard/dashboard.js:76 | the sort orders newest first and is a permutation of its input |
| Dashboard.LoadSpec | src/dashboard/dashboard.js:70-83 | a message is loaded exactly when it is a decoded, error-free item; the loaded list is newest first and holds each kept item as often as it occurs |
| Dashboard.KeptComplete | src/dashboard/dashboard.js:74-75 | every decoded item without an error is kept |
| Dashboard.ApplyFilters | src/dashboard/dashboard.js:99-131 | filtering never adds messages |
| Dashboard.FilterIsSubsequence | src/dashboard/dashboard.js:100 | the filtered list is an order-preserving subsequence of the loaded one |
| Dashboard.FilterMembers | src/dashboard/dashboard.js:100-130 | a message is shown exactly when it is loaded and matches every filter |
| Dashboard.DefaultFiltersKeepAll | src/dashboard/dashboard.js:9-16 | with the initial filters every loaded message is shown, in order |
| Dashboard.SearchMeans | src/dashboard/dashboard.js:102-105 | a non-empty search matches exactly when the lowercased term occurs in the lowercased `sender + ' ' + content` |
| Dashboard.TypeFilter | src/dashboard/dashboard.js:109-111 | a non-empty type set rejects unlisted types; an empty one lets every type through |
| Dashboard.DateBoundsInclusive | src/dashboard/dashboard.js:118-127 | a message exactly at a date bound passes it |
| Dashboard.SliceIndex | src/dashboard/dashboard.js:142 | `slice` indices are clamped to the length, negative ones counted from the end |
| Dashboard.PageSpec | src/dashboard/dashboard.js:140-142 | a page holds at most `itemsPerPage` messages, those from index `(page - 1) * itemsPerPage` on, in order, and is full when enough follow |
| Dashboard.PagesCover | src/dashboard/dashboard.js:140-142 | every filtered message appears on page `i / itemsPerPage + 1` at position `i % itemsPerPage` |
| Dashboard.CountTypes | src/dashboard/dashboard.js:231-234 | the dictionary's keys are the distinct types, in order of first appearance; each value is that type's count; the values add up to the number of messages |
| Dashboard.FirstKindsHead | src/dashboard/dashboard.js:231-234 | the first key of the type dictionary is the type of the first message |
| Dashboard.ValuesOf | src/dashboard/dashboard.js:237 | the values follow the key order |
| Dashboard.UpdateChart | src/dashboard/dashboard.js:230-239 | labels are the distinct types of the filtered messages, in order of first appearance; each value is that type's count; the values sum to the number of filtered messages |
| Dashboard.UpdateStats | src/dashboard/dashboard.js:244-249 | the total is the number of filtered messages, and incoming plus outgoing is at most the total |
| Dashboard.DirectionsDisjoint | src/dashboard/dashboard.js:245-249 | no message counts as both incoming and outgoing |
| Dashboard.DashboardState.constructor | src/dashboard/dashboard.js:2-17 | page 1, 25 per page, no messages, the initial filters |
| Dashboard.DashboardState.ApplyCurrentFilters | src/dashboard/dashboard.js:99-131 | the filtered list becomes the filter of the loaded list under the current filters |
| Dashboard.DashboardState.LoadDashboardData | src/dashboard/dashboard.js:70-83 | the loaded list becomes the decoded, error-free items newest first, then is filtered |

## Left out

- Browser plumbing is not modelled: `chrome.runtime` messaging, the `webRequest` and `tabs` listeners, `MutationObserver`, DOM selectors, contact extraction, chat navigation and all rendering (tables, Chart.js, statistics HTML, exports). The model starts at the functions these listeners call.
- Timers and intervals are explicit state, not real `setTimeout`/`setInterval`. The cleanup and queue intervals are methods the environment calls.
- Asynchronous storage is modelled as immediate. The batch is cleared in the same step as the commit, so records pushed between the `set` call and its callback are not lost in the model. `OnInstalled` runs its sweep after its own writes, although the source does not order them.
- Capacity eviction is not modelled: `MAX_STORAGE_ITEMS` is never enforced.
- Background.Key: keys have millisecond resolution, as the ISO text does, so two commits in the same millisecond write the same keys. In the source the later commit replaces the earlier one's records only when the earlier commit's `set` callback has already cleared the batch within that millisecond; until the callback runs, every further push re-flushes the whole growing batch under the same keys and nothing is lost. Because the model clears the batch in the commit step itself, in the model a second commit in the same millisecond always follows such a clear, and `Background.SameInstantOverwrite` shows the replacement in that state; the model does not promise that every logged record stays stored.
- Timestamps are integers, in milliseconds. The source stores `toISOString()` text and reads it back with `new Date(..).getTime()`, and the model treats that round trip as the identity. Commit keys render the time in decimal instead of ISO text.
- `JSON.parse` of a frame is the parameter `parseJson`, and `TextDecoder`, `new URL` and the raw request body are given as values. An invalid URL is `None` in `RequestDetails.url`, and with it nothing is logged or queued. An empty `raw` array, whose property read throws after the record is logged, is not modelled.
- Json.JNum: numbers are integers, so a fractional `retentionDays` set through `updateStorageConfig` (background.js:86 multiplies whatever number is stored) is not modelled.
- `Json.ToNumber`: numeric strings and arrays become NaN in the model, whereas JavaScript's `Number` converts `"7"` to 7 and `[]` to 0, so `Background.MaxAge` treats such a `retentionDays` as unusable. `Background.EntryTime` reads the time with `new Date(..).getTime()`, which gives NaN for `[]` as the model does, but parses a string such as `"7"` as a date rather than as a number; date-string parsing is not modelled.
- Text.ToLower: only ASCII letters are folded; Unicode case mapping is not modelled.
- Dashboard.Message: records are typed, so a missing `sender` or `content` does not render as the text `undefined` in the search string. The dashboard's `decryptData` is not part of this model, so the decoded items are an input.
- Dashboard.SortSpec: the stability of `Array.prototype.sort` is not stated. The model's insertion sort is stable, but that is not proved.
- Dashboard.CountTypes, Dashboard.UpdateChart: keys and chart labels are kept in insertion order; `Object.keys` lists integer-like keys first in ascending order, which is not modelled.
- Codec.Encode: `encryptData` is a token stream standing in for `btoa(JSON.stringify(..))`, and it is total. In the source `btoa` throws on any character above U+00FF (emoji, curly quotes, non-Latin scripts). Such a throw inside `processBatch`'s `forEach` (background.js:42-45) skips the storage write and `batchTimeout = null` (line 52); the stale timer id then blocks re-arming (line 77), every later size-triggered flush throws again on the same record, and the batch grows while nothing more is stored. In `handleWebSocketMessages` the push to the queue (lines 196-198) is skipped as well.
- Background.FlushSpec: holds because `Codec.Encode` is total; the failure path above, where a flush throws and leaves the batch and the timer in place, is not modelled. `Background.LoggedKeepsInv` and `Background.SizeTrigger` likewise assume that every flush succeeds.
- `src/popup/popup.js` is not part of this model.

## Findings

| source | as written | input that shows it | evidently intended | confidence | as-written member | corrected member |
|---|---|---|---|---|---|---|
| src/content/content.js:143-155 | `scheduleMessageProcessing` checks only `isProcessing`, so every newly queued row arms another timer, and each timer runs a drain | throttle elapsed, then 11 new rows queued at time `t`: 11 timers are due at `t`; the first drains 10 rows and the second drains the 11th, so two batches are handed on at `t`, 0 ms apart | schedule only when no drain timer is pending, so drains are at least `THROTTLE_MS` apart | medium (not executed) | Content.ThrottleViolated | Content.FireOnceThrottled |

The corrected transitions are `Content.ScheduleOnce`, `Content.QueueOnce`, `Content.DrainOnce`
and `Content.FireOnce`. `Content.Throttled` is the invariant they keep: at most one pending
timer, none due before the throttle has elapsed, one pending whenever rows wait, and records
handed on at least `THROTTLE_MS` apart. `Content.InitialThrottled`, `Content.QueueOnceThrottled`
and `Content.FireOnceThrottled` prove it for every reachable state. The class
`Content.MessageMonitor` keeps the source's behaviour as written.
