/**
 * The DOM-side message monitor of `src/content/content.js`: new message rows are
 * deduplicated by their `data-id`, queued, and drained in throttled batches of at
 * most `BATCH_SIZE`; each drain hands the successfully extracted messages on as one
 * `message_batch` record.
 *
 * Timers are explicit: `timers` is the multiset of due times of the pending
 * `setTimeout(processPendingMessages, …)` calls, and `Fire` is one of them expiring.
 * The extraction of a row (`extractMessageData`, the later of its two definitions)
 * is the parameter `extract`; it returns an object, returns `null` when the row has no
 * text or time element, or throws, as `new Date(t).toISOString()` does on a time text
 * that does not parse.
 */
module Content {
  import opened Json

  const THROTTLE_MS: nat := 500
  const BATCH_SIZE: nat := 10

  /** A message row: its `data-id` and the rest of its subtree, which only `extract` reads. */
  datatype MessageNode = MessageNode(dataId: string, tree: Json)

  /**
   * What `extractMessageData` does with one row. The definition in effect (the second,
   * which replaces the first) returns an object literal or `null`, so a `Value` always
   * carries an object, which is truthy; `Null` is the falsy result `.filter(Boolean)` drops.
   */
  datatype Extraction = Value(v: Json) | Null | Throws

  /**
   * One `logCapturedData({type: 'message_batch', …})` call: its time and its messages.
   * The content script does not define `logCapturedData`, so the call itself throws a
   * `ReferenceError`, which the drain's `catch` swallows; an emission records the
   * argument the call was made with.
   */
  datatype Emission = Emission(at: int, messages: seq<Json>)

  /** `messageMonitorState`, the pending timers, and the records handed on so far. */
  datatype Monitor = Monitor(
    processedIds: set<string>,
    pending: seq<MessageNode>,
    isProcessing: bool,
    lastProcessTime: int,
    timers: multiset<int>,
    emitted: seq<Emission>)

  const Initial: Monitor := Monitor({}, [], false, 0, multiset{}, [])

  /** `Math.max(0, lastProcessTime + THROTTLE_MS - now)`. */
  function Delay(lastProcessTime: int, now: int): (r: nat)
    ensures r == 0 <==> now >= lastProcessTime + THROTTLE_MS
    ensures now >= lastProcessTime ==> r <= THROTTLE_MS
    ensures now + r >= lastProcessTime + THROTTLE_MS
    ensures r > 0 ==> now + r == lastProcessTime + THROTTLE_MS
  {
    if lastProcessTime + THROTTLE_MS - now > 0 then lastProcessTime + THROTTLE_MS - now else 0
  }

  /** `scheduleMessageProcessing()` at time `now`: a new timer unless a drain is running. */
  function Schedule(m: Monitor, now: int): Monitor
  {
    if m.isProcessing then m
    else m.(timers := m.timers + multiset{now + Delay(m.lastProcessTime, now)})
  }

  /** `queueMessageForProcessing(node)`: check-then-insert on the id, push, schedule. */
  function Queue(m: Monitor, node: MessageNode, now: int): Monitor
  {
    if node.dataId in m.processedIds then m
    else Schedule(m.(processedIds := m.processedIds + {node.dataId}, pending := m.pending + [node]), now)
  }

  /** `.filter(Boolean)` after the `.map`: the objects extracted, in order. */
  function Extracted(nodes: seq<MessageNode>, extract: MessageNode -> Extraction): (r: seq<Json>)
    ensures |r| <= |nodes|
  {
    if |nodes| == 0 then []
    else
      (match extract(nodes[0]) case Value(v) => [v] case _ => []) + Extracted(nodes[1..], extract)
  }

  /** Some extraction throws, so the `.map` over the rows throws. */
  predicate Throwing(nodes: seq<MessageNode>, extract: MessageNode -> Extraction)
  {
    exists i :: 0 <= i < |nodes| && extract(nodes[i]).Throws?
  }

  /**
   * The `try`/`finally` body of `processPendingMessages()` at time `now`: the splice
   * takes the first rows before the `.map` runs, so a throwing extraction loses them
   * and hands nothing on; `finally` clears `isProcessing`.
   */
  function Drained(m: Monitor, now: int, extract: MessageNode -> Extraction): Monitor
  {
    var k := Min(BATCH_SIZE, |m.pending|);
    var rows := m.pending[..k];
    var batch := Extracted(rows, extract);
    m.(
      pending := m.pending[k..],
      lastProcessTime := now,
      isProcessing := false,
      emitted := if !Throwing(rows, extract) && |batch| > 0 then m.emitted + [Emission(now, batch)] else m.emitted)
  }

  /**
   * `processPendingMessages()` at time `now`. The function is `async` but never awaits,
   * so it runs to completion: `isProcessing` is back to `false` when it returns.
   */
  function Drain(m: Monitor, now: int, extract: MessageNode -> Extraction): Monitor
  {
    if m.isProcessing || |m.pending| == 0 then m
    else
      var after := Drained(m, now, extract);
      if |after.pending| > 0 then Schedule(after, now) else after
  }

  /** A pending timer due at `due` expires at `now`. */
  function Fire(m: Monitor, due: int, now: int, extract: MessageNode -> Extraction): Monitor
    requires due in m.timers && due <= now
  {
    Drain(m.(timers := m.timers - multiset{due}), now, extract)
  }

  // ---- properties of the transitions

  /** A repeated id changes nothing. */
  lemma QueueDuplicate(m: Monitor, node: MessageNode, now: int)
    requires node.dataId in m.processedIds
    ensures Queue(m, node, now) == m
  {
  }

  /** A new id is recorded, its row appended at the tail, and (outside a drain) one timer added after the throttle delay. */
  lemma QueueNew(m: Monitor, node: MessageNode, now: int)
    requires node.dataId !in m.processedIds
    ensures var r := Queue(m, node, now);
      && r.processedIds == m.processedIds + {node.dataId}
      && r.pending == m.pending + [node]
      && r.timers == (if m.isProcessing then m.timers else m.timers + multiset{now + Delay(m.lastProcessTime, now)})
      && r.lastProcessTime == m.lastProcessTime && r.isProcessing == m.isProcessing && r.emitted == m.emitted
  {
  }

  /** The successful extractions of a concatenation are those of its parts. */
  lemma {:induction false} ExtractedAppend(a: seq<MessageNode>, b: seq<MessageNode>, extract: MessageNode -> Extraction)
    ensures Extracted(a + b, extract) == Extracted(a, extract) + Extracted(b, extract)
  {
    if |a| > 0 {
      assert (a + b)[0] == a[0];
      assert (a + b)[1..] == a[1..] + b;
      ExtractedAppend(a[1..], b, extract);
    } else {
      assert a + b == b;
    }
  }

  /** Nothing is extracted exactly when no extraction returns an object. */
  lemma {:induction false} ExtractedEmpty(nodes: seq<MessageNode>, extract: MessageNode -> Extraction)
    ensures Extracted(nodes, extract) == [] <==> forall i :: 0 <= i < |nodes| ==> !extract(nodes[i]).Value?
  {
    if |nodes| > 0 {
      var rest := nodes[1..];
      ExtractedEmpty(rest, extract);
      assert forall i :: 0 <= i < |rest| ==> rest[i] == nodes[i + 1];
    }
  }

  /** Every extracted message comes from some row of the batch. */
  lemma {:induction false} ExtractedFrom(nodes: seq<MessageNode>, extract: MessageNode -> Extraction, j: nat)
    requires j < |Extracted(nodes, extract)|
    ensures exists i :: 0 <= i < |nodes| && extract(nodes[i]) == Value(Extracted(nodes, extract)[j])
  {
    var head := match extract(nodes[0]) case Value(v) => [v] case _ => [];
    if j < |head| {
      assert extract(nodes[0]) == Value(Extracted(nodes, extract)[j]);
    } else {
      ExtractedFrom(nodes[1..], extract, j - |head|);
      var i :| 0 <= i < |nodes[1..]| && extract(nodes[1..][i]) == Value(Extracted(nodes[1..], extract)[j - |head|]);
      assert nodes[1..][i] == nodes[i + 1];
    }
  }

  /**
   * A drain on an idle monitor with work takes the first `min(BATCH_SIZE, |pending|)`
   * rows in order, keeps the rest in order, records its time, hands on exactly the
   * extracted objects when no extraction throws (nothing if none is an object), hands
   * on nothing when one throws (the taken rows are lost, their ids stay seen), and
   * schedules another drain exactly when rows remain.
   */
  lemma DrainSpec(m: Monitor, now: int, extract: MessageNode -> Extraction)
    requires !m.isProcessing && m.pending != []
    ensures var k := Min(BATCH_SIZE, |m.pending|);
      var r := Drain(m, now, extract);
      var batch := Extracted(m.pending[..k], extract);
      && m.pending == m.pending[..k] + r.pending
      && r.pending == m.pending[k..]
      && r.lastProcessTime == now && !r.isProcessing && r.processedIds == m.processedIds
      && (Throwing(m.pending[..k], extract) || batch == [] ==> r.emitted == m.emitted)
      && (!Throwing(m.pending[..k], extract) && batch != [] ==> r.emitted == m.emitted + [Emission(now, batch)])
      && r.timers == (if r.pending != [] then m.timers + multiset{now + THROTTLE_MS} else m.timers)
  {
    var k := Min(BATCH_SIZE, |m.pending|);
    assert m.pending == m.pending[..k] + m.pending[k..];
  }

  /** A drain while another runs, or with nothing pending, does nothing. */
  lemma DrainNoop(m: Monitor, now: int, extract: MessageNode -> Extraction)
    requires m.isProcessing || m.pending == []
    ensures Drain(m, now, extract) == m
  {
  }

  /** Outside a drain, `isProcessing` is always false: every transition restores it. */
  lemma IdleBetweenEvents(m: Monitor, node: MessageNode, due: int, now: int, extract: MessageNode -> Extraction)
    requires !m.isProcessing
    ensures !Queue(m, node, now).isProcessing
    ensures due in m.timers && due <= now ==> !Fire(m, due, now, extract).isProcessing
  {
  }

  /** Ids once seen stay seen, and only `Queue` adds them. */
  lemma ProcessedIdsGrow(m: Monitor, node: MessageNode, due: int, now: int, extract: MessageNode -> Extraction)
    ensures m.processedIds <= Queue(m, node, now).processedIds
    ensures node.dataId in Queue(m, node, now).processedIds
    ensures due in m.timers && due <= now ==> Fire(m, due, now, extract).processedIds == m.processedIds
  {
  }

  /** Rows queued one after another, all at time `now`. */
  function QueueAll(m: Monitor, nodes: seq<MessageNode>, now: int): Monitor
  {
    if |nodes| == 0 then m
    else Queue(QueueAll(m, nodes[..|nodes| - 1], now), nodes[|nodes| - 1], now)
  }

  ghost predicate FreshIds(m: Monitor, nodes: seq<MessageNode>)
  {
    && (forall i :: 0 <= i < |nodes| ==> nodes[i].dataId !in m.processedIds)
    && (forall i, j :: 0 <= i < j < |nodes| ==> nodes[i].dataId != nodes[j].dataId)
  }

  /** Queuing a fresh row outside a drain, after the throttle has elapsed, arms a timer due at once. */
  lemma QueueFreshRow(m: Monitor, node: MessageNode, now: int)
    requires !m.isProcessing && m.lastProcessTime + THROTTLE_MS <= now
    requires node.dataId !in m.processedIds
    ensures Queue(m, node, now) ==
      m.(processedIds := m.processedIds + {node.dataId}, pending := m.pending + [node], timers := m.timers + multiset{now})
  {
  }

  /** Queuing fresh rows outside a drain, after the throttle has elapsed, arms one timer per row, each due at once. */
  lemma {:induction false} QueueFreshRows(m: Monitor, nodes: seq<MessageNode>, now: int)
    requires !m.isProcessing && m.lastProcessTime + THROTTLE_MS <= now
    requires FreshIds(m, nodes)
    ensures var r := QueueAll(m, nodes, now);
      && r.pending == m.pending + nodes
      && r.timers == m.timers + MultisetOf(now, |nodes|)
      && r.lastProcessTime == m.lastProcessTime && !r.isProcessing && r.emitted == m.emitted
      && r.processedIds == m.processedIds + IdsOf(nodes)
  {
    if |nodes| > 0 {
      var n := |nodes| - 1;
      var prefix := nodes[..n];
      FreshPrefix(m, nodes);
      QueueFreshRows(m, prefix, now);
      var q := QueueAll(m, prefix, now);
      IdsOfAbsent(prefix, nodes[n].dataId);
      assert nodes[n].dataId !in q.processedIds;
      QueueFreshRow(q, nodes[n], now);
      assert QueueAll(m, nodes, now) == Queue(q, nodes[n], now);
      assert IdsOf(nodes) == IdsOf(prefix) + {nodes[n].dataId};
      assert MultisetOf(now, |nodes|) == MultisetOf(now, n) + multiset{now};
      assert m.pending + nodes == (m.pending + prefix) + [nodes[n]];
    }
  }

  /** The ids of some rows. */
  function IdsOf(nodes: seq<MessageNode>): set<string>
  {
    if |nodes| == 0 then {} else IdsOf(nodes[..|nodes| - 1]) + {nodes[|nodes| - 1].dataId}
  }

  /** Dropping the last of some fresh rows leaves fresh rows that do not carry its id. */
  lemma FreshPrefix(m: Monitor, nodes: seq<MessageNode>)
    requires FreshIds(m, nodes) && |nodes| > 0
    ensures var n := |nodes| - 1;
      && FreshIds(m, nodes[..n])
      && nodes[n].dataId !in m.processedIds
      && forall i :: 0 <= i < n ==> nodes[..n][i].dataId != nodes[n].dataId
  {
    var n := |nodes| - 1;
    assert forall i :: 0 <= i < n ==> nodes[..n][i] == nodes[i];
  }

  /** An id that no row carries is not among the rows' ids. */
  lemma {:induction false} IdsOfAbsent(nodes: seq<MessageNode>, id: string)
    requires forall i :: 0 <= i < |nodes| ==> nodes[i].dataId != id
    ensures id !in IdsOf(nodes)
  {
    if |nodes| > 0 {
      var n := |nodes| - 1;
      assert forall i :: 0 <= i < n ==> nodes[..n][i] == nodes[i];
      IdsOfAbsent(nodes[..n], id);
    }
  }

  /** `count` copies of `x`. */
  function MultisetOf(x: int, count: nat): (r: multiset<int>)
    ensures r[x] == count && |r| == count
  {
    if count == 0 then multiset{} else MultisetOf(x, count - 1) + multiset{x}
  }

  /**
   * As written, the throttle does not space drains: with the throttle elapsed,
   * `BATCH_SIZE + 1` fresh rows queued at `now` arm `BATCH_SIZE + 1` timers all due at
   * `now`; two of them firing at `now` run two drains, and two records are handed on
   * at the same instant.
   */
  lemma ThrottleViolated(m: Monitor, nodes: seq<MessageNode>, now: int, extract: MessageNode -> Extraction)
    requires !m.isProcessing && m.pending == [] && m.lastProcessTime + THROTTLE_MS <= now
    requires |nodes| == BATCH_SIZE + 1 && FreshIds(m, nodes)
    requires forall i :: 0 <= i < |nodes| ==> extract(nodes[i]).Value?
    ensures var q := QueueAll(m, nodes, now);
      && now in q.timers
      && now in Fire(q, now, now, extract).timers
      && var r := Fire(Fire(q, now, now, extract), now, now, extract);
      && |r.emitted| == |m.emitted| + 2
      && r.emitted[|m.emitted|].at == now && r.emitted[|m.emitted| + 1].at == now
  {
    var q := QueueAll(m, nodes, now);
    QueueFreshRows(m, nodes, now);
    var q1 := q.(timers := q.timers - multiset{now});
    assert q1.timers[now] >= BATCH_SIZE;
    AllExtractedEmits(q1, now, extract);
    var f1 := Fire(q, now, now, extract);
    assert f1.pending == nodes[BATCH_SIZE..];
    assert now in f1.timers;
    var f2 := f1.(timers := f1.timers - multiset{now});
    assert f2.pending[0] == nodes[BATCH_SIZE];
    AllExtractedEmits(f2, now, extract);
  }

  /** A drain whose every pending row extracts to an object hands on one record at `now`. */
  lemma AllExtractedEmits(m: Monitor, now: int, extract: MessageNode -> Extraction)
    requires !m.isProcessing && m.pending != []
    requires forall i :: 0 <= i < |m.pending| ==> extract(m.pending[i]).Value?
    ensures var r := Drain(m, now, extract);
      && r.pending == m.pending[Min(BATCH_SIZE, |m.pending|)..]
      && r.timers == (if r.pending != [] then m.timers + multiset{now + THROTTLE_MS} else m.timers)
      && |r.emitted| == |m.emitted| + 1 && r.emitted[|m.emitted|].at == now
  {
    var k := Min(BATCH_SIZE, |m.pending|);
    var rows := m.pending[..k];
    assert forall i :: 0 <= i < k ==> rows[i] == m.pending[i];
    assert !Throwing(rows, extract);
    ExtractedEmpty(rows, extract);
    assert extract(rows[0]).Value?;
    DrainSpec(m, now, extract);
  }

  // ---- the throttle as evidently intended

  /** Schedule only when no drain is running and no timer is pending. */
  function ScheduleOnce(m: Monitor, now: int): Monitor
  {
    if m.isProcessing || m.timers != multiset{} then m
    else m.(timers := multiset{now + Delay(m.lastProcessTime, now)})
  }

  function QueueOnce(m: Monitor, node: MessageNode, now: int): Monitor
  {
    if node.dataId in m.processedIds then m
    else ScheduleOnce(m.(processedIds := m.processedIds + {node.dataId}, pending := m.pending + [node]), now)
  }

  function DrainOnce(m: Monitor, now: int, extract: MessageNode -> Extraction): Monitor
  {
    if m.isProcessing || |m.pending| == 0 then m
    else
      var after := Drained(m, now, extract);
      if |after.pending| > 0 then ScheduleOnce(after, now) else after
  }

  function FireOnce(m: Monitor, due: int, now: int, extract: MessageNode -> Extraction): Monitor
    requires due in m.timers && due <= now
  {
    DrainOnce(m.(timers := m.timers - multiset{due}), now, extract)
  }

  /** Consecutive handed-on records are at least `THROTTLE_MS` apart. */
  ghost predicate Spaced(e: seq<Emission>)
  {
    forall i :: 0 < i < |e| ==> e[i].at >= e[i - 1].at + THROTTLE_MS
  }

  /**
   * The intended throttle: at most one timer, never due before the throttle has
   * elapsed since the last drain, always one while rows wait, and the records handed
   * on so far spaced by the throttle.
   */
  ghost predicate Throttled(m: Monitor)
  {
    && !m.isProcessing
    && |m.timers| <= 1
    && (forall d :: d in m.timers ==> d >= m.lastProcessTime + THROTTLE_MS)
    && (m.pending != [] ==> |m.timers| == 1)
    && (m.emitted != [] ==> m.emitted[|m.emitted| - 1].at <= m.lastProcessTime)
    && Spaced(m.emitted)
  }

  lemma InitialThrottled()
    ensures Throttled(Initial)
  {
  }

  lemma QueueOnceThrottled(m: Monitor, node: MessageNode, now: int)
    requires Throttled(m)
    ensures Throttled(QueueOnce(m, node, now))
  {
  }

  /** With a single pending timer, removing the one that fired leaves none. */
  lemma SingleTimer(timers: multiset<int>, due: int)
    requires |timers| <= 1 && due in timers
    ensures timers - multiset{due} == multiset{}
  {
    var rest := timers - multiset{due};
    assert timers == rest + multiset{due};
    assert |rest| == 0;
  }

  lemma FireOnceThrottled(m: Monitor, due: int, now: int, extract: MessageNode -> Extraction)
    requires Throttled(m) && due in m.timers && due <= now
    ensures Throttled(FireOnce(m, due, now, extract))
  {
    SingleTimer(m.timers, due);
    var m1 := m.(timers := multiset{});
    if m1.pending != [] {
      var r := DrainOnce(m1, now, extract);
      assert now >= m.lastProcessTime + THROTTLE_MS;
      if r.emitted != m.emitted {
        var e := r.emitted;
        assert e[|e| - 1].at == now;
        forall i | 0 < i < |e| ensures e[i].at >= e[i - 1].at + THROTTLE_MS {
          if i < |e| - 1 {
            assert e[i] == m.emitted[i] && e[i - 1] == m.emitted[i - 1];
          }
        }
      }
    }
  }

  // ---- the monitor as the content script holds it

  /** `messageMonitorState` with its pending timers and the records it has handed on. */
  class MessageMonitor {
    var processedIds: set<string>
    var pendingMessages: seq<MessageNode>
    var isProcessing: bool
    var lastProcessTime: int
    var timers: multiset<int>
    var emitted: seq<Emission>

    ghost function State(): Monitor
      reads this
    {
      Monitor(processedIds, pendingMessages, isProcessing, lastProcessTime, timers, emitted)
    }

    constructor ()
      ensures State() == Initial
    {
      processedIds := {};
      pendingMessages := [];
      isProcessing := false;
      lastProcessTime := 0;
      timers := multiset{};
      emitted := [];
    }

    /** `scheduleMessageProcessing()`. */
    method ScheduleMessageProcessing(now: int)
      modifies this
      ensures State() == Schedule(old(State()), now)
    {
      if isProcessing {
        return;
      }
      var timeUntilNextProcess := Delay(lastProcessTime, now);
      timers := timers + multiset{now + timeUntilNextProcess};
    }

    /** `queueMessageForProcessing(node)`. */
    method QueueMessageForProcessing(node: MessageNode, now: int)
      modifies this
      ensures State() == Queue(old(State()), node, now)
    {
      var messageId := node.dataId;
      if messageId in processedIds {
        return;
      }
      processedIds := processedIds + {messageId};
      pendingMessages := pendingMessages + [node];
      ScheduleMessageProcessing(now);
    }

    /** `processPendingMessages()`. */
    method ProcessPendingMessages(now: int, extract: MessageNode -> Extraction)
      modifies this
      ensures State() == Drain(old(State()), now, extract)
    {
      if isProcessing || |pendingMessages| == 0 {
        return;
      }
      isProcessing := true;
      lastProcessTime := now;
      var k := Min(BATCH_SIZE, |pendingMessages|);
      var rows := pendingMessages[..k];
      pendingMessages := pendingMessages[k..];
      if !Throwing(rows, extract) {
        var batch := Extracted(rows, extract);
        if |batch| > 0 {
          emitted := emitted + [Emission(now, batch)];
        }
      }
      isProcessing := false;
      if |pendingMessages| > 0 {
        ScheduleMessageProcessing(now);
      }
    }

    /** The timer due at `due` expires at `now`. */
    method TimerFires(due: int, now: int, extract: MessageNode -> Extraction)
      requires due in timers && due <= now
      modifies this
      ensures State() == Fire(old(State()), due, now, extract)
    {
      timers := timers - multiset{due};
      ProcessPendingMessages(now, extract);
    }
  }
}
