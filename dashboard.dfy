/**
 * The message view of `src/dashboard/dashboard.js`: loaded records are filtered by
 * search text, type, direction and an inclusive date range, shown one page at a
 * time, counted per type for the chart and per direction for the statistics.
 */
module Dashboard {
  import opened Wrappers
  import opened Text

  /** A decoded record as the dashboard reads it; `timestamp` is `new Date(timestamp)` in milliseconds. */
  datatype Message = Message(
    id: string, timestamp: int, kind: string, sender: string, content: string, direction: string, hasError: bool)

  /** `dashboardState.filters`; the dates are the parsed input values, `None` when the input is empty. */
  datatype Filters = Filters(
    search: string, types: set<string>, incoming: bool, outgoing: bool, dateFrom: Option<int>, dateTo: Option<int>)

  const DefaultFilters: Filters := Filters("", {}, true, true, None, None)

  // ---- loading

  /** `.filter(item => item && !item.error)` over the decoded items; `None` is a falsy decode. */
  function Kept(items: seq<Option<Message>>): (r: seq<Message>)
    ensures forall i :: 0 <= i < |r| ==> !r[i].hasError
  {
    if |items| == 0 then []
    else
      var rest := Kept(items[1..]);
      if items[0].Some? && !items[0].value.hasError then [items[0].value] + rest else rest
  }

  /** Newest first: every message is at least as recent as every later one. */
  ghost predicate NewestFirst(s: seq<Message>)
  {
    forall i, j :: 0 <= i < j < |s| ==> s[i].timestamp >= s[j].timestamp
  }

  /** Insert into a newest-first sequence, after every message at least as recent (so the sort is stable). */
  function Insert(x: Message, s: seq<Message>): seq<Message>
  {
    if |s| == 0 then [x]
    else if s[0].timestamp >= x.timestamp then [s[0]] + Insert(x, s[1..])
    else [x] + s
  }

  /** `.sort((a, b) => new Date(b.timestamp) - new Date(a.timestamp))`. */
  function SortNewestFirst(s: seq<Message>): seq<Message>
  {
    if |s| == 0 then [] else Insert(s[|s| - 1], SortNewestFirst(s[..|s| - 1]))
  }

  /** No message of `s` is more recent than `t`. */
  ghost predicate NoLaterThan(s: seq<Message>, t: int)
  {
    forall j :: 0 <= j < |s| ==> s[j].timestamp <= t
  }

  lemma ConsNewestFirst(h: Message, t: seq<Message>)
    requires NewestFirst(t) && NoLaterThan(t, h.timestamp)
    ensures NewestFirst([h] + t)
  {
    var s := [h] + t;
    forall i, j | 0 <= i < j < |s| ensures s[i].timestamp >= s[j].timestamp {
      if i > 0 {
        assert s[i] == t[i - 1] && s[j] == t[j - 1];
      } else {
        assert s[j] == t[j - 1];
      }
    }
  }

  lemma {:induction false} InsertPerm(x: Message, s: seq<Message>)
    ensures multiset(Insert(x, s)) == multiset(s) + multiset{x}
  {
    if |s| > 0 {
      assert s == [s[0]] + s[1..];
      if s[0].timestamp >= x.timestamp {
        InsertPerm(x, s[1..]);
      }
    }
  }

  lemma {:induction false} InsertNoLaterThan(x: Message, s: seq<Message>, t: int)
    requires NoLaterThan(s, t) && x.timestamp <= t
    ensures NoLaterThan(Insert(x, s), t)
  {
    if |s| > 0 {
      if s[0].timestamp >= x.timestamp {
        InsertNoLaterThan(x, s[1..], t);
        var r := Insert(x, s[1..]);
        assert Insert(x, s) == [s[0]] + r;
      } else {
        assert Insert(x, s) == [x] + s;
      }
    }
  }

  lemma {:induction false} InsertSpec(x: Message, s: seq<Message>)
    requires NewestFirst(s)
    ensures NewestFirst(Insert(x, s))
    ensures multiset(Insert(x, s)) == multiset(s) + multiset{x}
  {
    InsertPerm(x, s);
    if |s| > 0 {
      var tail := s[1..];
      assert NewestFirst(tail);
      assert NoLaterThan(tail, s[0].timestamp);
      if s[0].timestamp >= x.timestamp {
        InsertSpec(x, tail);
        InsertNoLaterThan(x, tail, s[0].timestamp);
        ConsNewestFirst(s[0], Insert(x, tail));
      } else {
        assert NoLaterThan(s, x.timestamp);
        ConsNewestFirst(x, s);
      }
    }
  }

  /** A non-empty sequence holds its last element besides the ones before it. */
  lemma MultisetLast<T>(s: seq<T>)
    requires |s| > 0
    ensures multiset(s) == multiset(s[..|s| - 1]) + multiset{s[|s| - 1]}
  {
    assert s == s[..|s| - 1] + [s[|s| - 1]];
  }

  /** The sort orders newest first. */
  lemma {:induction false} SortSorted(s: seq<Message>)
    ensures NewestFirst(SortNewestFirst(s))
  {
    if |s| > 0 {
      var n := |s| - 1;
      SortSorted(s[..n]);
      InsertSpec(s[n], SortNewestFirst(s[..n]));
    }
  }

  /** The sort keeps exactly the same messages. */
  lemma {:induction false} SortPerm(s: seq<Message>)
    ensures multiset(SortNewestFirst(s)) == multiset(s)
  {
    if |s| > 0 {
      var n := |s| - 1;
      SortPerm(s[..n]);
      MultisetLast(s);
      InsertPerm(s[n], SortNewestFirst(s[..n]));
    }
  }

  /** The sort orders newest first and keeps exactly the same messages. */
  lemma SortSpec(s: seq<Message>)
    ensures NewestFirst(SortNewestFirst(s))
    ensures multiset(SortNewestFirst(s)) == multiset(s)
  {
    SortSorted(s);
    SortPerm(s);
  }

  /** `dashboardState.messages` after `loadDashboardData`, given the decoded storage values. */
  function Load(items: seq<Option<Message>>): seq<Message>
  {
    SortNewestFirst(Kept(items))
  }

  /** The loaded messages are exactly the decoded, error-free items, newest first. */
  lemma LoadSpec(items: seq<Option<Message>>)
    ensures NewestFirst(Load(items))
    ensures multiset(Load(items)) == multiset(Kept(items))
    ensures forall m :: m in Load(items) <==> !m.hasError && Some(m) in items
  {
    SortSpec(Kept(items));
    forall m ensures m in Load(items) <==> !m.hasError && Some(m) in items {
      if m in Load(items) {
        assert m in multiset(Kept(items));
        KeptFrom(items, m);
      }
      if !m.hasError && Some(m) in items {
        KeptComplete(items, m);
        assert m in multiset(Load(items));
      }
    }
  }

  /** Every decoded, error-free item is kept. */
  lemma {:induction false} KeptComplete(items: seq<Option<Message>>, m: Message)
    requires !m.hasError && Some(m) in items
    ensures m in Kept(items)
  {
    if items[0] != Some(m) {
      assert Some(m) in items[1..];
      KeptComplete(items[1..], m);
    }
  }

  lemma {:induction false} KeptFrom(items: seq<Option<Message>>, m: Message)
    requires m in Kept(items)
    ensures !m.hasError && Some(m) in items
  {
    if !(items[0].Some? && items[0].value == m && !m.hasError) {
      assert m in Kept(items[1..]);
      KeptFrom(items[1..], m);
      assert items[1..][0] in items;
    }
  }

  // ---- filtering

  /** The search filter: an empty term matches everything, otherwise a case-insensitive substring test. */
  predicate SearchMatches(search: string, m: Message)
  {
    search == "" || Includes(ToLower(m.sender + " " + m.content), ToLower(search))
  }

  /** The predicate of `applyFilters`. */
  predicate MatchesFilters(f: Filters, m: Message)
  {
    && SearchMatches(f.search, m)
    && (|f.types| > 0 ==> m.kind in f.types)
    && !(!f.incoming && m.direction == "incoming")
    && !(!f.outgoing && m.direction == "outgoing")
    && (f.dateFrom.Some? ==> !(m.timestamp < f.dateFrom.value))
    && (f.dateTo.Some? ==> !(m.timestamp > f.dateTo.value))
  }

  /** `dashboardState.messages.filter(...)`. */
  function ApplyFilters(f: Filters, messages: seq<Message>): (r: seq<Message>)
    ensures |r| <= |messages|
  {
    if |messages| == 0 then []
    else
      var rest := ApplyFilters(f, messages[1..]);
      if MatchesFilters(f, messages[0]) then [messages[0]] + rest else rest
  }

  /** `a` is `b` with some elements left out, the rest in their order. */
  ghost predicate SubsequenceOf(a: seq<Message>, b: seq<Message>)
    decreases |b|
  {
    if |a| == 0 then true
    else if |b| == 0 then false
    else (a[0] == b[0] && SubsequenceOf(a[1..], b[1..])) || SubsequenceOf(a, b[1..])
  }

  /** The filtered list keeps the order of the loaded one. */
  lemma {:induction false} FilterIsSubsequence(f: Filters, messages: seq<Message>)
    ensures SubsequenceOf(ApplyFilters(f, messages), messages)
  {
    if |messages| > 0 {
      FilterIsSubsequence(f, messages[1..]);
      var r := ApplyFilters(f, messages);
      if MatchesFilters(f, messages[0]) {
        assert r[0] == messages[0] && r[1..] == ApplyFilters(f, messages[1..]);
      }
    }
  }

  /** A message is shown exactly when it is loaded and matches every filter. */
  lemma {:induction false} FilterMembers(f: Filters, messages: seq<Message>, m: Message)
    ensures m in ApplyFilters(f, messages) <==> m in messages && MatchesFilters(f, m)
  {
    if |messages| > 0 {
      FilterMembers(f, messages[1..], m);
      assert messages == [messages[0]] + messages[1..];
    }
  }

  /** With the initial filters, every loaded message is shown. */
  lemma {:induction false} DefaultFiltersKeepAll(messages: seq<Message>)
    ensures ApplyFilters(DefaultFilters, messages) == messages
  {
    if |messages| > 0 {
      DefaultFiltersKeepAll(messages[1..]);
    }
  }

  /** The search filter is a case-insensitive substring test on `sender + ' ' + content`. */
  lemma SearchMeans(search: string, m: Message)
    requires search != ""
    ensures SearchMatches(search, m) <==> OccursIn(ToLower(search), ToLower(m.sender + " " + m.content))
  {
    IncludesIffOccurs(ToLower(m.sender + " " + m.content), ToLower(search));
  }

  /** The type filter rejects an unlisted type, and an empty type set lets every type through. */
  lemma TypeFilter(f: Filters, m: Message)
    ensures f.types != {} && m.kind !in f.types ==> !MatchesFilters(f, m)
    ensures f.types == {} ==> (MatchesFilters(f, m) <==> MatchesFilters(f.(types := {m.kind}), m))
  {
  }

  /** The date bounds are inclusive: a message exactly at either bound passes them. */
  lemma DateBoundsInclusive(f: Filters, m: Message)
    requires f.dateFrom == Some(m.timestamp) || f.dateTo == Some(m.timestamp)
    requires f.dateFrom.Some? ==> f.dateFrom.value <= m.timestamp
    requires f.dateTo.Some? ==> m.timestamp <= f.dateTo.value
    ensures MatchesFilters(f, m) <==> MatchesFilters(f.(dateFrom := None, dateTo := None), m)
  {
  }

  // ---- paging

  /** A relative index of `Array.prototype.slice`, clamped to `[0, len]`. */
  function SliceIndex(i: int, len: nat): (r: nat)
    ensures r <= len
    ensures 0 <= i <= len ==> r == i
    ensures i > len ==> r == len
    ensures i < 0 ==> r == if len + i > 0 then len + i else 0
  {
    if i < 0 then (if len + i > 0 then len + i else 0)
    else if i > len then len
    else i
  }

  /** `s.slice(start, end)`. */
  function JsSlice<T>(s: seq<T>, start: int, end: int): seq<T>
  {
    var from := SliceIndex(start, |s|);
    var to := SliceIndex(end, |s|);
    if from < to then s[from..to] else []
  }

  /** `(currentPage - 1) * itemsPerPage`, the index of a page's first message. */
  function PageStart(currentPage: int, itemsPerPage: nat): (r: int)
    ensures currentPage >= 1 ==> r >= 0
  {
    (currentPage - 1) * itemsPerPage
  }

  /** The messages `updateTable` shows on page `currentPage`. */
  function Page(filtered: seq<Message>, currentPage: int, itemsPerPage: nat): seq<Message>
  {
    var startIndex := PageStart(currentPage, itemsPerPage);
    JsSlice(filtered, startIndex, startIndex + itemsPerPage)
  }

  /** A page holds at most `itemsPerPage` messages, the ones from its start index on, in order. */
  lemma PageSpec(filtered: seq<Message>, currentPage: int, itemsPerPage: nat)
    requires currentPage >= 1
    ensures var r := Page(filtered, currentPage, itemsPerPage);
      var start := PageStart(currentPage, itemsPerPage);
      && |r| <= itemsPerPage
      && (start >= |filtered| ==> r == [])
      && (forall i :: 0 <= i < |r| ==> start + i < |filtered| && r[i] == filtered[start + i])
      && (start + itemsPerPage <= |filtered| ==> |r| == itemsPerPage)
  {
    SliceWindow(filtered, PageStart(currentPage, itemsPerPage), itemsPerPage);
  }

  /** `s.slice(start, start + n)` for a non-negative `start`: at most `n` elements, those from `start` on. */
  lemma SliceWindow<T>(s: seq<T>, start: nat, n: nat)
    ensures var r := JsSlice(s, start, start + n);
      && |r| <= n
      && (start >= |s| ==> r == [])
      && (forall i :: 0 <= i < |r| ==> start + i < |s| && r[i] == s[start + i])
      && (start + n <= |s| ==> |r| == n)
  {
  }

  /** Every filtered message is shown on exactly the page its position gives. */
  lemma PagesCover(filtered: seq<Message>, i: nat, itemsPerPage: nat)
    requires i < |filtered| && itemsPerPage > 0
    ensures var p := i / itemsPerPage + 1;
      i % itemsPerPage < |Page(filtered, p, itemsPerPage)| &&
      Page(filtered, p, itemsPerPage)[i % itemsPerPage] == filtered[i]
  {
    var p := i / itemsPerPage + 1;
    var start := PageStart(p, itemsPerPage);
    assert start + i % itemsPerPage == i;
    PageSpec(filtered, p, itemsPerPage);
  }

  // ---- counts

  /** How many of `msgs` have type `kind`. */
  function CountKind(msgs: seq<Message>, kind: string): nat
  {
    if |msgs| == 0 then 0 else CountKind(msgs[..|msgs| - 1], kind) + (if msgs[|msgs| - 1].kind == kind then 1 else 0)
  }

  /** How many of `msgs` have direction `direction`. */
  function CountDirection(msgs: seq<Message>, direction: string): nat
  {
    if |msgs| == 0 then 0
    else CountDirection(msgs[..|msgs| - 1], direction) + (if msgs[|msgs| - 1].direction == direction then 1 else 0)
  }

  function Sum(keys: seq<string>, counts: map<string, nat>): nat
    requires forall k :: k in keys ==> k in counts
  {
    if |keys| == 0 then 0 else Sum(keys[..|keys| - 1], counts) + counts[keys[|keys| - 1]]
  }

  ghost predicate Distinct(keys: seq<string>)
  {
    forall i, j :: 0 <= i < j < |keys| ==> keys[i] != keys[j]
  }

  lemma {:induction false} SumIncrement(keys: seq<string>, counts: map<string, nat>, k: string)
    requires Distinct(keys) && k in keys
    requires forall x :: x in keys ==> x in counts
    ensures Sum(keys, counts[k := counts[k] + 1]) == Sum(keys, counts) + 1
  {
    var n := |keys| - 1;
    var prefix := keys[..n];
    var after := counts[k := counts[k] + 1];
    if keys[n] == k {
      assert k !in prefix;
      SumUnchanged(prefix, counts, after);
    } else {
      assert k in prefix;
      SumIncrement(prefix, counts, k);
    }
  }

  lemma {:induction false} SumUnchanged(keys: seq<string>, a: map<string, nat>, b: map<string, nat>)
    requires forall x :: x in keys ==> x in a && x in b && a[x] == b[x]
    ensures Sum(keys, a) == Sum(keys, b)
  {
    if |keys| > 0 {
      SumUnchanged(keys[..|keys| - 1], a, b);
    }
  }

  /** The keys are the distinct types of `msgs` in order of first appearance, and exactly the keys of `counts`. */
  ghost predicate KeysListed(msgs: seq<Message>, keys: seq<string>, counts: map<string, nat>)
  {
    && keys == FirstKinds(msgs)
    && Distinct(keys)
    && (forall k :: k in keys <==> k in counts)
  }

  /** `counts` holds, for each type of `msgs` and no other, how many messages have it. */
  ghost predicate KindsCounted(msgs: seq<Message>, counts: map<string, nat>)
  {
    && (forall k :: k in counts ==> counts[k] == CountKind(msgs, k))
    && (forall j :: 0 <= j < |msgs| ==> msgs[j].kind in counts)
    && (forall k :: k in counts ==> k in KindsOf(msgs))
  }

  /** Appending a message extends the first-appearance list, the counts and the type set by its type. */
  lemma AppendOne(msgs: seq<Message>, x: Message)
    ensures var seen := FirstKinds(msgs);
      FirstKinds(msgs + [x]) == if x.kind in seen then seen else seen + [x.kind]
    ensures forall k :: CountKind(msgs + [x], k) == CountKind(msgs, k) + (if x.kind == k then 1 else 0)
    ensures KindsOf(msgs + [x]) == KindsOf(msgs) + {x.kind}
    ensures forall j :: 0 <= j < |msgs| ==> (msgs + [x])[j] == msgs[j]
  {
    assert (msgs + [x])[..|msgs|] == msgs;
  }

  /** One more count for `kind`: incremented when present, one otherwise (`(messageTypes[type] || 0) + 1`). */
  function Bump(counts: map<string, nat>, kind: string): map<string, nat>
  {
    counts[kind := if kind in counts then counts[kind] + 1 else 1]
  }

  lemma KeysListedStep(msgs: seq<Message>, keys: seq<string>, counts: map<string, nat>, x: Message)
    requires KeysListed(msgs, keys, counts)
    ensures KeysListed(msgs + [x], if x.kind in counts then keys else keys + [x.kind], Bump(counts, x.kind))
  {
    AppendOne(msgs, x);
    if x.kind !in counts {
      var ks := keys + [x.kind];
      forall i, j | 0 <= i < j < |ks| ensures ks[i] != ks[j] {
        assert ks[i] == keys[i];
        if j < |keys| {
          assert ks[j] == keys[j];
        }
      }
    }
  }

  lemma KindsCountedStep(msgs: seq<Message>, counts: map<string, nat>, x: Message)
    requires KindsCounted(msgs, counts)
    ensures KindsCounted(msgs + [x], Bump(counts, x.kind))
  {
    var s := msgs + [x];
    var c := Bump(counts, x.kind);
    AppendOne(msgs, x);
    if x.kind !in counts {
      CountKindAbsent(msgs, x.kind);
    }
    forall k | k in c ensures c[k] == CountKind(s, k) {
      if k != x.kind {
        assert c[k] == counts[k];
      }
    }
    forall j | 0 <= j < |s| ensures s[j].kind in c {
      if j < |msgs| {
        assert s[j] == msgs[j];
      }
    }
  }

  lemma SumStep(keys: seq<string>, counts: map<string, nat>, kind: string)
    requires Distinct(keys) && forall k :: k in keys <==> k in counts
    ensures var ks := if kind in counts then keys else keys + [kind];
      (forall k :: k in ks ==> k in Bump(counts, kind)) && Sum(ks, Bump(counts, kind)) == Sum(keys, counts) + 1
  {
    var c := Bump(counts, kind);
    if kind in counts {
      SumIncrement(keys, counts, kind);
    } else {
      var ks := keys + [kind];
      SumUnchanged(keys, counts, c);
      assert ks[..|keys|] == keys;
    }
  }

  /**
   * The `forEach` of `updateChart`: `messageTypes` with its keys in insertion order.
   * The keys are the distinct types in order of first appearance, each counted, and
   * the counts add up to the number of messages.
   */
  method CountTypes(filtered: seq<Message>) returns (keys: seq<string>, messageTypes: map<string, nat>)
    ensures keys == FirstKinds(filtered)
    ensures Distinct(keys)
    ensures forall k :: k in keys <==> k in messageTypes
    ensures forall k :: k in messageTypes ==> messageTypes[k] == CountKind(filtered, k)
    ensures forall m :: m in filtered ==> m.kind in messageTypes
    ensures forall k :: k in messageTypes ==> k in KindsOf(filtered)
    ensures Sum(keys, messageTypes) == |filtered|
  {
    messageTypes := map[];
    keys := [];
    var i := 0;
    while i < |filtered|
      invariant 0 <= i <= |filtered|
      invariant KeysListed(filtered[..i], keys, messageTypes)
      invariant KindsCounted(filtered[..i], messageTypes)
      invariant Sum(keys, messageTypes) == i
    {
      var kind := filtered[i].kind;
      assert filtered[..i + 1] == filtered[..i] + [filtered[i]];
      KeysListedStep(filtered[..i], keys, messageTypes, filtered[i]);
      KindsCountedStep(filtered[..i], messageTypes, filtered[i]);
      SumStep(keys, messageTypes, kind);
      if kind !in messageTypes {
        keys := keys + [kind];
      }
      messageTypes := Bump(messageTypes, kind);
      i := i + 1;
    }
    assert filtered[..i] == filtered;
  }

  /** The types of `msgs`, each once, in order of first appearance. */
  function FirstKinds(msgs: seq<Message>): seq<string>
  {
    if |msgs| == 0 then []
    else
      var seen := FirstKinds(msgs[..|msgs| - 1]);
      var kind := msgs[|msgs| - 1].kind;
      if kind in seen then seen else seen + [kind]
  }

  /** The first type listed is the type of the first message. */
  lemma {:induction false} FirstKindsHead(msgs: seq<Message>)
    requires msgs != []
    ensures FirstKinds(msgs) != [] && FirstKinds(msgs)[0] == msgs[0].kind
  {
    var n := |msgs| - 1;
    if n > 0 {
      FirstKindsHead(msgs[..n]);
    }
  }

  /** A type that does not occur has count zero. */
  lemma {:induction false} CountKindAbsent(msgs: seq<Message>, kind: string)
    requires forall j :: 0 <= j < |msgs| ==> msgs[j].kind != kind
    ensures CountKind(msgs, kind) == 0
  {
    if |msgs| > 0 {
      CountKindAbsent(msgs[..|msgs| - 1], kind);
    }
  }

  /** The types occurring in `msgs`. */
  function KindsOf(msgs: seq<Message>): set<string>
  {
    if |msgs| == 0 then {} else KindsOf(msgs[..|msgs| - 1]) + {msgs[|msgs| - 1].kind}
  }

  /** `Object.values(messageTypes)`, in key order. */
  function ValuesOf(keys: seq<string>, counts: map<string, nat>): (r: seq<nat>)
    requires forall k :: k in keys ==> k in counts
    ensures |r| == |keys| && forall i :: 0 <= i < |keys| ==> r[i] == counts[keys[i]]
  {
    if |keys| == 0 then [] else ValuesOf(keys[..|keys| - 1], counts) + [counts[keys[|keys| - 1]]]
  }

  lemma {:induction false} ValuesOfSum(keys: seq<string>, counts: map<string, nat>)
    requires forall k :: k in keys ==> k in counts
    ensures ValuesSum(ValuesOf(keys, counts)) == Sum(keys, counts)
  {
    if |keys| > 0 {
      var n := |keys| - 1;
      ValuesOfSum(keys[..n], counts);
      assert ValuesOf(keys, counts)[..n] == ValuesOf(keys[..n], counts);
    }
  }

  /**
   * `updateChart`: the chart's labels and values. Labels are the distinct types in
   * order of first appearance, each value is that type's count, and the values add
   * up to the number of filtered messages.
   */
  method UpdateChart(filtered: seq<Message>) returns (labels: seq<string>, values: seq<nat>)
    ensures labels == FirstKinds(filtered)
    ensures |labels| == |values| && Distinct(labels)
    ensures forall i :: 0 <= i < |labels| ==> values[i] == CountKind(filtered, labels[i])
    ensures forall m :: m in filtered ==> m.kind in labels
    ensures forall i :: 0 <= i < |labels| ==> labels[i] in KindsOf(filtered)
    ensures ValuesSum(values) == |filtered|
  {
    var messageTypes;
    labels, messageTypes := CountTypes(filtered);
    values := ValuesOf(labels, messageTypes);
    ValuesOfSum(labels, messageTypes);
  }

  function ValuesSum(values: seq<nat>): nat
  {
    if |values| == 0 then 0 else ValuesSum(values[..|values| - 1]) + values[|values| - 1]
  }

  datatype Stats = Stats(total: nat, incoming: nat, outgoing: nat)

  /** The counts `updateStats` shows. */
  function UpdateStats(filtered: seq<Message>): (r: Stats)
    ensures r.total == |filtered|
    ensures r.incoming + r.outgoing <= r.total
  {
    DirectionsDisjoint(filtered);
    Stats(|filtered|, CountDirection(filtered, "incoming"), CountDirection(filtered, "outgoing"))
  }

  /** No message is both incoming and outgoing. */
  lemma {:induction false} DirectionsDisjoint(msgs: seq<Message>)
    ensures CountDirection(msgs, "incoming") + CountDirection(msgs, "outgoing") <= |msgs|
  {
    if |msgs| > 0 {
      DirectionsDisjoint(msgs[..|msgs| - 1]);
    }
  }

  /** The dashboard page state. */
  class DashboardState {
    var messages: seq<Message>
    var filteredMessages: seq<Message>
    var currentPage: int
    var itemsPerPage: nat
    var filters: Filters

    constructor ()
      ensures messages == [] && filteredMessages == [] && currentPage == 1 && itemsPerPage == 25
      ensures filters == DefaultFilters
    {
      messages := [];
      filteredMessages := [];
      currentPage := 1;
      itemsPerPage := 25;
      filters := DefaultFilters;
    }

    /** `applyFilters()`. */
    method ApplyCurrentFilters()
      modifies this
      ensures filteredMessages == ApplyFilters(filters, messages)
      ensures messages == old(messages) && filters == old(filters)
      ensures currentPage == old(currentPage) && itemsPerPage == old(itemsPerPage)
    {
      filteredMessages := ApplyFilters(filters, messages);
    }

    /** `loadDashboardData()` with the decoded storage values, followed by the filtering of `updateDashboard`. */
    method LoadDashboardData(items: seq<Option<Message>>)
      modifies this
      ensures messages == Load(items)
      ensures filteredMessages == ApplyFilters(filters, messages)
      ensures filters == old(filters) && currentPage == old(currentPage) && itemsPerPage == old(itemsPerPage)
    {
      messages := Load(items);
      ApplyCurrentFilters();
    }
  }
}
