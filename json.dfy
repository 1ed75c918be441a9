/**
 * JavaScript values as the capture pipeline handles them: the records that reach
 * `logCapturedData`, the packets of the packet parser and the objects kept in
 * extension storage. Numbers are integers: the pipeline's numbers are millisecond
 * timestamps, tab ids, counts and a day count for retention, and a fractional day
 * count is not modelled.
 */
module Json {
  import opened Wrappers

  datatype Json =
    | JNull
    | JBool(b: bool)
    | JNum(n: int)
    | JStr(s: string)
    | JArr(items: seq<Json>)
    | JObj(fields: seq<Field>)

  /** One own property of an object, in insertion order. */
  datatype Field = Field(key: string, value: Json)

  /** Property lookup in a field list: the first field with that key, `None` when absent. */
  function Lookup(fields: seq<Field>, k: string): Option<Json>
  {
    if |fields| == 0 then None
    else if fields[0].key == k then Some(fields[0].value)
    else Lookup(fields[1..], k)
  }

  /** The set of keys of a field list. */
  function Keys(fields: seq<Field>): set<string>
  {
    set i | 0 <= i < |fields| :: fields[i].key
  }

  /** `v.k`: only objects have the properties the pipeline reads; on any other value the result is `undefined`. */
  function Get(v: Json, k: string): Option<Json>
  {
    if v.JObj? then Lookup(v.fields, k) else None
  }

  /** JavaScript truthiness; `undefined`, `null`, `false`, `0` and `""` are falsy. */
  predicate Truthy(o: Option<Json>)
  {
    match o
    case None => false
    case Some(JNull) => false
    case Some(JBool(b)) => b
    case Some(JNum(n)) => n != 0
    case Some(JStr(s)) => s != ""
    case Some(JArr(_)) => true
    case Some(JObj(_)) => true
  }

  /** `a || d` with a possibly undefined left operand. */
  function Or(a: Option<Json>, d: Json): Json
  {
    if Truthy(a) then a.value else d
  }

  /** The own enumerable properties that `{...v}` copies (a string or array spread is not modelled: no fields). */
  function OwnFields(v: Json): seq<Field>
  {
    if v.JObj? then v.fields else []
  }

  /** The fields of `a`, each with its value replaced when `b` has the same key. */
  function Override(a: seq<Field>, b: seq<Field>): (r: seq<Field>)
    ensures |r| == |a|
    ensures forall i :: 0 <= i < |a| ==> r[i].key == a[i].key
  {
    if |a| == 0 then []
    else
      var v := match Lookup(b, a[0].key) { case Some(x) => x case None => a[0].value };
      [Field(a[0].key, v)] + Override(a[1..], b)
  }

  /** The fields of `b` whose key `a` does not have, in order. */
  function Missing(b: seq<Field>, a: seq<Field>): seq<Field>
  {
    if |b| == 0 then []
    else if Lookup(a, b[0].key).Some? then Missing(b[1..], a)
    else [b[0]] + Missing(b[1..], a)
  }

  /** Object spread `{...a, ...b}`: keys of `a` keep their position, new keys of `b` follow. */
  function Spread(a: seq<Field>, b: seq<Field>): seq<Field>
  {
    Override(a, b) + Missing(b, a)
  }

  lemma {:induction false} LookupSomeIffKey(fields: seq<Field>, k: string)
    ensures Lookup(fields, k).Some? <==> k in Keys(fields)
  {
    if |fields| > 0 {
      LookupSomeIffKey(fields[1..], k);
      assert Keys(fields) == {fields[0].key} + Keys(fields[1..]) by {
        forall x ensures x in Keys(fields) <==> x in {fields[0].key} + Keys(fields[1..]) {
          if x in Keys(fields) {
            var i :| 0 <= i < |fields| && fields[i].key == x;
            if i > 0 { assert fields[1..][i - 1].key == x; }
          }
          if x in Keys(fields[1..]) {
            var i :| 0 <= i < |fields[1..]| && fields[1..][i].key == x;
            assert fields[i + 1].key == x;
          }
        }
      }
    }
  }

  lemma {:induction false} LookupAppend(x: seq<Field>, y: seq<Field>, k: string)
    ensures Lookup(x + y, k) == if Lookup(x, k).Some? then Lookup(x, k) else Lookup(y, k)
  {
    if |x| > 0 {
      assert (x + y)[0] == x[0];
      assert (x + y)[1..] == x[1..] + y;
      LookupAppend(x[1..], y, k);
    } else {
      assert x + y == y;
    }
  }

  lemma {:induction false} LookupOverride(a: seq<Field>, b: seq<Field>, k: string)
    ensures Lookup(Override(a, b), k) ==
      if Lookup(a, k).None? then None
      else if Lookup(b, k).Some? then Lookup(b, k)
      else Lookup(a, k)
  {
    if |a| > 0 {
      LookupOverride(a[1..], b, k);
      assert Override(a, b)[1..] == Override(a[1..], b);
    }
  }

  lemma {:induction false} LookupMissing(b: seq<Field>, a: seq<Field>, k: string)
    requires Lookup(a, k).None?
    ensures Lookup(Missing(b, a), k) == Lookup(b, k)
  {
    if |b| > 0 {
      LookupMissing(b[1..], a, k);
      if Lookup(a, b[0].key).None? {
        assert ([b[0]] + Missing(b[1..], a))[1..] == Missing(b[1..], a);
      }
    }
  }

  /** Spread semantics: a key of `b` takes `b`'s value; any other key keeps `a`'s value (or stays absent). */
  lemma SpreadLookup(a: seq<Field>, b: seq<Field>, k: string)
    ensures Lookup(Spread(a, b), k) == if Lookup(b, k).Some? then Lookup(b, k) else Lookup(a, k)
  {
    LookupAppend(Override(a, b), Missing(b, a), k);
    LookupOverride(a, b, k);
    if Lookup(a, k).None? {
      LookupMissing(b, a, k);
    }
  }

  /** Spread keeps every key of either side and invents none. */
  lemma SpreadKeys(a: seq<Field>, b: seq<Field>)
    ensures Keys(Spread(a, b)) == Keys(a) + Keys(b)
  {
    forall k ensures k in Keys(Spread(a, b)) <==> k in Keys(a) + Keys(b) {
      SpreadLookup(a, b, k);
      LookupSomeIffKey(Spread(a, b), k);
      LookupSomeIffKey(a, k);
      LookupSomeIffKey(b, k);
    }
  }

  /**
   * Numeric coercion as `*` applies it: `null` is 0, booleans are 0 or 1, numbers are
   * themselves; `undefined` is NaN (`None`). Numeric strings and arrays are not
   * modelled and are treated as NaN.
   */
  function ToNumber(o: Option<Json>): Option<int>
  {
    match o
    case Some(JNull) => Some(0)
    case Some(JBool(b)) => Some(if b then 1 else 0)
    case Some(JNum(n)) => Some(n)
    case _ => None
  }

  /** `Math.min` on counts. */
  function Min(a: nat, b: nat): nat
  {
    if a < b then a else b
  }
}
