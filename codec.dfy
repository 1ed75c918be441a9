/**
 * The storage codec. The extension stores each captured record as
 * `btoa(JSON.stringify(record))` (`encryptData`) and reads it back with
 * `JSON.parse(atob(text))` (`decryptData`). The model replaces the text format by a
 * prefix token stream: each value is announced by a token, arrays and objects by
 * their length, and the round trip is proved here. The model's encoder is total;
 * `btoa` is not, since it throws on characters above U+00FF.
 */
module Codec {
  import opened Wrappers
  import opened Json

  datatype Tok =
    | TNull
    | TBool(b: bool)
    | TNum(n: int)
    | TStr(s: string)
    | TArr(len: nat)
    | TObj(len: nat)
    | TKey(k: string)

  /** `encryptData`: serialise a value. */
  function Encode(v: Json): seq<Tok>
    decreases v, 1
  {
    match v
    case JNull => [TNull]
    case JBool(b) => [TBool(b)]
    case JNum(n) => [TNum(n)]
    case JStr(s) => [TStr(s)]
    case JArr(items) => [TArr(|items|)] + EncodeItems(items)
    case JObj(fields) => [TObj(|fields|)] + EncodeFields(fields)
  }

  function EncodeItems(items: seq<Json>): seq<Tok>
    decreases items, 0
  {
    if |items| == 0 then [] else Encode(items[0]) + EncodeItems(items[1..])
  }

  function EncodeFields(fields: seq<Field>): seq<Tok>
    decreases fields, 0
  {
    if |fields| == 0 then []
    else [TKey(fields[0].key)] + Encode(fields[0].value) + EncodeFields(fields[1..])
  }

  /** Read one value from the front of `toks`; the rest is strictly shorter. */
  function DecodeValue(toks: seq<Tok>): (r: Option<(Json, seq<Tok>)>)
    ensures r.Some? ==> |r.value.1| < |toks|
    decreases |toks|, 0
  {
    if |toks| == 0 then None
    else
      match toks[0]
      case TNull => Some((JNull, toks[1..]))
      case TBool(b) => Some((JBool(b), toks[1..]))
      case TNum(n) => Some((JNum(n), toks[1..]))
      case TStr(s) => Some((JStr(s), toks[1..]))
      case TArr(n) =>
        (match DecodeItems(n, toks[1..])
         case None => None
         case Some((items, rest)) => Some((JArr(items), rest)))
      case TObj(n) =>
        (match DecodeFields(n, toks[1..])
         case None => None
         case Some((fields, rest)) => Some((JObj(fields), rest)))
      case TKey(_) => None
  }

  /** Read `n` values in a row. */
  function DecodeItems(n: nat, toks: seq<Tok>): (r: Option<(seq<Json>, seq<Tok>)>)
    ensures r.Some? ==> |r.value.1| <= |toks|
    decreases |toks|, 1, n
  {
    if n == 0 then Some(([], toks))
    else
      match DecodeValue(toks)
      case None => None
      case Some((v, rest)) =>
        match DecodeItems(n - 1, rest)
        case None => None
        case Some((vs, rest')) => Some(([v] + vs, rest'))
  }

  /** Read `n` key/value pairs in a row. */
  function DecodeFields(n: nat, toks: seq<Tok>): (r: Option<(seq<Field>, seq<Tok>)>)
    ensures r.Some? ==> |r.value.1| <= |toks|
    decreases |toks|, 1, n
  {
    if n == 0 then Some(([], toks))
    else if |toks| == 0 || !toks[0].TKey? then None
    else
      match DecodeValue(toks[1..])
      case None => None
      case Some((v, rest)) =>
        match DecodeFields(n - 1, rest)
        case None => None
        case Some((fs, rest')) => Some(([Field(toks[0].k, v)] + fs, rest'))
  }

  /** `decryptData`: the whole stream must be exactly one value; anything else is a decode error. */
  function Decode(toks: seq<Tok>): Option<Json>
  {
    match DecodeValue(toks)
    case Some((v, rest)) => if rest == [] then Some(v) else None
    case None => None
  }

  lemma {:induction false} DecodeValueEncode(v: Json, rest: seq<Tok>)
    ensures DecodeValue(Encode(v) + rest) == Some((v, rest))
    decreases v, 1
  {
    var t := Encode(v) + rest;
    match v
    case JNull => assert t[1..] == rest;
    case JBool(_) => assert t[1..] == rest;
    case JNum(_) => assert t[1..] == rest;
    case JStr(_) => assert t[1..] == rest;
    case JArr(items) =>
      assert t[0] == TArr(|items|);
      assert t[1..] == EncodeItems(items) + rest;
      DecodeItemsEncode(items, rest);
    case JObj(fields) =>
      assert t[0] == TObj(|fields|);
      assert t[1..] == EncodeFields(fields) + rest;
      DecodeFieldsEncode(fields, rest);
  }

  lemma {:induction false} DecodeItemsEncode(items: seq<Json>, rest: seq<Tok>)
    ensures DecodeItems(|items|, EncodeItems(items) + rest) == Some((items, rest))
    decreases items, 0
  {
    if |items| == 0 {
      assert EncodeItems(items) + rest == rest;
    } else {
      var tail := EncodeItems(items[1..]) + rest;
      var t := EncodeItems(items) + rest;
      assert t == Encode(items[0]) + tail;
      DecodeValueEncode(items[0], tail);
      assert DecodeValue(t) == Some((items[0], tail));
      DecodeItemsEncode(items[1..], rest);
      assert DecodeItems(|items| - 1, tail) == Some((items[1..], rest));
      assert [items[0]] + items[1..] == items;
    }
  }

  lemma {:induction false} DecodeFieldsEncode(fields: seq<Field>, rest: seq<Tok>)
    ensures DecodeFields(|fields|, EncodeFields(fields) + rest) == Some((fields, rest))
    decreases fields, 0
  {
    if |fields| == 0 {
      assert EncodeFields(fields) + rest == rest;
    } else {
      var tail := EncodeFields(fields[1..]) + rest;
      var t := EncodeFields(fields) + rest;
      EncodeFieldsFront(fields, rest);
      DecodeValueEncode(fields[0].value, tail);
      DecodeFieldsEncode(fields[1..], rest);
      DecodeFieldsFront(|fields|, t, fields[0].value, tail, fields[1..], rest);
      assert [Field(fields[0].key, fields[0].value)] + fields[1..] == fields;
    }
  }

  /** The encoding of a non-empty field list starts with the first key, then the first value. */
  lemma EncodeFieldsFront(fields: seq<Field>, rest: seq<Tok>)
    requires |fields| > 0
    ensures var t := EncodeFields(fields) + rest;
      && t[0] == TKey(fields[0].key)
      && t[1..] == Encode(fields[0].value) + (EncodeFields(fields[1..]) + rest)
  {
    var t := EncodeFields(fields) + rest;
    assert t == [TKey(fields[0].key)] + (Encode(fields[0].value) + (EncodeFields(fields[1..]) + rest));
  }

  /** One step of `DecodeFields`: a key, a value, and the remaining pairs. */
  lemma DecodeFieldsFront(n: nat, t: seq<Tok>, v: Json, tail: seq<Tok>, fs: seq<Field>, rest: seq<Tok>)
    requires n > 0 && |t| > 0 && t[0].TKey?
    requires DecodeValue(t[1..]) == Some((v, tail))
    requires DecodeFields(n - 1, tail) == Some((fs, rest))
    ensures DecodeFields(n, t) == Some(([Field(t[0].k, v)] + fs, rest))
  {
  }

  /** Round trip: what `encryptData` stores, `decryptData` gives back unchanged. */
  lemma RoundTrip(v: Json)
    ensures Decode(Encode(v)) == Some(v)
  {
    DecodeValueEncode(v, []);
    assert Encode(v) + [] == Encode(v);
  }
}
