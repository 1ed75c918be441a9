/**
 * The packet parser of `src/lib/mqtt-packet.js`: a parser object holding one
 * callback, a JSON-or-raw fallback, and a total classification of the decoded
 * value into a typed packet with defaulted fields.
 */
module Packet {
  import opened Wrappers
  import opened Json

  /** The `data` part of a packet, one variant per recognised input type. */
  datatype Body =
    | ChatMessage(sender: Json, content: Json, timestamp: Json)
    | PresenceUpdate(user: Json, status: Json, timestamp: Json)
    | ContactUpdate(contactId: Json, name: Json, status: Json, timestamp: Json)
    | NoBody

  /** A processed packet; `timestamp` is the processing time. */
  datatype Packet = Packet(body: Body, timestamp: int)

  /** The packet's `type` string. */
  function TypeName(b: Body): string
  {
    match b
    case ChatMessage(_, _, _) => "chat_message"
    case PresenceUpdate(_, _, _) => "presence_update"
    case ContactUpdate(_, _, _, _) => "contact_update"
    case NoBody => "unknown"
  }

  /** The packet's `data` object, with the fields in the order the parser writes them. */
  function BodyJson(b: Body): Json
  {
    match b
    case ChatMessage(s, c, t) =>
      JObj([Field("sender", s), Field("content", c), Field("timestamp", t)])
    case PresenceUpdate(u, s, t) =>
      JObj([Field("user", u), Field("status", s), Field("timestamp", t)])
    case ContactUpdate(i, n, s, t) =>
      JObj([Field("contactId", i), Field("name", n), Field("status", s), Field("timestamp", t)])
    case NoBody => JObj([])
  }

  /** The packet as the JavaScript object handed to the callback. */
  function ToJson(p: Packet): Json
  {
    JObj([Field("type", JStr(TypeName(p.body))), Field("timestamp", JNum(p.timestamp)),
          Field("data", BodyJson(p.body))])
  }

  /**
   * `processWhatsAppData`. Reading `data.type` on `null` throws, which `parse`
   * catches, so a `null` input yields no packet. Every default is applied with
   * `||`, so a falsy field (an empty string, `0`, `false`, `null`) takes the default too.
   */
  function ProcessWhatsAppData(data: Json, now: int): (r: Option<Packet>)
    ensures r.None? <==> data == JNull
    ensures r.Some? ==> r.value.timestamp == now
    ensures r.Some? ==> (r.value.body.ChatMessage? <==> Get(data, "type") == Some(JStr("message")))
    ensures r.Some? ==> (r.value.body.PresenceUpdate? <==> Get(data, "type") == Some(JStr("presence")))
    ensures r.Some? ==> (r.value.body.ContactUpdate? <==> Get(data, "type") == Some(JStr("contact")))
    ensures r.Some? && r.value.body.ChatMessage? ==>
      && (r.value.body.sender == if Truthy(Get(data, "sender")) then Get(data, "sender").value else JStr("Unknown"))
      && (r.value.body.content == if Truthy(Get(data, "content")) then Get(data, "content").value else JStr(""))
    ensures r.Some? && r.value.body.PresenceUpdate? ==>
      && (r.value.body.user == if Truthy(Get(data, "user")) then Get(data, "user").value else JStr("Unknown"))
      && (r.value.body.status == if Truthy(Get(data, "status")) then Get(data, "status").value else JStr("unknown"))
    ensures r.Some? && r.value.body.ContactUpdate? ==>
      && (r.value.body.contactId == if Truthy(Get(data, "id")) then Get(data, "id").value else JStr(""))
      && (r.value.body.name == if Truthy(Get(data, "name")) then Get(data, "name").value else JStr(""))
      && (r.value.body.status == if Truthy(Get(data, "status")) then Get(data, "status").value else JStr(""))
    ensures r.Some? && !r.value.body.NoBody? ==>
      r.value.body.timestamp == if Truthy(Get(data, "timestamp")) then Get(data, "timestamp").value else JNum(now)
  {
    if data == JNull then None
    else
      var t := Get(data, "type");
      var stamp := Or(Get(data, "timestamp"), JNum(now));
      var body :=
        if t == Some(JStr("message")) then
          ChatMessage(Or(Get(data, "sender"), JStr("Unknown")), Or(Get(data, "content"), JStr("")), stamp)
        else if t == Some(JStr("presence")) then
          PresenceUpdate(Or(Get(data, "user"), JStr("Unknown")), Or(Get(data, "status"), JStr("unknown")), stamp)
        else if t == Some(JStr("contact")) then
          ContactUpdate(Or(Get(data, "id"), JStr("")), Or(Get(data, "name"), JStr("")),
                        Or(Get(data, "status"), JStr("")), stamp)
        else NoBody;
      Some(Packet(body, now))
  }

  /** The value `parse` classifies: the JSON reading of the text, or `{rawData: text}` when it is not JSON. */
  function ParseInput(text: string, parseJson: string -> Option<Json>): Json
  {
    match parseJson(text)
    case Some(v) => v
    case None => JObj([Field("rawData", JStr(text))])
  }

  /** What one `parse` call hands to its callback, if anything. */
  function ParsePacket(text: string, parseJson: string -> Option<Json>, now: int): Option<Packet>
  {
    ProcessWhatsAppData(ParseInput(text, parseJson), now)
  }

  /** Text that is not JSON always yields a packet (never the `null` failure), and its type is `'unknown'`. */
  lemma NonJsonIsUnknown(text: string, parseJson: string -> Option<Json>, now: int)
    requires parseJson(text).None?
    ensures ParsePacket(text, parseJson, now) == Some(Packet(NoBody, now))
  {
    var raw := [Field("rawData", JStr(text))];
    assert Lookup(raw, "type") == Lookup(raw[1..], "type") == None;
  }

  /** The packet `type` is one of four constants, and never falsy. */
  lemma TypeNameTruthy(b: Body)
    ensures TypeName(b) in {"chat_message", "presence_update", "contact_update", "unknown"}
    ensures Truthy(Some(JStr(TypeName(b))))
  {
  }

  /** Names a registered callback; two registrations with the same name are the same function. */
  type Handler = nat

  /** One invocation of the registered callback, with the packet it received. */
  datatype Delivery = Delivery(handler: Handler, packet: Json)

  /** The callback invocations one `parse` makes with a registered handler: one per packet produced. */
  function Deliveries(h: Handler, p: Option<Packet>): (r: seq<Delivery>)
    ensures |r| == if p.Some? then 1 else 0
    ensures p.Some? ==> r[0] == Delivery(h, ToJson(p.value))
  {
    match p
    case Some(packet) => [Delivery(h, ToJson(packet))]
    case None => []
  }

  /** The object returned by `mqtt.parser()`. */
  class Parser {
    /** `this.callback`; `None` until `on` is called (or when it is called with no function). */
    var callback: Option<Handler>
    /** Every callback invocation so far, oldest first. */
    var calls: seq<Delivery>

    constructor ()
      ensures callback == None && calls == []
    {
      callback := None;
      calls := [];
    }

    /** `on(event, callback)`: the event name is ignored and any previous callback is replaced. */
    method On(event: string, cb: Option<Handler>)
      modifies this
      ensures callback == cb
      ensures calls == old(calls)
    {
      callback := cb;
    }

    /** `parse(data)`: classify the text and call the callback once with the packet, if one is registered. */
    method Parse(text: string, parseJson: string -> Option<Json>, now: int)
      modifies this
      ensures callback == old(callback)
      ensures old(callback).None? ==> calls == old(calls)
      ensures old(callback).Some? ==>
                calls == old(calls) + Deliveries(old(callback).value, ParsePacket(text, parseJson, now))
    {
      var packet := ParsePacket(text, parseJson, now);
      if packet.Some? && callback.Some? {
        calls := calls + [Delivery(callback.value, ToJson(packet.value))];
      }
    }
  }
}
