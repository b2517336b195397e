/**
 * The socket relays of the server (app.py): call signals routed to the
 * receiver's personal room or to the call's room, the WebRTC offer, answer
 * and ICE messages relayed to the room they name, and chat messages relayed
 * to their room with a broadcast delivery notice.
 *
 * A handler takes the event's JSON payload and gives the emits it makes, in
 * order. A handler that raises (a missing key, indexing something that is
 * not a dict) has made the emits before the failing line and no more.
 * The receipt handlers message_delivered and message_read update the
 * messages table and are modelled there (Messages.MessageTable.AckDelivered
 * and AckRead).
 */
module Relay {
  import opened Wrappers
  import opened Text
  import WebRTC

  /** A JSON value as the server receives it. */
  datatype Value =
    | Null
    | Bool(b: bool)
    | Num(n: int)
    | Str(s: string)
    | Obj(fields: map<string, Value>)
    | Other(text: string)   // an array or a non-integral number, with the text str() gives it

  /**
   * How an f-string renders a value: Python's str(). A dict is rendered by
   * its repr, which the model does not spell out (None).
   */
  function PyStr(v: Value): (r: Option<string>)
    ensures r.None? <==> v.Obj?
    ensures v.Num? ==> r == Some(IntToString(v.n))
    ensures v.Null? ==> r == Some("None")
  {
    match v
    case Null => Some("None")
    case Bool(b) => Some(if b then "True" else "False")
    case Num(n) => Some(IntToString(n))
    case Str(s) => Some(s)
    case Obj(_) => None
    case Other(text) => Some(text)
  }

  /**
   * One emit: the event, its payload, the room it goes to (None: every
   * connected client) and whether the client that sent the triggering event
   * is left out (`include_self=False`).
   */
  datatype Delivery = Delivery(event: string, payload: Value, room: Option<Value>, skipSender: bool)

  /** A dict with at least one key: what survives `if not data or not isinstance(data, dict)`. */
  predicate NonEmptyDict(data: Value)
  {
    data.Obj? && data.fields != map[]
  }

  /**
   * handle_call_signal: a signal naming a receiver goes to `user_<receiver_id>`,
   * else one naming a room goes to that room; either way only when it has a
   * `type`, and never back to its sender. Anything else is dropped.
   */
  function CallSignalRoute(data: Value): (r: seq<Delivery>)
    ensures |r| <= 1
    ensures r != [] ==> r[0].event == "call_signal" && r[0].payload == data && r[0].skipSender
    ensures r != [] <==>
      && NonEmptyDict(data) && "type" in data.fields
      && (if "receiver_id" in data.fields then !data.fields["receiver_id"].Obj? else "room" in data.fields)
    ensures r != [] && "receiver_id" in data.fields ==>
      r[0].room == Some(Str("user_" + PyStr(data.fields["receiver_id"]).value))
    ensures r != [] && "receiver_id" !in data.fields ==> r[0].room == Some(data.fields["room"])
  {
    if !NonEmptyDict(data) then []
    else
      var f := data.fields;
      if "receiver_id" in f && "type" in f then
        match PyStr(f["receiver_id"])
        case Some(id) => [Delivery("call_signal", data, Some(Str("user_" + id)), true)]
        case None => []
      else if "room" in f && "type" in f then
        [Delivery("call_signal", data, Some(f["room"]), true)]
      else []
  }

  /** handle_webrtc_offer, handle_webrtc_answer, handle_webrtc_ice: the payload, unchanged, to `data['room']`. */
  function RelayToRoom(event: string, data: Value): (r: seq<Delivery>)
    ensures r != [] <==> data.Obj? && "room" in data.fields
    ensures r != [] ==> r == [Delivery(event, data, Some(data.fields["room"]), true)]
  {
    if data.Obj? && "room" in data.fields then [Delivery(event, data, Some(data.fields["room"]), true)] else []
  }

  /**
   * handle_message: the payload to its room, then, when it carries a message
   * dict with an `id`, a `message_delivered` notice with that id to every
   * client. (A `message` that is not a dict makes the `'id' in` test or the
   * indexing after it raise, or fail: no notice either way.)
   */
  function HandleMessage(data: Value): (r: seq<Delivery>)
    ensures r == [] <==> !(data.Obj? && "room" in data.fields)
    ensures r != [] ==> r[0] == Delivery("receive_message", data, Some(data.fields["room"]), true)
    ensures |r| == 2 <==>
      && data.Obj? && "room" in data.fields && "message" in data.fields
      && data.fields["message"].Obj? && "id" in data.fields["message"].fields
    ensures |r| == 2 ==>
      r[1] == Delivery("message_delivered", Obj(map["message_id" := data.fields["message"].fields["id"]]), None, false)
    ensures |r| <= 2
  {
    if !(data.Obj? && "room" in data.fields) then []
    else
      var relay := Delivery("receive_message", data, Some(data.fields["room"]), true);
      if "message" in data.fields && data.fields["message"].Obj? && "id" in data.fields["message"].fields then
        var notice := Obj(map["message_id" := data.fields["message"].fields["id"]]);
        [relay, Delivery("message_delivered", notice, None, false)]
      else [relay]
  }

  /** The server's dispatch over the relaying events; other events are not part of this model. */
  function Dispatch(event: string, data: Value): seq<Delivery>
  {
    if event == "call_signal" then CallSignalRoute(data)
    else if event in {"webrtc_offer", "webrtc_answer", "webrtc_ice"} then RelayToRoom(event, data)
    else if event == "send_message" then HandleMessage(data)
    else []
  }

  // -------------------------------------------- what the call manager sends

  /** A JavaScript number or null as it arrives. */
  function IdValue(id: Option<int>): Value
  {
    if id.Some? then Num(id.value) else Null
  }

  /** The payload webrtc.js builds for each call signal. */
  function SignalPayload(s: WebRTC.Signal): Value
  {
    match s
    case CallInitiated(callId, receiverId, caller, callType) =>
      Obj(map["type" := Str("call_initiated"), "call_id" := IdValue(callId), "receiver_id" := IdValue(receiverId),
              "caller" := IdValue(caller), "call_type" := Str(callType)])
    case CallAnswered(callId, room) =>
      Obj(map["type" := Str("call_answered"), "call_id" := IdValue(callId), "room" := Str(room)])
    case CallEnded(callId, duration, room) =>
      Obj(map["type" := Str("call_ended"), "call_id" := IdValue(callId), "duration" := Num(duration), "room" := Str(room)])
    case CallRejected(callId, room) =>
      Obj(map["type" := Str("call_rejected"), "call_id" := IdValue(callId), "room" := Str(room)])
    case CallModeChanged(callId, newMode, room) =>
      Obj(map["type" := Str("call_mode_changed"), "call_id" := IdValue(callId), "new_mode" := Str(newMode), "room" := Str(room)])
    case UnknownSignal(name) =>
      Obj(map["type" := Str(name)])
  }

  /** The event name and payload of each socket emit of the call manager. */
  function Outbound(e: WebRTC.Emission): (string, Value)
  {
    match e
    case JoinRoom(room) => ("join_room", Obj(map["room" := Str(room)]))
    case SendSignal(s) => ("call_signal", SignalPayload(s))
    case SendOffer(room) => ("webrtc_offer", Obj(map["offer" := Other("offer"), "room" := Str(room)]))
    case SendAnswer(room) => ("webrtc_answer", Obj(map["answer" := Other("answer"), "room" := Str(room)]))
    case SendIce(candidate, room) => ("webrtc_ice", Obj(map["candidate" := Str(candidate), "room" := Str(room)]))
  }

  /** Where a call signal is meant to arrive: the callee's personal room for a new call, the call's room after that. */
  function Destination(s: WebRTC.Signal): Value
    requires !s.UnknownSignal?
  {
    if s.CallInitiated? then
      Str("user_" + (if s.receiverId.Some? then IntToString(s.receiverId.value) else "None"))
    else Str(s.room)
  }

  /**
   * Every call signal the manager sends reaches exactly its destination,
   * once, unchanged and not echoed to the sender; every offer, answer and
   * ICE candidate reaches the call room it names.
   */
  lemma ManagerEmitsAreRouted(e: WebRTC.Emission)
    requires e.SendSignal? ==> !e.signal.UnknownSignal?
    ensures e.SendSignal? ==>
      Dispatch(Outbound(e).0, Outbound(e).1) == [Delivery("call_signal", SignalPayload(e.signal), Some(Destination(e.signal)), true)]
    ensures e.SendOffer? || e.SendAnswer? || e.SendIce? ==>
      Dispatch(Outbound(e).0, Outbound(e).1) == [Delivery(Outbound(e).0, Outbound(e).1, Some(Str(e.room)), true)]
  {
    if e.SendSignal? {
      var p := SignalPayload(e.signal);
      assert "type" in p.fields;
      if e.signal.CallInitiated? {
        assert "receiver_id" in p.fields;
      } else {
        assert "receiver_id" !in p.fields && "room" in p.fields;
      }
    }
  }

  /** A personal room and a call room never coincide, so a call invitation cannot leak into a call in progress. */
  lemma PersonalRoomIsNotCallRoom(user: Option<int>, call: Option<int>)
    ensures Str("user_" + (if user.Some? then IntToString(user.value) else "None")) != Str(WebRTC.CallRoom(call))
  {
    var u := "user_" + (if user.Some? then IntToString(user.value) else "None");
    assert u[0] == 'u' && WebRTC.CallRoom(call)[0] == 'c';
  }
}
