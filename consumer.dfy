/** The WebSocket consumer of one connection to a lecture's progress stream:
    it joins the lecture's group on connect, leaves it on disconnect, relays
    well-formed client messages to the group and forwards group messages to
    its client. */
module Consumer {
  import opened Text
  import opened Json
  import opened ChannelLayer
  import Tasks
  import Routing

  const GroupPrefix := "lecture_"

  /** Close codes of a refused connection. */
  const MissingId := 4001
  const ConnectFailed := 4000

  const InvalidJson := "Invalid JSON format."
  const InternalError := "Internal server error."
  const MissingEvent := "Missing 'event' field in message."

  /** The group a consumer joins for the lecture id it was routed with. */
  function GroupName(lectureId: string): string {
    GroupPrefix + lectureId
  }

  /** The frame `send_error` sends. */
  function ErrorFrame(message: string): Value {
    Dict2("event", Str("error"), "data", Dict1("message", Str(message)))
  }

  // ---------------------------------------------------------------------------
  // Inputs
  // ---------------------------------------------------------------------------

  /** The part of the connection scope `connect` reads: the route's keyword
      arguments and whether an authentication middleware put a user there. */
  datatype Scope = Scope(kwargs: map<string, string>, hasUser: bool)

  /** What can fail in the channel layer or the socket during `connect`. */
  datatype ConnectFault = NoFault | GroupAddFails | AcceptFails

  /** `json.loads(text_data)` either fails or yields a value. */
  datatype Parse = Invalid | Parsed(json: Value)

  /** An inbound text frame: absent, or some text with its decoding. */
  datatype Inbound = NoText | Text(raw: string, parse: Parse)

  // ---------------------------------------------------------------------------
  // The decision `receive` makes about one frame
  // ---------------------------------------------------------------------------

  datatype Reaction = Ignore | Reply(message: string) | Relay(event: Value, data: Value)

  /** What `receive` does with a frame, before it touches the channel layer. */
  function React(frame: Inbound): (r: Reaction)
    ensures r == Ignore <==> frame.NoText? || frame.raw == ""
    ensures r == Reply(InvalidJson) <==> frame.Text? && frame.raw != "" && frame.parse.Invalid?
    ensures r == Reply(InternalError) <==>
      frame.Text? && frame.raw != "" && frame.parse.Parsed? && !frame.parse.json.Obj?
    ensures r == Reply(MissingEvent) <==>
      && frame.Text? && frame.raw != "" && frame.parse.Parsed? && frame.parse.json.Obj?
      && !("event" in frame.parse.json.fields && Truthy(frame.parse.json.fields["event"]))
    ensures r.Relay? <==>
      && frame.Text? && frame.raw != "" && frame.parse.Parsed? && frame.parse.json.Obj?
      && "event" in frame.parse.json.fields && Truthy(frame.parse.json.fields["event"])
    ensures r.Relay? ==>
      && r.event == frame.parse.json.fields["event"]
      && r.data == (if "data" in frame.parse.json.fields then frame.parse.json.fields["data"] else Null)
  {
    match frame
    case NoText => Ignore
    case Text(raw, parse) =>
      if raw == "" then Ignore
      else
        match parse
        case Invalid => Reply(InvalidJson)
        case Parsed(data) =>
          match Get(data, "event", Null)
          case Err(_) => Reply(InternalError)
          case Ok(event) =>
            var payload := Get(data, "data", Null).value;
            if !Truthy(event) then Reply(MissingEvent) else Relay(event, payload)
  }

  /** The frame `send_event` makes of a group message: its `event` and `data`
      (`None` when absent), without the `type` the layer dispatches on; nothing
      when the message is not a dict. */
  function ClientFrame(message: Value): (r: Option<Value>)
    ensures r.Some? <==> message.Obj?
    ensures r.Some? ==> r.value.Obj? && r.value.keys == ["event", "data"] && "type" !in r.value.fields
    ensures r.Some? ==> r.value == Dict2("event", Tasks.Field(message, "event"), "data", Tasks.Field(message, "data"))
  {
    if message.Obj? then
      Some(Dict2("event", Get(message, "event", Null).value, "data", Get(message, "data", Null).value))
    else None
  }

  // ---------------------------------------------------------------------------
  // The consumer
  // ---------------------------------------------------------------------------

  class LectureConsumer {
    /** `self.channel_name`, and the channel layer this connection is registered with. */
    const channel: string
    const layer: Layer
    /** `self.lecture_id`; `None` until `connect` reads the route. */
    var lectureId: Option<string>
    /** `self.group_name`; `None` while the attribute has not been assigned. */
    var groupName: Option<string>
    var accepted: bool
    /** The code of the `close` the consumer asked for, if any. */
    var closeCode: Option<int>
    /** Frames sent to the client, in order. */
    var outbox: seq<Value>

    constructor (channel: string, layer: Layer)
      ensures this.channel == channel && this.layer == layer
      ensures lectureId == None && groupName == None && !accepted && closeCode == None && outbox == []
    {
      this.channel := channel;
      this.layer := layer;
      lectureId := None;
      groupName := None;
      accepted := false;
      closeCode := None;
      outbox := [];
    }

    /** `connect()`: refuses a connection without an id with 4001; otherwise
        joins the id's group and then accepts. A failure on the way closes with
        4000 without accepting; a failed accept leaves the channel in the group. */
    method Connect(scope: Scope, fault: ConnectFault)
      modifies this, layer
      ensures outbox == old(outbox) && layer.sent == old(layer.sent)
      ensures lectureId == (if "lecture_id" in scope.kwargs then Some(scope.kwargs["lecture_id"]) else None)
      ensures lectureId.None? || lectureId.value == "" ==>
        && closeCode == Some(MissingId) && accepted == old(accepted)
        && groupName == old(groupName) && layer.groups == old(layer.groups)
      ensures lectureId.Some? && lectureId.value != "" ==>
        && groupName == Some(GroupName(lectureId.value))
        && accepted == (old(accepted) || (scope.hasUser && fault.NoFault?))
        && closeCode == (if scope.hasUser && fault.NoFault? then old(closeCode) else Some(ConnectFailed))
        && layer.groups == (if scope.hasUser && !fault.GroupAddFails?
                            then old(layer.groups)[GroupName(lectureId.value) := old(layer.Members(GroupName(scope.kwargs["lecture_id"]))) + {channel}]
                            else old(layer.groups))
    {
      lectureId := if "lecture_id" in scope.kwargs then Some(scope.kwargs["lecture_id"]) else None;
      if lectureId.None? || lectureId.value == "" {
        closeCode := Some(MissingId);
        return;
      }
      groupName := Some(GroupName(lectureId.value));
      if !scope.hasUser {
        // `user.is_authenticated` on `None` raises before the group is joined.
        closeCode := Some(ConnectFailed);
        return;
      }
      if fault.GroupAddFails? {
        closeCode := Some(ConnectFailed);
        return;
      }
      layer.GroupAdd(groupName.value, channel);
      if fault.AcceptFails? {
        closeCode := Some(ConnectFailed);
        return;
      }
      accepted := true;
    }

    /** `disconnect(close_code)`: leaves the group; an unassigned group name or
        a failing layer is only logged, so it never raises. */
    method Disconnect(closeCode: int, layerFails: bool)
      modifies layer
      ensures layer.sent == old(layer.sent)
      ensures layer.groups == (if groupName.Some? && !layerFails
                               then old(layer.groups)[groupName.value := old(layer.Members(groupName.value)) - {channel}]
                               else old(layer.groups))
    {
      if groupName.Some? && !layerFails {
        layer.GroupDiscard(groupName.value, channel);
      }
    }

    /** `receive(text_data)`: ignores an empty frame, answers a malformed one
        with one error frame, and relays a well-formed one to the group with a
        single `group_send`. A relay that cannot reach the group is answered
        with the internal-error frame. */
    method Receive(frame: Inbound, layerFails: bool)
      modifies this, layer
      ensures layer.groups == old(layer.groups)
      ensures lectureId == old(lectureId) && groupName == old(groupName)
      ensures accepted == old(accepted) && closeCode == old(closeCode)
      ensures match React(frame)
        case Ignore => outbox == old(outbox) && layer.sent == old(layer.sent)
        case Reply(m) => outbox == old(outbox) + [ErrorFrame(m)] && layer.sent == old(layer.sent)
        case Relay(e, d) =>
          if groupName.Some? && !layerFails then
            outbox == old(outbox) && layer.sent == old(layer.sent) + [Sent(groupName.value, SendEventMessage(e, d))]
          else
            outbox == old(outbox) + [ErrorFrame(InternalError)] && layer.sent == old(layer.sent)
    {
      match React(frame)
      case Ignore =>
      case Reply(m) =>
        SendError(m);
      case Relay(e, d) =>
        if groupName.Some? && !layerFails {
          layer.GroupSend(groupName.value, SendEventMessage(e, d));
        } else {
          SendError(InternalError);
        }
    }

    /** `send_event(event)`: forwards a group message to the client. A message
        that is not a dict, or a send that fails, is only logged. */
    method SendEvent(message: Value, sendFails: bool)
      modifies this
      ensures lectureId == old(lectureId) && groupName == old(groupName)
      ensures accepted == old(accepted) && closeCode == old(closeCode)
      ensures outbox == (if ClientFrame(message).Some? && !sendFails then old(outbox) + [ClientFrame(message).value] else old(outbox))
    {
      var frame := ClientFrame(message);
      if frame.Some? && !sendFails {
        outbox := outbox + [frame.value];
      }
    }

    /** `send_error(message)` */
    method SendError(message: string)
      modifies this
      ensures lectureId == old(lectureId) && groupName == old(groupName)
      ensures accepted == old(accepted) && closeCode == old(closeCode)
      ensures outbox == old(outbox) + [ErrorFrame(message)]
    {
      outbox := outbox + [ErrorFrame(message)];
    }
  }

  // ---------------------------------------------------------------------------
  // How the consumer fits the route and the jobs
  // ---------------------------------------------------------------------------

  /** A consumer routed for lecture `n`'s path joins exactly the group the
      jobs of lecture `n` publish to. */
  lemma RoutedConsumerJoinsJobGroup(n: nat)
    ensures Routing.LectureId(Routing.RoutePrefix + NatText(n) + "/") == Some(NatText(n))
    ensures GroupName(NatText(n)) == Tasks.Group(n)
  {
    Routing.LecturePathRoutes(n);
  }

  /** A consumer hears lecture `n`'s jobs iff its id is `n`'s canonical
      decimal: an id with a leading zero (the route accepts "007") names a
      group no job publishes to. */
  lemma GroupIsJobGroup(lectureId: string, n: nat)
    ensures GroupName(lectureId) == Tasks.Group(n) <==> lectureId == NatText(n)
  {
    if GroupName(lectureId) == Tasks.Group(n) {
      assert lectureId == GroupName(lectureId)[|GroupPrefix|..];
      assert NatText(n) == Tasks.Group(n)[|GroupPrefix|..];
    }
  }

  /** The 4001 refusal cannot happen to a connection that came through the
      route: the captured id is never empty. */
  lemma RoutedIdIsNeverRefused(path: string)
    requires Routing.LectureId(path).Some?
    ensures Routing.LectureId(path).value != ""
  {
  }

  /** What a job publishes reaches every client of the lecture as
      `{"event": ..., "data": ...}`: the layer's `type` is dropped, and the
      frame has no top-level `status`. */
  lemma PublishedFrame(e: Tasks.Effect)
    requires e.Published?
    ensures ClientFrame(Tasks.Message(e).message) == Some(Dict2("event", Str(e.event), "data", e.data))
    ensures "status" !in ClientFrame(Tasks.Message(e).message).value.fields
  {
  }

  /** A relayed client message comes back to the members of the group as the
      `event` and `data` the client sent. */
  lemma RelayEchoes(frame: Inbound)
    requires React(frame).Relay?
    ensures ClientFrame(SendEventMessage(React(frame).event, React(frame).data))
            == Some(Dict2("event", React(frame).event, "data", React(frame).data))
  {
  }
}
