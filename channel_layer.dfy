/** The channel layer both the jobs and the WebSocket consumers talk to,
    reduced to what the code relies on: which channels belong to which group,
    and the messages sent to groups, in order. */
module ChannelLayer {
  import opened Json

  /** The message `group_send` carries so that every consumer in the group runs
      its `send_event` handler: `{"type": "send_event", "event": ..., "data": ...}`. */
  function SendEventMessage(event: Value, data: Value): Value {
    Dict3("type", Str("send_event"), "event", event, "data", data)
  }

  datatype Sent = Sent(group: string, message: Value)

  class Layer {
    ghost var groups: map<string, set<string>>
    ghost var sent: seq<Sent>

    ghost function Members(group: string): set<string>
      reads this
    {
      if group in groups then groups[group] else {}
    }

    constructor ()
      ensures groups == map[] && sent == []
    {
      groups := map[];
      sent := [];
    }

    /** `group_add(group, channel)` */
    method GroupAdd(group: string, channel: string)
      modifies this
      ensures groups == old(groups)[group := old(Members(group)) + {channel}]
      ensures sent == old(sent)
    {
      groups := groups[group := Members(group) + {channel}];
    }

    /** `group_discard(group, channel)`: removing an absent channel is a no-op. */
    method GroupDiscard(group: string, channel: string)
      modifies this
      ensures groups == old(groups)[group := old(Members(group)) - {channel}]
      ensures sent == old(sent)
    {
      groups := groups[group := Members(group) - {channel}];
    }

    /** `group_send(group, message)`: delivered to the group's members at this point. */
    method GroupSend(group: string, message: Value)
      modifies this
      ensures sent == old(sent) + [Sent(group, message)]
      ensures groups == old(groups)
    {
      sent := sent + [Sent(group, message)];
    }
  }
}
