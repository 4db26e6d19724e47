/**
 * The messages chat nodes exchange over the overlay: a private message, a
 * channel message (owner to one subscriber), a channel broadcast (subscriber
 * to owner) and a channel administration message (join/leave protocol).
 */
module Messages {
  import opened Ids

  /** The overlay's priority scale: lower values are scheduled first. */
  const DefaultPriority: int := 0
  const LowPriority: int := 10

  /** Direct node-to-node text message. */
  datatype PrivateMsg = PrivateMsg(from: Id, fromName: string, to: Id, toName: string, text: string)

  /** A channel's text, carried from the channel owner to one subscriber. */
  datatype ChannelMsg = ChannelMsg(
    from: Id, fromName: string, to: Id, toName: string,
    channelId: Id, channelName: string, text: string)
  {
    function Priority(): int
    {
      LowPriority
    }

    /** The log rendering; `show` is the overlay's rendering of an identifier. */
    function ToString(show: Id -> string): (r: string)
      ensures StartsWith(r, "ChannelMsg from " + fromName + " (")
      ensures EndsWith(r, "): " + text)
      ensures exists u, v :: r == "ChannelMsg from " + fromName + " (" + u + ") to " + toName + " (" + v + "): " + text
    {
      var r := "ChannelMsg from " + fromName + " (" + show(from) + ") to " + toName + " (" + show(to) + "): " + text;
      assert r == "ChannelMsg from " + fromName + " (" + (show(from) + ") to " + toName + " (" + show(to)) + ("): " + text);
      r
    }
  }

  /** A subscriber's text, sent to the channel owner for fan-out. */
  datatype ChannelBroadcastMsg = ChannelBroadcastMsg(
    clientId: Id, clientName: string, channelId: Id, channelName: string, text: string)
  {
    function Priority(): int
    {
      LowPriority
    }

    function ToString(show: Id -> string): (r: string)
      ensures StartsWith(r, "ChannelBroadcastMsg from " + clientName + " (")
      ensures EndsWith(r, "): " + text)
      ensures exists u, v :: r == "ChannelBroadcastMsg from " + clientName + " (" + u + ") to " + channelName + " (" + v + "): " + text
    {
      var r := "ChannelBroadcastMsg from " + clientName + " (" + show(clientId) + ") to " + channelName + " (" + show(channelId) + "): " + text;
      assert r == "ChannelBroadcastMsg from " + clientName + " (" + (show(clientId) + ") to " + channelName + " (" + show(channelId)) + ("): " + text);
      r
    }
  }

  /** Action types and phases of the membership protocol. */
  const ActionTypeJoin: string := "join"
  const ActionTypeLeave: string := "leave"
  const ActionPhaseRequest: string := "request"
  const ActionPhaseAccepted: string := "accepted"

  /** The four protocol constants are pairwise distinct. */
  lemma ActionConstantsDistinct()
    ensures ActionTypeJoin != ActionTypeLeave
    ensures ActionPhaseRequest != ActionPhaseAccepted
    ensures {ActionTypeJoin, ActionTypeLeave} !! {ActionPhaseRequest, ActionPhaseAccepted}
  {
    assert ActionTypeJoin[0] == 'j' && ActionTypeLeave[0] == 'l';
    assert ActionPhaseRequest[0] == 'r' && ActionPhaseAccepted[0] == 'a';
  }

  /**
   * A membership request or its acceptance. Everything but the phase is fixed
   * at construction; the owner flips the phase from request to accepted in place.
   */
  class ChannelAdminMsg {
    const clientId: Id
    const clientName: string
    const channelId: Id
    const channelName: string
    const actionType: string
    var actionPhase: string

    constructor (clientId: Id, clientName: string, channelId: Id, channelName: string,
                 actionType: string, actionPhase: string)
      ensures this.clientId == clientId && this.clientName == clientName
      ensures this.channelId == channelId && this.channelName == channelName
      ensures this.actionType == actionType && this.actionPhase == actionPhase
    {
      this.clientId := clientId;
      this.clientName := clientName;
      this.channelId := channelId;
      this.channelName := channelName;
      this.actionType := actionType;
      this.actionPhase := actionPhase;
    }

    /** Replaces the phase; the other five fields are constants and stay as they were. */
    method SetActionPhase(actionPhase: string)
      modifies this`actionPhase
      ensures this.actionPhase == actionPhase
    {
      this.actionPhase := actionPhase;
    }

    function Priority(): int
    {
      LowPriority
    }

    function ToString(show: Id -> string): (r: string)
      reads this
      ensures StartsWith(r, "ChannelAdminMsg from " + clientName + " (")
      ensures EndsWith(r, "): " + actionType + " " + actionPhase)
      ensures exists u, v :: r == "ChannelAdminMsg from " + clientName + " (" + u + ") to " + channelName + " (" + v + "): " + actionType + " " + actionPhase
    {
      var r := "ChannelAdminMsg from " + clientName + " (" + show(clientId) + ") to " + channelName + " (" + show(channelId) + "): " + actionType + " " + actionPhase;
      assert r == "ChannelAdminMsg from " + clientName + " (" + (show(clientId) + ") to " + channelName + " (" + show(channelId)) + ("): " + actionType + " " + actionPhase);
      r
    }
  }

  /** Every message a node can be handed; `Foreign` is any other message kind on the overlay. */
  datatype Message =
    | Private(p: PrivateMsg)
    | Channel(c: ChannelMsg)
    | Broadcast(b: ChannelBroadcastMsg)
    | Admin(a: ChannelAdminMsg)
    | Foreign
  {
    /** The objects a handler may update while processing this message. */
    function Objects(): set<object>
    {
      if Admin? then {a} else {}
    }
  }

  predicate StartsWith(s: string, prefix: string)
  {
    |prefix| <= |s| && s[..|prefix|] == prefix
  }

  predicate EndsWith(s: string, suffix: string)
  {
    |suffix| <= |s| && s[|s| - |suffix|..] == suffix
  }

  /** Channel traffic of every kind yields to the overlay's default-priority maintenance traffic. */
  lemma ChannelTrafficYields(c: ChannelMsg, b: ChannelBroadcastMsg, a: ChannelAdminMsg)
    ensures c.Priority() == b.Priority() == a.Priority() == LowPriority
    ensures LowPriority > DefaultPriority
  {
  }

  /** Log lines name the kind of message they describe, so the three renderings never coincide. */
  lemma RenderingsNameTheirKind(c: ChannelMsg, b: ChannelBroadcastMsg, a: ChannelAdminMsg, show: Id -> string)
    ensures c.ToString(show) != b.ToString(show)
    ensures b.ToString(show) != a.ToString(show)
    ensures a.ToString(show) != c.ToString(show)
  {
    var pc := "ChannelMsg from " + c.fromName + " (";
    var pb := "ChannelBroadcastMsg from " + b.clientName + " (";
    var pa := "ChannelAdminMsg from " + a.clientName + " (";
    assert pc[7] == 'M' && pb[7] == 'B' && pa[7] == 'A';
    assert c.ToString(show)[7] == pc[7];
    assert b.ToString(show)[7] == pb[7];
    assert a.ToString(show)[7] == pa[7];
  }
}
