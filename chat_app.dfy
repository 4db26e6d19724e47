/**
 * The per-node chat handler: sends requests and messages, dispatches what the
 * overlay delivers (recipient filtering, broadcast fan-out, the join/leave
 * protocol) and interprets the user's command lines.
 *
 * The overlay's `route` is an append-only outbox, the replicated channel store
 * a map from identifiers to stored values, and the listener an event log.
 * A store lookup or insert that fails is an input flag; after a failed lookup
 * the followup does not run.
 */
module Chat {
  import opened Ids
  import opened Optional
  import opened Messages
  import opened Channels

  /** What the registered listener is told, in order. */
  datatype Event =
    | ChatAppSet
    | PrivateDelivered(p: PrivateMsg)
    | ChannelDelivered(c: ChannelMsg)
    | QuitCommand
    | Println(line: string)

  /** A message handed to the overlay: routed towards a key, or sent straight to a known node. */
  datatype Route =
    | Route(key: Id, msg: Message)
    | Direct(handle: Id, msg: Message)

  /** getClientId: a HashNodeIdFactory fed with the client's name generates the identifier. */
  method GetClientId(clientName: string) returns (id: Id)
    ensures id == HashNodeId(clientName)
  {
    var factory := new HashNodeIdFactory(clientName);
    id := factory.GenerateNodeId();
  }

  // ---------------------------------------------------------------------
  // Broadcast fan-out

  /** The channel message and route the owner produces for one member. */
  function FanOutRoute(b: ChannelBroadcastMsg, member: string): Route
  {
    var to := HashNodeId(member);
    Route(to, Channel(ChannelMsg(b.clientId, b.clientName, to, member, b.channelId, b.channelName, b.text)))
  }

  /** The routes of a broadcast to the members, visited in the given order. */
  function FanOut(b: ChannelBroadcastMsg, order: seq<string>): (rs: seq<Route>)
    ensures |rs| == |order|
    ensures forall i :: 0 <= i < |order| ==> rs[i] == FanOutRoute(b, order[i])
  {
    if order == [] then [] else FanOut(b, order[..|order| - 1]) + [FanOutRoute(b, order[|order| - 1])]
  }

  /** Visiting one more member appends that member's route. */
  lemma FanOutSnoc(b: ChannelBroadcastMsg, order: seq<string>, name: string)
    ensures FanOut(b, order + [name]) == FanOut(b, order) + [FanOutRoute(b, name)]
  {
    assert (order + [name])[..|order|] == order;
  }

  /** `order` lists every element of `s` exactly once. */
  ghost predicate Enumerates(order: seq<string>, s: set<string>)
  {
    && (forall i, j :: 0 <= i < j < |order| ==> order[i] != order[j])
    && (forall x :: x in order <==> x in s)
  }

  /**
   * One step of a fan-out loop: moving a member from the members still to visit
   * to the visited ones extends the enumeration of the visited members by it.
   */
  lemma EnumeratesStep(order: seq<string>, done: set<string>, remaining: set<string>, name: string)
    requires Enumerates(order, done) && done !! remaining && name in remaining
    ensures Enumerates(order + [name], done + {name})
    ensures done + {name} !! remaining - {name}
    ensures (done + {name}) + (remaining - {name}) == done + remaining
  {
    var o := order + [name];
    forall x
      ensures x in o <==> x in order || x == name
    {
      if x in o {
        var k :| 0 <= k < |o| && o[k] == x;
        if k < |order| {
          assert order[k] == x;
        }
      }
      if x in order {
        var k :| 0 <= k < |order| && order[k] == x;
        assert o[k] == x;
      }
    }
  }

  /** An enumeration of a set is as long as the set is large. */
  lemma {:induction false} EnumerationLength(order: seq<string>, s: set<string>)
    requires Enumerates(order, s)
    ensures |order| == |s|
  {
    if order != [] {
      var last := order[|order| - 1];
      var init := order[..|order| - 1];
      assert last !in init;
      assert forall x :: x in order <==> x in init || x == last;
      assert Enumerates(init, s - {last});
      EnumerationLength(init, s - {last});
    }
  }

  /**
   * Fan-out completeness: a broadcast yields one channel message per member and
   * no more. Each goes to the identifier of the member it names and carries the
   * broadcast's sender, channel and text unchanged.
   */
  lemma FanOutExactlyOnce(b: ChannelBroadcastMsg, members: set<string>, order: seq<string>)
    requires Enumerates(order, members)
    ensures var rs := FanOut(b, order);
      && |rs| == |members|
      && (forall n :: n in members ==> exists i :: 0 <= i < |rs| && rs[i].msg.c.toName == n)
      && (forall i, j :: 0 <= i < j < |rs| ==> rs[i].msg.c.toName != rs[j].msg.c.toName)
      && (forall i :: 0 <= i < |rs| ==>
            && rs[i].Route? && rs[i].msg.Channel?
            && rs[i].msg.c.toName in members
            && rs[i].key == rs[i].msg.c.to == HashNodeId(rs[i].msg.c.toName)
            && rs[i].msg.c.from == b.clientId && rs[i].msg.c.fromName == b.clientName
            && rs[i].msg.c.channelId == b.channelId && rs[i].msg.c.channelName == b.channelName
            && rs[i].msg.c.text == b.text)
  {
    EnumerationLength(order, members);
    var rs := FanOut(b, order);
    forall n | n in members
      ensures exists i :: 0 <= i < |rs| && rs[i].msg.c.toName == n
    {
      var i :| 0 <= i < |order| && order[i] == n;
      assert rs[i].msg.c.toName == n;
    }
  }

  // ---------------------------------------------------------------------
  // The membership protocol, as pure decisions

  /** A request the channel owner acts on: phase `request` and a known action type. */
  predicate ActsOn(actionPhase: string, actionType: string)
  {
    actionPhase == ActionPhaseRequest && (actionType == ActionTypeJoin || actionType == ActionTypeLeave)
  }

  /** The store once the owner's update for a join or leave request has been persisted. */
  function RequestStore(store: Store, key: Id, channelName: string, clientName: string, actionType: string): Store
  {
    if actionType == ActionTypeJoin then Joined(store, key, channelName, clientName)
    else if actionType == ActionTypeLeave then Left(store, key, channelName, clientName)
    else store
  }

  /**
   * The line a requester prints when its request comes back accepted: only for
   * its own nickname and a known action type.
   */
  function Confirmation(nickname: string, clientName: string, channelName: string, actionType: string): (line: Option<string>)
    ensures line.Some? <==> nickname == clientName && (actionType == ActionTypeJoin || actionType == ActionTypeLeave)
    ensures line.Some? && actionType == ActionTypeJoin ==> line.value == "Joined channel '" + channelName + "'."
    ensures line.Some? && actionType == ActionTypeLeave ==> line.value == "Left channel '" + channelName + "'."
  {
    if nickname != clientName then None
    else if actionType == ActionTypeJoin then Some("Joined channel '" + channelName + "'.")
    else if actionType == ActionTypeLeave then Some("Left channel '" + channelName + "'.")
    else None
  }

  // ---------------------------------------------------------------------
  // Command lines

  /** What a command line asks for. `Truncated` is a `msg` or `send` line without text, which throws. */
  datatype Command =
    | Quit
    | Help
    | JoinCmd(channel: string)
    | LeaveCmd(channel: string)
    | MsgCmd(user: string, text: string)
    | SendCmd(channel: string, text: string)
    | Truncated
    | Unknown

  /** Index of the first space in `s`, or |s| when there is none. */
  function SpaceIndex(s: string): (i: nat)
    ensures i <= |s|
    ensures forall j :: 0 <= j < i ==> s[j] != ' '
    ensures i < |s| ==> s[i] == ' '
  {
    if s == [] || s[0] == ' ' then 0 else 1 + SpaceIndex(s[1..])
  }

  /**
   * Parts 1 and 2 of `(verb + " " + rest).split(" ", 3)`: the word up to the first
   * space of `rest` and everything after it; absent when `rest` has no space.
   */
  function SplitArgs(rest: string): Option<(string, string)>
  {
    var i := SpaceIndex(rest);
    if i < |rest| then Some((rest[..i], rest[i + 1..])) else None
  }

  /**
   * `handleCommand`'s dispatch. The keyword tests run in order; a line that
   * matches none of them is unknown, and a `msg`/`send` line is truncated
   * only when its arguments lack the second space.
   */
  function ParseCommand(input: string): (c: Command)
    ensures c == Quit <==> input == "quit"
    ensures c == Help <==> input == "help"
    ensures c.Unknown? <==>
      && input != "quit" && input != "help"
      && !StartsWith(input, "join ") && !StartsWith(input, "leave ")
      && !StartsWith(input, "msg ") && !StartsWith(input, "send ")
    ensures c.Truncated? ==> StartsWith(input, "msg ") || StartsWith(input, "send ")
  {
    if input == "quit" then Quit
    else if input == "help" then Help
    else if StartsWith(input, "join ") then JoinCmd(input[5..])
    else if StartsWith(input, "leave ") then LeaveCmd(input[6..])
    else if StartsWith(input, "msg ") then
      (match SplitArgs(input[4..])
       case Some((user, text)) => MsgCmd(user, text)
       case None => Truncated)
    else if StartsWith(input, "send ") then
      (match SplitArgs(input[5..])
       case Some((channel, text)) => SendCmd(channel, text)
       case None => Truncated)
    else Unknown
  }

  /** The command line a user types for a command. */
  function Render(c: Command): string
  {
    match c
    case Quit => "quit"
    case Help => "help"
    case JoinCmd(channel) => "join " + channel
    case LeaveCmd(channel) => "leave " + channel
    case MsgCmd(user, text) => "msg " + user + " " + text
    case SendCmd(channel, text) => "send " + channel + " " + text
    case Truncated => "send x"
    case Unknown => ""
  }

  /** Commands a line can express: a user or channel name for `msg`/`send` has no space. */
  predicate Expressible(c: Command)
  {
    match c
    case MsgCmd(user, _) => ' ' !in user
    case SendCmd(channel, _) => ' ' !in channel
    case _ => true
  }

  /** A line whose first character differs from a keyword's neither is nor starts with that keyword. */
  lemma FirstCharDiffers(s: string, keyword: string)
    requires |s| > 0 && |keyword| > 0 && s[0] != keyword[0]
    ensures !StartsWith(s, keyword) && s != keyword
  {
    if |keyword| <= |s| {
      assert s[..|keyword|][0] == s[0];
    }
  }

  lemma SplitArgsOf(word: string, text: string)
    requires ' ' !in word
    ensures SplitArgs(word + " " + text) == Some((word, text))
  {
    var s := word + " " + text;
    var i := SpaceIndex(s);
    assert s[|word|] == ' ';
    assert i == |word|;
    assert s[..i] == word && s[i + 1..] == text;
  }

  /** A split line is its first word, one space and the remainder; the word holds no space. */
  lemma SplitArgsInverse(rest: string)
    requires SplitArgs(rest).Some?
    ensures ' ' !in SplitArgs(rest).value.0
    ensures rest == SplitArgs(rest).value.0 + " " + SplitArgs(rest).value.1
  {
    var i := SpaceIndex(rest);
    var word := rest[..i];
    assert rest == word + " " + rest[i + 1..];
    forall j | 0 <= j < |word|
      ensures word[j] != ' '
    {
      assert word[j] == rest[j];
    }
  }

  /** Parsing the line for a command gives that command back. */
  lemma ParseRender(c: Command)
    requires Expressible(c)
    ensures ParseCommand(Render(c)) == c
  {
    var s := Render(c);
    match c
    case Quit =>
    case Help =>
    case JoinCmd(channel) =>
      FirstCharDiffers(s, "quit");
      FirstCharDiffers(s, "help");
      assert s[..5] == "join " && s[5..] == channel;
    case LeaveCmd(channel) =>
      FirstCharDiffers(s, "quit");
      FirstCharDiffers(s, "help");
      FirstCharDiffers(s, "join ");
      assert s[..6] == "leave " && s[6..] == channel;
    case MsgCmd(user, text) =>
      FirstCharDiffers(s, "quit");
      FirstCharDiffers(s, "help");
      FirstCharDiffers(s, "join ");
      FirstCharDiffers(s, "leave ");
      assert s[..4] == "msg " && s[4..] == user + " " + text;
      SplitArgsOf(user, text);
    case SendCmd(channel, text) =>
      FirstCharDiffers(s, "quit");
      FirstCharDiffers(s, "help");
      FirstCharDiffers(s, "join ");
      FirstCharDiffers(s, "leave ");
      FirstCharDiffers(s, "msg ");
      assert s[..5] == "send " && s[5..] == channel + " " + text;
      SplitArgsOf(channel, text);
    case Truncated =>
      FirstCharDiffers(s, "quit");
      FirstCharDiffers(s, "help");
      FirstCharDiffers(s, "join ");
      FirstCharDiffers(s, "leave ");
      FirstCharDiffers(s, "msg ");
      assert s[..5] == "send " && s[5..] == "x";
      assert SpaceIndex("x") == 1;
    case Unknown =>
  }

  /** A line made of a verb and a split argument string is the verb, the word, a space and the text. */
  lemma JoinSplit(verb: string, input: string)
    requires StartsWith(input, verb) && SplitArgs(input[|verb|..]).Some?
    ensures var (word, text) := SplitArgs(input[|verb|..]).value;
      ' ' !in word && input == verb + word + " " + text
  {
    var rest := input[|verb|..];
    SplitArgsInverse(rest);
    assert input == verb + rest;
  }

  /** Conversely, every line that parses to a command is exactly that command's line. */
  lemma RenderParse(input: string)
    requires !ParseCommand(input).Truncated? && !ParseCommand(input).Unknown?
    ensures Expressible(ParseCommand(input))
    ensures Render(ParseCommand(input)) == input
  {
    if input == "quit" || input == "help" {
    } else if StartsWith(input, "join ") {
      assert input == "join " + input[5..];
    } else if StartsWith(input, "leave ") {
      assert input == "leave " + input[6..];
    } else if StartsWith(input, "msg ") {
      JoinSplit("msg ", input);
    } else {
      JoinSplit("send ", input);
    }
  }

  /** A `msg` or `send` line whose arguments hold no space is truncated: it names no text. */
  lemma TruncatedLines(verb: string, rest: string)
    requires verb == "msg " || verb == "send "
    requires ' ' !in rest
    ensures ParseCommand(verb + rest) == Truncated
  {
    var s := verb + rest;
    assert s[..|verb|] == verb && s[|verb|..] == rest;
    FirstCharDiffers(s, "quit");
    FirstCharDiffers(s, "help");
    FirstCharDiffers(s, "join ");
    FirstCharDiffers(s, "leave ");
    if verb == "send " {
      FirstCharDiffers(s, "msg ");
    }
    assert SpaceIndex(rest) == |rest|;
  }

  /** The six fixed lines of `help`. */
  const HelpLines: seq<string> := [
    "List of commands:",
    "quit - terminates the application",
    "join <channel> - joins the given channel",
    "leave <channel> - leaves the given channel",
    "send <channel> <message> - send the message to the given channel",
    "msg <user> <message> - send the message to the given user"]

  const UnknownCommandLine: string := "Command unknown. Try 'help'."

  function PrintAll(lines: seq<string>): (es: seq<Event>)
    ensures |es| == |lines|
    ensures forall i :: 0 <= i < |lines| ==> es[i] == Println(lines[i])
  {
    if lines == [] then [] else [Println(lines[0])] + PrintAll(lines[1..])
  }

  // ---------------------------------------------------------------------
  // The node

  class ChatApp {
    const nickname: string
    const nodeId: Id
    /** The overlay's channel-name hash; deterministic, otherwise opaque here. */
    const buildId: string -> Id

    /** A listener is registered. */
    var listening: bool
    /** Everything the listener has been told. */
    var events: seq<Event>
    /** Everything handed to the overlay for routing. */
    var outbox: seq<Route>
    /** The replicated channel store. */
    var store: Store

    ghost predicate Valid()
      reads this
    {
      Keyed(store)
    }

    constructor (nodeId: Id, nickname: string, buildId: string -> Id)
      ensures Valid()
      ensures this.nodeId == nodeId && this.nickname == nickname && this.buildId == buildId
      ensures !listening && events == [] && outbox == [] && store == map[]
    {
      this.nodeId := nodeId;
      this.nickname := nickname;
      this.buildId := buildId;
      listening := false;
      events := [];
      outbox := [];
      store := map[];
    }

    /** getChannelId */
    function ChannelId(channelName: string): Id
    {
      buildId(channelName)
    }

    /** The events the listener gets, if one is registered. */
    function Heard(es: seq<Event>): seq<Event>
      reads this
    {
      if listening then es else []
    }

    method RegisterChatAppListener(present: bool)
      modifies this`listening, this`events
      ensures listening == present
      ensures events == old(events) + (if present then [ChatAppSet] else [])
    {
      listening := present;
      if present {
        events := events + [ChatAppSet];
      }
    }

    /** Tells the listener, when there is one. */
    method Notify(e: Event)
      modifies this`events
      ensures events == old(events) + Heard([e])
    {
      if listening {
        events := events + [e];
      }
    }

    /** `r` carries an admin request from this node about `channelName`, towards the channel's key. */
    ghost predicate IsRequest(r: Route, channelName: string, actionType: string)
      reads r.msg.Objects()
    {
      && r.Route? && r.key == ChannelId(channelName) && r.msg.Admin?
      && r.msg.a.clientId == nodeId && r.msg.a.clientName == nickname
      && r.msg.a.channelId == ChannelId(channelName) && r.msg.a.channelName == channelName
      && r.msg.a.actionType == actionType && r.msg.a.actionPhase == ActionPhaseRequest
    }

    // -------------------------------------------------------------------
    // Sending

    method SendPrivateMsg(name: string, text: string)
      modifies this`outbox
      ensures outbox == old(outbox) + [Route(HashNodeId(name), Private(PrivateMsg(nodeId, nickname, HashNodeId(name), name, text)))]
    {
      var to := GetClientId(name);
      outbox := outbox + [Route(to, Private(PrivateMsg(nodeId, nickname, to, name, text)))];
    }

    method SendPrivateMsgDirect(handle: Id, name: string, text: string)
      modifies this`outbox
      ensures outbox == old(outbox) + [Direct(handle, Private(PrivateMsg(nodeId, nickname, handle, name, text)))]
    {
      outbox := outbox + [Direct(handle, Private(PrivateMsg(nodeId, nickname, handle, name, text)))];
    }

    method SendChannelBroadcastMsg(channelName: string, text: string)
      modifies this`outbox
      ensures outbox == old(outbox) + [Route(ChannelId(channelName),
        Broadcast(ChannelBroadcastMsg(nodeId, nickname, ChannelId(channelName), channelName, text)))]
    {
      var key := ChannelId(channelName);
      outbox := outbox + [Route(key, Broadcast(ChannelBroadcastMsg(nodeId, nickname, key, channelName, text)))];
    }

    /** Routes a new admin request of the given type towards the channel's key. */
    method SendAdminRequest(channelName: string, actionType: string)
      modifies this`outbox
      ensures |outbox| == |old(outbox)| + 1 && outbox[..|old(outbox)|] == old(outbox)
      ensures fresh(outbox[|old(outbox)|].msg.Objects())
      ensures IsRequest(outbox[|old(outbox)|], channelName, actionType)
    {
      var key := ChannelId(channelName);
      var msg := new ChannelAdminMsg(nodeId, nickname, key, channelName, actionType, ActionPhaseRequest);
      outbox := outbox + [Route(key, Admin(msg))];
    }

    method SendJoinRequest(channelName: string)
      modifies this`outbox
      ensures |outbox| == |old(outbox)| + 1 && outbox[..|old(outbox)|] == old(outbox)
      ensures fresh(outbox[|old(outbox)|].msg.Objects())
      ensures IsRequest(outbox[|old(outbox)|], channelName, ActionTypeJoin)
    {
      SendAdminRequest(channelName, ActionTypeJoin);
    }

    method SendLeaveRequest(channelName: string)
      modifies this`outbox
      ensures |outbox| == |old(outbox)| + 1 && outbox[..|old(outbox)|] == old(outbox)
      ensures fresh(outbox[|old(outbox)|].msg.Objects())
      ensures IsRequest(outbox[|old(outbox)|], channelName, ActionTypeLeave)
    {
      SendAdminRequest(channelName, ActionTypeLeave);
    }

    // -------------------------------------------------------------------
    // The channel store

    /**
     * Lookup-or-create of the channel record. A failed lookup yields null (the
     * followup never runs); a missing record, or content of another kind, yields
     * a new empty record for the channel.
     */
    method ReadyChannelOwnership(channelName: string, lookupOk: bool) returns (content: ChannelContent?)
      requires Valid()
      ensures content == null <==> !lookupOk
      ensures content != null ==> fresh(content)
      ensures content != null ==> content.Snapshot() == FetchOrCreate(store, ChannelId(channelName), channelName)
      ensures content != null ==> content.id == ChannelId(channelName)
      ensures content != null && !(ChannelId(channelName) in store && store[ChannelId(channelName)].ChannelRecord?) ==>
        content.name == channelName && content.clients == {}
    {
      if !lookupOk {
        return null;
      }
      var key := ChannelId(channelName);
      var found: Option<PastContent> := if key in store then Some(store[key]) else None;
      if found.Some? && found.value.ChannelRecord? {
        content := new ChannelContent.FromRecord(found.value);
      } else {
        content := new ChannelContent(key, channelName);
      }
    }

    /** Inserts the record; overwrite is always accepted. A failed insert leaves the store as it was. */
    method Insert(content: ChannelContent, insertOk: bool)
      requires Valid()
      modifies this`store
      ensures Valid()
      ensures store == if insertOk then Persist(old(store), content.Snapshot()) else old(store)
    {
      if insertOk {
        store := store[content.id := content.CheckInsert(content.id, if content.id in store then Some(store[content.id]) else None)];
      }
    }

    // -------------------------------------------------------------------
    // Receiving

    /** The owner's fan-out loop: one channel message per member, in the set's iteration order. */
    method RouteToMembers(b: ChannelBroadcastMsg, members: set<string>) returns (ghost order: seq<string>)
      modifies this`outbox
      ensures Enumerates(order, members)
      ensures outbox == old(outbox) + FanOut(b, order)
    {
      order := [];
      ghost var done: set<string> := {};
      var remaining := members;
      while remaining != {}
        invariant done !! remaining && done + remaining == members
        invariant Enumerates(order, done)
        invariant outbox == old(outbox) + FanOut(b, order)
        decreases remaining
      {
        var name :| name in remaining;
        var to := GetClientId(name);
        var msg := ChannelMsg(b.clientId, b.clientName, to, name, b.channelId, b.channelName, b.text);
        assert Route(to, Channel(msg)) == FanOutRoute(b, name);
        outbox := outbox + [Route(to, Channel(msg))];
        FanOutSnoc(b, order, name);
        EnumeratesStep(order, done, remaining, name);
        order := order + [name];
        done := done + {name};
        remaining := remaining - {name};
      }
      assert done == members;
    }

    /** The owner's update for a join or leave, its insert, and the acceptance routed back. */
    method ProcessRequest(admin: ChannelAdminMsg, content: ChannelContent, insertOk: bool)
      requires Valid()
      requires ActsOn(admin.actionPhase, admin.actionType)
      requires content.Snapshot() == FetchOrCreate(store, content.id, admin.channelName)
      modifies this`store, this`outbox, admin`actionPhase, content`clients
      ensures Valid()
      ensures admin.actionPhase == ActionPhaseAccepted
      ensures content.clients == if admin.actionType == ActionTypeJoin
        then old(content.clients) + {admin.clientName}
        else old(content.clients) - {admin.clientName}
      ensures store == if insertOk
        then RequestStore(old(store), content.id, admin.channelName, admin.clientName, admin.actionType)
        else old(store)
      ensures outbox == old(outbox) + [Route(HashNodeId(admin.clientName), Admin(admin))]
    {
      if admin.actionType == ActionTypeJoin {
        var _ := content.AddClient(admin.clientName);
      } else {
        var _ := content.RemoveClient(admin.clientName);
      }
      Insert(content, insertOk);
      admin.SetActionPhase(ActionPhaseAccepted);
      var to := GetClientId(admin.clientName);
      outbox := outbox + [Route(to, Admin(admin))];
    }

    /**
     * Handles one delivered message. `lookupOk` and `insertOk` say whether the
     * channel store's lookup and insert for it succeed; `order` is the order in
     * which a broadcast visits the channel's members.
     */
    method Deliver(m: Message, lookupOk: bool, insertOk: bool) returns (ghost order: seq<string>)
      requires Valid()
      modifies this`events, this`outbox, this`store, m.Objects()
      ensures Valid()
      // private and channel messages reach the listener only when addressed to this node
      ensures m.Private? ==> && outbox == old(outbox) && store == old(store)
                             && events == old(events) + (if m.p.to == nodeId then Heard([PrivateDelivered(m.p)]) else [])
      ensures m.Channel? ==> && outbox == old(outbox) && store == old(store)
                             && events == old(events) + (if m.c.to == nodeId then Heard([ChannelDelivered(m.c)]) else [])
      // a broadcast fans out to the current members
      ensures m.Broadcast? ==> && store == old(store) && events == old(events)
                               && (!lookupOk ==> outbox == old(outbox))
                               && (lookupOk ==>
                                    && Enumerates(order, Members(old(store), ChannelId(m.b.channelName), m.b.channelName))
                                    && outbox == old(outbox) + FanOut(m.b, order))
      // a join or leave request is applied, persisted and answered with the accepted message
      ensures m.Admin? ==>
        var a := m.a;
        var acts := ActsOn(old(a.actionPhase), a.actionType) && lookupOk;
        && a.actionPhase == (if acts then ActionPhaseAccepted else old(a.actionPhase))
        && store == (if acts && insertOk
                     then RequestStore(old(store), ChannelId(a.channelName), a.channelName, a.clientName, a.actionType)
                     else old(store))
        && outbox == old(outbox) + (if acts then [Route(HashNodeId(a.clientName), Admin(a))] else [])
        && events == old(events) +
             (if old(a.actionPhase) == ActionPhaseAccepted
                 && Confirmation(nickname, a.clientName, a.channelName, a.actionType).Some?
              then Heard([Println(Confirmation(nickname, a.clientName, a.channelName, a.actionType).value)])
              else [])
      ensures m.Foreign? ==> outbox == old(outbox) && store == old(store) && events == old(events)
    {
      order := [];
      match m
      case Private(p) =>
        if p.to == nodeId {
          Notify(PrivateDelivered(p));
        }
      case Channel(c) =>
        if c.to == nodeId {
          Notify(ChannelDelivered(c));
        }
      case Broadcast(b) =>
        var content := ReadyChannelOwnership(b.channelName, lookupOk);
        if content != null {
          order := RouteToMembers(b, content.clients);
        }
      case Admin(a) =>
        if a.actionPhase == ActionPhaseRequest {
          if a.actionType == ActionTypeJoin || a.actionType == ActionTypeLeave {
            var content := ReadyChannelOwnership(a.channelName, lookupOk);
            if content != null {
              ProcessRequest(a, content, insertOk);
            }
          }
        } else if a.actionPhase == ActionPhaseAccepted {
          if nickname == a.clientName {
            if a.actionType == ActionTypeJoin {
              Notify(Println("Joined channel '" + a.channelName + "'."));
            } else if a.actionType == ActionTypeLeave {
              Notify(Println("Left channel '" + a.channelName + "'."));
            }
          }
        }
      case Foreign =>
    }

    // -------------------------------------------------------------------
    // Commands

    /** Interprets a command line. `thrown` reports the out-of-bounds failure of a line without text. */
    method HandleCommand(input: string) returns (thrown: bool)
      modifies this`events, this`outbox
      ensures thrown <==> ParseCommand(input).Truncated?
      ensures match ParseCommand(input)
        case Quit => outbox == old(outbox) && events == old(events) + Heard([QuitCommand])
        case Help => outbox == old(outbox) && events == old(events) + Heard(PrintAll(HelpLines))
        case Unknown => outbox == old(outbox) && events == old(events) + Heard([Println(UnknownCommandLine)])
        case Truncated => outbox == old(outbox) && events == old(events)
        case MsgCmd(user, text) =>
          && events == old(events)
          && outbox == old(outbox) + [Route(HashNodeId(user), Private(PrivateMsg(nodeId, nickname, HashNodeId(user), user, text)))]
        case SendCmd(channel, text) =>
          && events == old(events)
          && outbox == old(outbox) + [Route(ChannelId(channel),
               Broadcast(ChannelBroadcastMsg(nodeId, nickname, ChannelId(channel), channel, text)))]
        case JoinCmd(channel) =>
          && events == old(events)
          && |outbox| == |old(outbox)| + 1 && outbox[..|old(outbox)|] == old(outbox)
          && fresh(outbox[|old(outbox)|].msg.Objects())
          && IsRequest(outbox[|old(outbox)|], channel, ActionTypeJoin)
        case LeaveCmd(channel) =>
          && events == old(events)
          && |outbox| == |old(outbox)| + 1 && outbox[..|old(outbox)|] == old(outbox)
          && fresh(outbox[|old(outbox)|].msg.Objects())
          && IsRequest(outbox[|old(outbox)|], channel, ActionTypeLeave)
    {
      thrown := false;
      match ParseCommand(input)
      case Quit =>
        Notify(QuitCommand);
      case Help =>
        if listening {
          events := events + PrintAll(HelpLines);
        }
      case JoinCmd(channel) =>
        SendJoinRequest(channel);
      case LeaveCmd(channel) =>
        SendLeaveRequest(channel);
      case MsgCmd(user, text) =>
        SendPrivateMsg(user, text);
      case SendCmd(channel, text) =>
        SendChannelBroadcastMsg(channel, text);
      case Truncated =>
        thrown := true;
      case Unknown =>
        Notify(Println(UnknownCommandLine));
    }
  }

  /**
   * The admin round trip between two nodes: "alice" asks for "general", the
   * overlay carries the request to the channel's owner, the owner records her and
   * routes the accepted message back to her identifier, and her node confirms.
   */
  method JoinRoundTrip(buildId: string -> Id, ownerId: Id) returns (members: set<string>, routed: seq<Route>, heard: seq<Event>)
    ensures members == {"alice"}
    ensures |routed| == 1 && routed[0].Route? && routed[0].key == HashNodeId("alice")
    ensures routed[0].msg.Admin? && routed[0].msg.a.clientName == "alice" && routed[0].msg.a.channelName == "general"
    ensures routed[0].msg.a.actionType == ActionTypeJoin && routed[0].msg.a.actionPhase == ActionPhaseAccepted
    ensures heard == [ChatAppSet, Println("Joined channel '" + "general" + "'.")]
  {
    var alice := new ChatApp(HashNodeId("alice"), "alice", buildId);
    alice.RegisterChatAppListener(true);
    var owner := new ChatApp(ownerId, "owner", buildId);
    alice.SendJoinRequest("general");
    var request := alice.outbox[0];
    ghost var _ := owner.Deliver(request.msg, true, true);
    var reply := owner.outbox[0];
    assert reply.key == alice.nodeId && reply.msg == request.msg;
    assert request.msg.a.actionPhase == ActionPhaseAccepted;
    ghost var _ := alice.Deliver(reply.msg, true, true);
    members := Members(owner.store, buildId("general"), "general");
    routed := owner.outbox;
    heard := alice.events;
  }
}
