# PastryChat channel core in Dafny

This project models the channel membership and message-dispatch logic of a
PastryChat node. The node is a chat application on a Pastry overlay.
Participants and channels are addressed by identifiers. A channel's member list
lives in a replicated store (Past) under the channel's identifier. The node that
owns that identifier does the following:

- it adds and removes members on join and leave requests;
- it answers each request with the same message, its phase flipped to
  `accepted`;
- it fans out a broadcast as one `ChannelMsg` per member.

Receiving nodes drop private and channel messages that are not addressed to
them. They also drop accepted echoes that are not for their own nickname.

## Files

- `ids.dfy` (module `Ids`): Java's `int` and `String.hashCode`, an identifier
  as its word array, and `HashNodeIdFactory`.
- `messages.dfy` (module `Messages`): `PrivateMsg`, `ChannelMsg` and
  `ChannelBroadcastMsg` are immutable datatypes. `ChannelAdminMsg` is a class
  whose only variable field is its phase. The module also holds the protocol
  constants and the `Message` sum type.
- `channels.dfy` (module `Channels`):
  - the `ChannelContent` class (id, name, a client set updated in place);
  - the value the store keeps (`PastContent`);
  - lookup-or-create, last-writer-wins persist, the store after a join or a
    leave, and the lemmas about them.
- `chat_app.dfy` (module `Chat`):
  - the `ChatApp` class: senders, `Deliver`, the owner's lookup, update,
    insert and reply, and `HandleCommand`;
  - the fan-out and its lemmas;
  - the command parser and its inverse.
- `option.dfy` (module `Optional`): an `Option` type.

## How the environment is represented

- The overlay's `route(key, msg)` appends `Route(key, msg)` to `ChatApp.outbox`.
  Routing to a node handle appends `Direct(handleId, msg)`. An admin message is
  routed as the same object the node holds, as in the source.
- The Past store is `ChatApp.store: map<Id, PastContent>`. It holds serialized
  values: a lookup hands the followup a fresh `ChannelContent`, and an insert
  stores the record's value under the record's own id.
- The asynchronous lookup and insert run to completion inside `Deliver`. Each
  one may fail, and the flags `lookupOk` and `insertOk` say whether it does. A
  failed lookup runs no followup. A failed insert leaves the store unchanged, but
  the accepted reply is still routed.
- The listener is an event log, `ChatApp.events`. Events are recorded only
  while a listener is registered (`listening`), like the source's null checks.
- `PastryIdFactory.buildId` (used by `getChannelId`) is the function-valued
  constant `ChatApp.buildId`: deterministic, otherwise unknown.
- A broadcast visits the member set in no particular order. `Deliver` returns
  that order as a ghost value so that its contract can name the routes.
- A `msg` or `send` line without a second space makes `split(" ", 3)` return
  two parts, and `parts[2]` throws `ArrayIndexOutOfBoundsException`.
  `HandleCommand` reports this as `thrown` and changes nothing. The console loop
  does not catch the exception (src/MainConsole.java:57), so the application
  shuts down.

## Model

| member | source | states |
|---|---|---|
| `Ids.HashCode` | src/HashNodeIdFactory.java:36 | `feed.hashCode()`: the hash word, computed step by step with 32-bit wrap-around, equals the 32-bit wrap-around of the exact polynomial s[0]·31^(n−1)+…+s[n−1] |
| `Ids.HashNodeIdMatchesHashCode` | src/HashNodeIdFactory.java:34-38 | two feeds get the same identifier exactly when their hash codes are equal |
| `Ids.HashNodeIdCollides` | src/HashNodeIdFactory.java:34-38 | distinct names can collide: "Aa" and "BB" get the same identifier |
| `Ids.HashNodeIdFactory.constructor` | src/HashNodeIdFactory.java:25-28 | the factory keeps the feed it is given |
| `Ids.HashNodeIdFactory.GenerateNodeId` | src/HashNodeIdFactory.java:31-39 | the material has IdBitLength >> 5 words, and every word is the feed's hash code |
| `Ids.GenerationIsDeterministic` | src/HashNodeIdFactory.java:25-39 | two calls on one factory and a call on a factory built from an equal feed return three equal identifiers |
| `Messages.ChannelMsg.ToString` | src/ChannelMsg.java:97-100 | the line is `ChannelMsg from <fromName> (<id>) to <toName> (<id>): <text>` for some renderings of the two identifiers |
| `Messages.ChannelBroadcastMsg.ToString` | src/ChannelBroadcastMsg.java:79-82 | the line is `ChannelBroadcastMsg from <clientName> (<id>) to <channelName> (<id>): <text>` for some renderings of the two identifiers |
| `Messages.ChannelTrafficYields` | src/ChannelMsg.java:107-111 | channel, broadcast and admin messages all have LOW_PRIORITY, which ranks below the default priority |
| `Messages.RenderingsNameTheirKind` | src/ChannelAdminMsg.java:97-100 | the log lines of the three channel message kinds never coincide |
| `Messages.ActionConstantsDistinct` | src/ChannelAdminMsg.java:17-20 | `join`/`leave` and `request`/`accepted` are four pairwise distinct strings |
| `Messages.ChannelAdminMsg.constructor` | src/ChannelAdminMsg.java:46-55 | all six fields hold the values passed in; five of them are constants from then on |
| `Messages.ChannelAdminMsg.SetActionPhase` | src/ChannelAdminMsg.java:64-67 | the phase becomes the argument; no other field can change |
| `Messages.ChannelAdminMsg.ToString` | src/ChannelAdminMsg.java:97-100 | the line is `ChannelAdminMsg from <clientName> (<id>) to <channelName> (<id>): <type> <phase>` for some renderings of the two identifiers |
| `Channels.ChannelContent.constructor` | src/ChannelContent.java:32-41 | a new record has the given id and name and no clients |
| `Channels.ChannelContent.FromRecord` | src/ChatApp.java:513-525 | the record a lookup returns has exactly the stored id, name and clients |
| `Channels.ChannelContent.AddClient` | src/ChannelContent.java:50-53 | adding through the client set changes the record's set to old ∪ {c}; it reports a change only when c was absent |
| `Channels.ChannelContent.RemoveClient` | src/ChannelContent.java:50-53 | removing through the client set changes the record's set to old \ {c}; removing an absent name changes nothing |
| `Channels.ChannelContent.CheckInsert` | src/ChannelContent.java:57-62 | whatever is already stored, the store keeps the new record |
| `Channels.ChannelContent.IsMutable` | src/ChannelContent.java:64-69 | always true |
| `Channels.ChannelContent.ToString` | src/ChannelContent.java:73-77 | `ChannelContent[` + name + `]`: the name can be read back from between the brackets |
| `Channels.FetchOrCreate` | src/ChatApp.java:515-522 | the record the followup receives is a channel record: the one stored at the key if there is one, otherwise a new empty record with that key and name; in a keyed store its id is the key |
| `Channels.Joined` | src/ChatApp.java:281-305 | the owner's join followup at store level: in a keyed store the record at the key holds the old members ∪ {client}, the store stays keyed and no other key changes |
| `Channels.Left` | src/ChatApp.java:321-345 | the owner's leave followup at store level: in a keyed store the record at the key holds the old members \ {client}, the store stays keyed and no other key changes |
| `Channels.Persist` | src/ChannelContent.java:57-62 | after an insert the record sits at its own id, overwriting what was there; every other key is unchanged |
| `Channels.JoinAddsMember` | src/ChatApp.java:277-285 | after a join the channel's record exists and its members are the old members ∪ {client}; no other key changes |
| `Channels.LeaveRemovesMember` | src/ChatApp.java:317-325 | after a leave the channel's record exists and its members are the old members \ {client}; no other key changes |
| `Channels.JoinIdempotent` | src/ChatApp.java:283-285 | joining twice leaves the same store as joining once |
| `Channels.LeaveAbsentKeepsStore` | src/ChatApp.java:323-325 | leaving a stored channel one is not in leaves the store unchanged |
| `Channels.LeaveUnknownCreatesRecord` | src/ChatApp.java:515-525 | leaving a channel that was never stored creates its empty record |
| `Channels.SequentialJoins` | src/ChatApp.java:277-285 | joins by "a" and then "b" on a new channel leave members {"a", "b"} |
| `Channels.JoinThenLeave` | src/ChatApp.java:277-325 | a join then a leave by one client leaves the channel record in place with no members; a later join reuses that record |
| `Channels.ConcurrentJoinsLoseUpdate` | src/ChatApp.java:277-305 | two joins that fetched the same snapshot and persist one after the other end with only the second client |
| `Chat.GetClientId` | src/ChatApp.java:425-428 | the client identifier is the one HashNodeIdFactory generates from the name |
| `Chat.ChatApp.ChannelId` | src/ChatApp.java:436-439 | no contract of its own: the channel identifier is the overlay's hash `buildId` of the name, a parameter of the node; every send, lookup and insert for a channel states its effect in terms of this identifier |
| `Chat.FanOut` | src/ChatApp.java:250-261 | one route per member in visiting order; the i-th is the i-th member's channel message |
| `Chat.FanOutExactlyOnce` | src/ChatApp.java:244-261 | a broadcast produces exactly one channel message per member and no others. Each is routed to the identifier of the member it names and carries the broadcast's sender, channel and text unchanged |
| `Chat.Confirmation` | src/ChatApp.java:357-378 | an accepted echo prints a line exactly when its client is this node's nickname and its type is join or leave. The line is `Joined channel '<name>'.` or `Left channel '<name>'.` |
| `Chat.ParseCommand` | src/ChatApp.java:450-489 | `handleCommand`'s dispatch: quit and help exactly for those two lines; unknown exactly when the line is neither and starts with none of `join `, `leave `, `msg `, `send `; a truncated line starts with `msg ` or `send ` |
| `Chat.ParseRender` | src/ChatApp.java:448-489 | the line for quit, help, join X, leave X, msg U T or send C T (U, C without spaces) parses back to that command; the sample lines `send x` and the empty line parse back to truncated and unknown |
| `Chat.RenderParse` | src/ChatApp.java:448-489 | every line that parses to a command is exactly that command's line. Join/leave take everything after the prefix; msg/send split at the first space after it |
| `Chat.TruncatedLines` | src/ChatApp.java:473-482 | a `msg` or `send` line whose arguments contain no space has no text part, and handling it throws |
| `Chat.ChatApp.constructor` | src/ChatApp.java:59-73 | a new node has its id and nickname, no listener, no events, nothing routed and an empty store |
| `Chat.ChatApp.RegisterChatAppListener` | src/ChatApp.java:95-103 | the listener is registered or cleared; a registered listener is told `setChatApp` |
| `Chat.ChatApp.Notify` | src/ChatApp.java:214-218 | an event reaches the log only while a listener is registered |
| `Chat.ChatApp.SendPrivateMsg` | src/ChatApp.java:128-134 | exactly one private message from this node to the name's client id is routed to that id |
| `Chat.ChatApp.SendPrivateMsgDirect` | src/ChatApp.java:143-149 | exactly one private message is sent straight to the given node handle |
| `Chat.ChatApp.SendChannelBroadcastMsg` | src/ChatApp.java:158-164 | exactly one broadcast from this node with the text is routed to the channel's id |
| `Chat.ChatApp.SendJoinRequest` | src/ChatApp.java:173-181 | exactly one new join request from this node is routed to the channel's id |
| `Chat.ChatApp.SendLeaveRequest` | src/ChatApp.java:188-196 | exactly one new leave request from this node is routed to the channel's id |
| `Chat.ChatApp.ReadyChannelOwnership` | src/ChatApp.java:504-536 | a failed lookup runs no followup. Otherwise the followup gets a fresh copy of the stored record at the channel's id; if nothing is there, or something other than a channel record, it gets a new empty record with that id and name |
| `Chat.ChatApp.Insert` | src/ChatApp.java:285-305 | a successful insert overwrites the record at its id; a failed one leaves the store as it was |
| `Chat.ChatApp.RouteToMembers` | src/ChatApp.java:250-261 | the loop routes the fan-out of the broadcast over an enumeration of the member set, each member exactly once |
| `Chat.ChatApp.ProcessRequest` | src/ChatApp.java:281-311 | the owner adds the client to (join) or removes it from (leave) the record object, which holds that set even when the insert fails, and stores the record if the insert succeeds. Either way it sets the phase to accepted and routes that same message to the client's id |
| `Chat.ChatApp.Deliver` | src/ChatApp.java:204-382 | private and channel messages reach the listener only when `to` is this node's id, and nothing else changes. A broadcast routes exactly the fan-out over the stored members. A join/leave request with a successful lookup updates the store (if the insert succeeds), flips the phase and routes one accepted reply; any other request changes nothing. An accepted echo only prints the confirmation line |
| `Chat.ChatApp.HandleCommand` | src/ChatApp.java:448-490 | quit tells the listener; help prints the six fixed lines; join X and leave X route one request for X; msg and send route one message; a line without text throws; anything else prints `Command unknown. Try 'help'.` |
| `Chat.JoinRoundTrip` | src/ChatApp.java:272-313 | alice's join request for "general" reaches a new owner, which records {"alice"} and routes exactly one message: the same join request, now accepted, to alice's id. The accepted reply comes back to alice's node, whose listener hears `Joined channel 'general'.` |

## Left out

- Messages.ChannelMsg.ToString: the contract fixes every part of the line except the two identifier renderings, which are left as unknown strings. How an identifier is printed belongs to the overlay's `Id`, which is not part of this model; it is the parameter `show`.
- Messages.ChannelBroadcastMsg.ToString: same as above; only the two identifier renderings are not constrained.
- Messages.ChannelAdminMsg.ToString: same as above; only the two identifier renderings are not constrained.
- Concurrency: the `synchronized` sections on the endpoint and listener locks are not modelled. Messages are handled one at a time. The lost update between concurrent join/leave requests is only shown as a store-level lemma (`ConcurrentJoinsLoseUpdate`).
- Asynchrony: Past's `lookup` and `insert` continuations run synchronously inside `Deliver`, and each may fail. The per-replica success counts are ignored, as in the source, where that code is commented out. Error printing and stack traces are left out.
- Object sharing with the store: the local in-memory store could hand back the very object it keeps. The model stores values and copies them on lookup, so an in-place update is visible in the store only after the insert.
- `update` and `forward` (src/ChatApp.java:390-412): they only forward neighbour changes to the listener or return true.
- `activate`, `getNickname`, `getNodeId` and `ChatApp.toString`: endpoint registration and plain getters. The nickname and node id are constants of the class.
- The overlay's `Id.build`, its `Id.toString` and `PastryIdFactory.buildId` are foreign code. An identifier is its word sequence; channel ids come from the parameter `buildId`.
- `PrivateMsg.java` is not part of this model. Its fields are taken from the constructor call in src/ChatApp.java:131. Its priority and rendering are left out.
- The `Message` interface's priority constants are not part of this model. `LowPriority` = 10 and `DefaultPriority` = 0 are FreePastry's values.
- Java strings are UTF-16. `HashCode` counts each Dafny character as one code unit, so characters outside the Basic Multilingual Plane hash differently. Null strings are not modelled.
- Bootstrap, the console and Swing front ends, and `ChatAppListener` itself: the listener is the event log.
