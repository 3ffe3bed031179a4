# gochat router — a Dafny model

gochat is a small websocket chat router. A `Server` keeps a registry of
*channels* keyed by channel ID. Each connected `User` reads JSON envelopes from
its socket and dispatches them by command:

- `user-connect` binds the user to a channel, creating and registering the channel if it is new;
- `message-send` routes a message to one user of the channel (a direct target) or to every other member of a group;
- `group-join` and `group-leave` change group membership.

Most handler outcomes answer the sender with a copy of the envelope carrying a
response status and code. Some send nothing at all: a join without a group, a
leave of an unknown group, a direct send without a target user, a group send
without a group or to an unknown group, and a send to any other target kind.

Outgoing frames go into a per-user queue with capacity 256. The write pump drains that queue: it takes one frame, then attaches every frame
queued at that moment, separated by newlines, into one websocket text message.

This project models the router core in `server.go` and `user.go`:

- `wrappers.dfy`: `Option`, standing for a Go pointer that may be nil.
- `envelope.dfy`: the message envelope as a datatype (not JSON), and the reply builders `Respond` and `ConnectAccepted`.
- `registry.dfy`: the server's channel map as pure functions.
  - `Insert` adds a key only when it is absent (`handleRegisterChannel`).
  - `Delete` removes a key.
  - `Replay` folds a sequence of register/unregister events over a map (`Run`).
  - Lemmas characterise the folded map through the last event for each key.
- `outbound.dfy`: the queue capacity, and the write pump's batching as a sequence of chunks. `FramesOfCoalesce` proves a batch carries the head frame and then every queued frame in order.
- `gochat.dfy`: the objects the source updates in place, as classes.
  - `Server` holds the channel registry.
  - `Channel` and `Group` hold membership maps.
  - `User` holds its identity, channel, its own group map, its outbound queue (`send` plus a `closed` flag) and an activity log.
  - Every handler is a method. Its `modifies` clause names the objects it may change, and its `ensures` states their new state through a two-state effect predicate (`ConnectEffect`, `JoinEffect`, `LeaveEffect`, `SendEffect`, …). Fields the source does not touch are stated unchanged.
  - `Dispatch` is one iteration of the read pump's `switch`. It records the activity, then calls the handler only when the guard holds: `user-connect` always, the others only when the user already has a channel.
  - `WritePumpStep` is one turn of the write pump.
- `scenarios.dfy`: four multi-step consequences proved from the handlers' contracts.
  - Two users connecting to the same channel ID, one after the other, share one registered channel. In the source, two connects handled concurrently can both find no channel at user.go:169 and create two; the scenario covers sequential connects only.
  - The last member leaving a group removes it from the channel, and joining again creates a fresh group.
  - Disconnecting removes a user from its channel but not from its groups. A later group send by another member still appends a copy to the disconnected user's closed queue and acknowledges the sender. In the source, that send panics (user.go:331 on a queue closed at user.go:210).
  - A connect naming another channel does not remove the user from the channel it was in (user.go:169-182). Suppose such a user, still in the old channel's user map, disconnects. A direct send from the old channel still appends the message to the user's closed queue and acknowledges the sender. In the source, that send panics (user.go:308).

Registering with a channel or a group is modelled as an immediate map update keyed by the entity's ID. In the source, this is a hand-off to the channel's or group's own goroutine.

Group broadcast iterates over a map. A user object stored under several keys
would receive one copy per key, so the contract counts copies by key
(`Copies`). `OneCopyPerMember` proves that every member other than the sender
gets exactly one copy when each member is stored under its own ID.

The group-leave handler (user.go:250) deletes the entry keyed by the *user's* ID
from the user's group map, not the entry for the group being left. The model
keeps this behaviour:

- `LeaveEffect` states it as written.
- `Gochat.User.HandleGroupLeave` also states the consequence: the group left stays in the user's group map, unless its ID happens to equal the user's ID.

Two points about the source's behaviour:

- The send handler checks only that a message body and a target are *present* (non-nil), not that the body is non-empty.
- A group is dropped from its channel when its membership is empty *after* the user is unregistered.

## Model

| member | source | states |
|---|---|---|
| Registry.Find | server.go:30-36 | the lookup yields a channel exactly when the ID is registered, and then the registered one |
| Registry.Insert | server.go:38-42 | after registering, the ID is present; an already registered channel is kept, otherwise the new one is stored; every other ID keeps its presence and its channel |
| Registry.Delete | server.go:44-46 | after unregistering, the ID is absent and every other ID keeps its presence and its channel |
| Registry.InsertTwice | server.go:38-42 | registering a second channel under an ID already taken changes nothing (first registration wins) |
| Registry.ReplayMembership | server.go:17-28 | after any sequence of register/unregister events, an ID is registered iff its last event is a registration, or it has no event and was registered before |
| Registry.ReplayUntouched | server.go:17-28 | events for other IDs never change an ID's presence or its channel |
| Gochat.Server.constructor | server.go:9-15 | a new server has no channels |
| Gochat.Server.FindChannelByID | server.go:30-36 | the result is non-nil exactly when the ID is registered, and then it is the registered channel; it agrees with `Registry.Find` on the registry |
| Gochat.Server.HandleRegisterChannel | server.go:38-42 | the registry becomes the insert-if-absent of the channel under its ID; channels stay keyed by their own ID |
| Gochat.Server.HandleUnregisterChannel | server.go:44-46 | the registry loses the channel's ID and nothing else |
| Gochat.Server.Run | server.go:17-28 | processing a sequence of events leaves the registry equal to the fold of those events over the initial registry |
| Gochat.ReplayKeepsKeyed | server.go:17-46 | if every channel is stored under its own ID, that stays true after any sequence of events |
| Envelope.Respond | user.go:189-197 | a reply is the request with only the response field replaced by the given status and code |
| Envelope.ConnectAccepted | user.go:184-192 | the connect reply is the request with the success text and a success response, all other fields unchanged |
| Gochat.ActivityOf | user.go:82-105 | each known command yields exactly one activity record of its own type (channel connect, message send, group join, group leave) carrying the message; an unknown command yields none |
| Gochat.User.constructor | user.go:48-56 | a new user has no channel, no groups, an empty open queue and no activity |
| Gochat.User.Dispatch | user.go:82-105 | one activity is logged per known command; connect always runs its handler; send, join and leave run theirs only when the user has a channel, otherwise nothing else changes; only message-send may touch other users' queues |
| Gochat.User.HandleUserConnect | user.go:163-201 | with user and channel present: the user takes the payload identity and either joins the registered channel or creates, registers and joins a new one, and is queued a success reply; otherwise the queue gets an invalid-payload reply; the keyed registry stays keyed |
| Gochat.User.HandleUserDisconnect | user.go:203-212 | a disconnect activity is logged, the user leaves its channel's user map, and its queue is closed |
| Gochat.User.HandleGroupJoin | user.go:214-244 | with a group: the named group (existing, or a new one with the payload identity) gains the user and is registered with the channel and the user, and a join reply is queued; without one, nothing changes |
| Gochat.User.HandleGroupLeave | user.go:246-275 | without a group: an invalid-payload reply; unknown group: no change; otherwise the group loses the user, is dropped from the channel when it becomes empty, a success reply naming the group is queued, and the user's own map loses the entry under the user's ID |
| Gochat.User.HandleSendMessage | user.go:277-293 | a body and a target must be present, else an invalid-payload reply; direct and group targets go to their handlers; any other target kind sends nothing |
| Gochat.User.HandleSendDirectMessage | user.go:295-320 | the target user's queue gets the message and the sender gets a success ack naming the target; an absent target gets a not-connected reply; no target user sends nothing |
| Gochat.User.HandlerSendGroupMessage | user.go:322-343 | every group member whose ID differs from the sender's receives the forwarded message (one copy per key holding it), and the sender gets a success ack; an unknown group sends nothing |
| Gochat.User.Broadcast | user.go:329-333 | each member except the sender ends with its old queue followed by as many copies of the message as keys hold it; the sender's queue is unchanged |
| Gochat.OneCopyPerMember | user.go:329-333 | when every member is stored under its own ID, every member other than the sender receives exactly one copy |
| Gochat.User.WritePumpStep | user.go:117-142 | a non-empty queue is fully drained into one batch made of the head frame and then every queued frame, each after a newline; an empty queue yields a close frame when closed and waits otherwise |
| Outbound.Coalesce | user.go:131-138 | the batch has 2n+1 chunks: the head frame, then each queued frame in order, each preceded by a newline |
| Outbound.FramesOfCoalesce | user.go:131-138 | removing the newlines from a batch gives back the head frame followed by the queued frames in order |
| Gochat.Channel.constructor | user.go:171-175 | a new channel has the payload's ID, name and info, and no users or groups |
| Gochat.Channel.FindUserByID | user.go:297 | the lookup is non-nil exactly when a user is registered under the ID, and then it is that user |
| Gochat.Channel.FindGroupByID | user.go:216 | the lookup is non-nil exactly when a group is registered under the ID, and then it is that group |
| Gochat.Channel.RegisterUser | user.go:182 | the user is stored under its own ID |
| Gochat.Channel.UnregisterUser | user.go:207 | the user's ID is removed |
| Gochat.Channel.RegisterGroup | user.go:228 | the group is stored under its own ID |
| Gochat.Channel.UnregisterGroup | user.go:254 | the group's ID is removed |
| Gochat.Group.constructor | user.go:218-222 | a new group has the payload's ID, name and info, and no users |
| Gochat.Group.RegisterUser | user.go:229 | the user is stored under its own ID |
| Gochat.Group.UnregisterUser | user.go:251 | the user's ID is removed |
| Scenarios.ConnectTwiceSameChannel | user.go:163-182 | two users connecting to the same channel ID end in the same registered channel, and both are its members |
| Scenarios.GroupSendAfterDisconnect | user.go:203-212 | after a group member disconnects, another member's group send still appends one copy to the disconnected member's closed queue and queues a success reply to the sender |
| Scenarios.DirectSendAfterMoveAndDisconnect | user.go:295-320 | a user still listed in a channel it has left, once disconnected, receives a direct send from that channel into its closed queue, and the sender gets a success reply |
| Scenarios.LeaveLastThenRejoin | user.go:214-275 | after the last member leaves a group and joins it again, the channel holds a new group object whose only member is that user |

## Left out

- Websocket I/O is not modelled: reading and writing frames, deadlines, the ping ticker, the pong handler and the read limit (`maxMessageSize`). The read loop itself is left out for the same reason; each of its iterations is `Dispatch`.
- JSON is not modelled. Envelopes are datatype values, and the canned texts and response codes are symbolic. A JSON decode failure, which ends the read loop (user.go:77-80), is therefore left out too.
- message.go, channel.go and group.go are not part of this model.
  - Their register and unregister operations are assumed to store or delete under the entity's ID, immediately.
  - Their goroutines (`Channel.Run`, `Group.Run`) and the server's registration channels become direct calls.
- Goroutines, blocking and races are not modelled.
  - A send into a full queue blocks in Go; the model's queue (`send`) is an unbounded sequence, and the 256 limit is only recorded as `QueueCapacity`.
  - The activity channel is unbuffered and blocks until read; the model appends to an `activity` log.
  - Concurrent handlers touching the same maps are not modelled.
- Gochat.User.HandleUserDisconnect: a later send on the closed queue panics in Go. The model only sets `closed` and does not forbid later sends. The modelled handlers do reach such sends. Disconnect leaves the user in its groups (`Scenarios.GroupSendAfterDisconnect`). A reconnect to another channel, or under another ID, leaves the user in its earlier channel's user map, which disconnect does not clean up (`Scenarios.DirectSendAfterMoveAndDisconnect`).
- Gochat.User.HandleSendDirectMessage: its contract matches the source only when the target's queue is open. A user that reconnected to another channel, or under another ID, is still in its earlier channel's user map. After it disconnects, a direct send from that channel reaches its closed queue, and user.go:308 panics with no reply to the sender. The model instead delivers the message and acknowledges the sender.
- Gochat.User.HandlerSendGroupMessage: its contract matches the source only when no member's queue is closed. If one is, user.go:331 panics, and the sender gets no reply. The model instead delivers to the closed queue and acknowledges the sender.
- Gochat.User.Broadcast: it appends to a member whose queue is closed, where user.go:331 panics. Its contract matches the source only when no member's queue is closed.
- Gochat.User.Broadcast: Go's map iteration order is random, so the order in which members receive the message is not stated. Only each member's final queue is stated, and that does not depend on the order.
- Gochat.ActivityOf: the source logs a pointer to the envelope it is dispatching (user.go:84-100). The send handlers later write the resolved target user or group through the envelope's shared `Target` pointer (user.go:311, 327), so a reader of the activity stream may see those values. The model logs the envelope as received and does not model this aliasing.
- Logging is left out.
- Gochat.User.WritePumpStep: a write error or a failed writer close ends the pump in the source. That path is transport I/O and is not modelled.
