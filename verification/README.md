# Chat room hub, modelled in Dafny

This project models one chat room of the `chat_room` package: the hub that
owns a room's membership set and its message history. It serialises
register, unregister and broadcast requests through a single control loop.
It replays the most recent history to a client and broadcasts the member
count whenever someone joins or leaves.

Three modules:

- `ChatType` (`chat_type.dfy`) holds the wire message: a type tag, a room
  name and a payload. It also defines which tags are persisted: `text`,
  `image` and `file`.
- `RoomSpec` (`room_spec.dfy`) is the pure specification:
  - the replay window (`HistoryWindow`, `Replay`, at most 100 messages,
    oldest first, then an `over` marker);
  - the user-count notice (`UserCountNotice`);
  - the control loop as a function over events (`Step`, `Run`,
    `DeliveredTo`), with lemmas about whole runs.
- `ChatRoom` (`room.dfy`) is the imperative model. Class `Room` has the
  membership set, the history, a per-client outbox and the set of stopped
  clients as fields. Its methods are the loop's branches and the room's
  operations, each proved against `RoomSpec`.

A client is known by identity only (`ClientId`). Sending to a client
appends to its outbox. Stopping a client adds it to `stopped`. Writing the
room to the store is counted in `writes`.

## Model

| member | source | states |
|---|---|---|
| `ChatRoom.Room.constructor` | chat_room/room.go:35-46 | A new room keeps the given name and stored history. It has no clients, no stopped clients and empty outboxes. |
| `ChatRoom.Room.UserCount` | chat_room/room.go:163-165 | The user count is the size of the membership set; it is zero exactly when the room has no members. |
| `ChatRoom.Room.Register` | chat_room/room.go:131-132 | The client joins the membership set. Registering a present client leaves the set unchanged. The history and the outboxes are untouched. |
| `ChatRoom.Room.Unregister` | chat_room/room.go:134-138 | A member is removed and stopped, so the count drops by exactly one. A non-member changes nothing. |
| `ChatRoom.Room.Send` | chat_room/room.go:89-91 | Sending appends the message to that client's outbox. Every other outbox is unchanged. |
| `ChatRoom.Room.FanOut` | chat_room/room.go:149-151 | Each target client receives the message exactly once, whatever order the loop takes the clients in; no other client receives anything. |
| `ChatRoom.Room.Broadcast` | chat_room/room.go:143-151 | A text, image or file message is appended at the end of the history and causes one store write. Any other type leaves the history alone. Either way every member, and nobody else, receives it once. Membership is unchanged. |
| `ChatRoom.Room.SendHistory` | chat_room/room.go:79-92 | The client receives `Replay(history, name)`: the last min(n, 100) history messages, oldest first, then one `over` marker carrying the room name. No other state changes. |
| `ChatRoom.Room.NotifyUserCount` | chat_room/room.go:98-121 | The notice carries the current member count. It is broadcast to every member, and to no one when the room is empty, because then no notice is emitted. The history is unchanged. |
| `ChatRoom.Room.Join` | chat_room/room.go:72-75 | The client is registered. Then every member, the newcomer included, receives one `userCount` notice with the new count. |
| `ChatRoom.Room.Leave` | chat_room/room.go:66-70 | The client is unregistered (and stopped if it was a member). The remaining members receive the new count. When the room is now empty, no notice is emitted. |
| `ChatRoom.Room.Handle` | chat_room/room.go:125-152 | One turn of the loop takes the room from one snapshot to `Step` of it. Each member at that moment receives the broadcast message, if there is one. |
| `ChatRoom.Room.Serve` | chat_room/room.go:123-154 | Handling a sequence of events leaves the room in `Run` of them. Each client's outbox grows by exactly `DeliveredTo` for that client. |
| `ChatRoom.SendHistoryTwice` | chat_room/room.go:79-92 | Two history replays with nothing in between deliver the identical sequence twice, each ending in the `over` marker. |
| `ChatRoom.LobbyOpening` | chat_room/room.go:72-75 | In a fresh room "lobby", A joins and then B joins. A has received counts 1 and 2, B count 2. The history is still empty. |
| `ChatRoom.LobbyScenario` | chat_room/room.go:123-154 | Walk-through: A joins, B joins, A says "hi", B leaves. A gets counts 1 and 2, then "hi", then count 1. B gets count 2 and "hi". The history is just "hi". |
| `ChatType.Persistable` | chat_room/room.go:144-145 | Exactly `text`, `image` and `file` messages are stored. So an `over` marker or a `userCount` notice never enters the history. |
| `RoomSpec.HistoryWindow` | chat_room/room.go:81-86 | The replay window has min(n, 100) messages and is exactly the suffix of the history of that length. |
| `RoomSpec.Replay` | chat_room/room.go:79-92 | A replay is min(n, 100) + 1 messages long. All but the last are the most recent history messages in their original order. The last is the room's `over` marker. |
| `RoomSpec.HistoryWindowAppend` | chat_room/room.go:81-86 | Appending a message slides the window. Below 100 messages it just grows. At 100 or more its oldest message drops out and the new one comes in last. |
| `RoomSpec.ReplayOfLongHistory` | chat_room/room.go:79-92 | Suppose at least 100 messages follow an older history. Then a replay is the last 100 of them plus the marker, with nothing older (e.g. 150 messages give messages 51 to 150). |
| `RoomSpec.UserCountNotice` | chat_room/room.go:101-120 | There is a notice iff the count is positive. It is a `userCount` message whose payload carries exactly that count and the room name, and it is never persistable. |
| `RoomSpec.Step` | chat_room/room.go:131-151 | One turn of the loop as a function (no contract of its own; its properties are the `StepCount` row). Register adds the client. Unregister removes and stops a member and ignores a non-member. Broadcast appends a persistable message to the history and counts one store write. |
| `RoomSpec.Run` | chat_room/room.go:123-154 | The loop over a sequence of events, oldest first (no contract of its own; its properties are the `RunHistory`, `RunMembership` and `Serve` rows). |
| `RoomSpec.StepCount` | chat_room/room.go:131-151 | Only registering an absent client grows the membership, by one. Only unregistering a member shrinks it, by one. Broadcasts never change membership. Membership events never touch the history. |
| `RoomSpec.RunHistory` | chat_room/room.go:143-148 | After any run, the history is the old history followed by exactly the persistable broadcasts in submission order. The store was written once for each of them. |
| `RoomSpec.RunMembership` | chat_room/room.go:131-138 | After any run, a client is a member iff its last register/unregister request was a register, or it made none and was a member before. Repeated unregisters never double-count. |
| `RoomSpec.SteadyMemberSeesEveryBroadcast` | chat_room/room.go:149-151 | A member that makes no membership request receives every broadcast, persisted or not, in submission order. |
| `RoomSpec.SameOrderForSteadyMembers` | chat_room/room.go:143-151 | Two clients that stay members throughout see the same broadcasts in the same order. |
| `RoomSpec.DeliveredInBroadcastOrder` | chat_room/room.go:131-151 | Every client, whatever it joins or leaves along the way, receives an order-preserving subsequence of the broadcasts. A client may miss broadcasts, but never receives them out of submission order. |
| `RoomSpec.EmptyRoomBroadcasts` | chat_room/room.go:145-151 | Broadcasts into an empty room reach no one. Their persistable messages still enter the history. |
| `RoomSpec.PersistableBroadcastsFillHistory` | chat_room/room.go:144-146 | When every event broadcasts a text, image or file message, the history grows by exactly those messages, in order. |

## Left out

- Goroutines, channels, `select`, the room's and clients' cancellation contexts, and the `sync.Once` in `Serve` (chat_room/room.go:123-130, 156-161). The loop is modelled as `Serve` over a sequence of events handled one after another.
- `Stop` (chat_room/room.go:167-169) is not modelled. It cancels the room's context, which closes the request channels, ends the loop and cancels every client context. It is concurrency plumbing, and requests after it are undefined.
- `UserJoin`'s construction of the client around its websocket (chat_room/room.go:54-71). The `Client` type is not part of this model. A client is an opaque `ClientId`. `Send` appends to its outbox and `Stop` marks it stopped.
- Send-after-teardown errors. The client's `Send` error is not modelled: room.go discards every such error, and the `Client` type is not part of this model. A stopped client that is registered again receives messages like any member.
- The client's own teardown (its read/write loops and when it calls its leave callback) is not modelled, because the `Client` type is not part of this model.
- `ChatRoom.Room.Join`, `ChatRoom.Room.Leave`, `ChatRoom.Room.UserCount`, `ChatRoom.Room.SendHistory`: in the source these read the room's state outside the control loop, in the caller's goroutine. `Join` and `Leave` read the member count right after handing their request to the loop (chat_room/room.go:68-75). `UserCount` reads the membership map (chat_room/room.go:163-165). `sendHistory` reads the history (chat_room/room.go:79-92). Each read can race with the loop. The model gives each one the exact current state, and for `Join` and `Leave` it applies the request first, then reads the count.
- `chat_db.WriteChatInfoToLocalFile` (chat_room/room.go:147). File persistence in another package, whose error is ignored. Only the fact that a write happened is recorded, in `writes`.
- `json.Marshal` of the count payload and its error branch (chat_room/room.go:111-115). The payload carries the count and room name directly. Marshalling this two-field struct cannot fail, so the early return is not modelled.
- `sendRoomList` / `ListChatRoom` and the message's `ChatRoomList` field (chat_room/room.go:94-96). They belong to the room directory, which is not part of this model.
- `slog` logging throughout: no behavioural effect.
- The commented-out removal of an empty room (chat_room/room.go:139-142). It is not active code, and the model keeps an empty room.

Two details of chat_room/room.go that the model keeps as written:

- The count notice is sent from the joining or leaving client's side of the room (chat_room/room.go:69, 75). It is not sent from inside the loop.
- The `userCount` message itself carries an empty room name. The name travels only inside the payload (chat_room/room.go:106-120).
