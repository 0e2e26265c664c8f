# Peer multiplexer, countdown-timer middleware and data-consumer close protocol

A Dafny model of three small state machines in the room server.

- **Peer** (`peer.dfy`, module `Peers`). A peer holds these things:
  - a list of signalling connections kept in ascending priority order;
  - a role list that always starts with the baseline `NORMAL` role;
  - maps of owned transports, producers and consumers;
  - an optional router whose `peers` registry it joins.

  Its operations are modelled as methods of a `Peer` class:
  - role add and remove;
  - connection attach, with the one-shot `token` notification;
  - outbound `notify` and `request`, which fail over along the list;
  - the reply to an inbound request;
  - the handler run when a connection closes;
  - the close cascade.

  Everything the peer emits or sends goes into an append-only log (`Effect`).
- **Countdown timer** (`countdown_timer.dfy`, module `CountdownTimer`). This is the pipeline handler for the four `moderator:*CountdownTimer` methods, plus the per-second tick it schedules. The handler updates the room's timer record, broadcasts, marks the message handled, and then calls `next()` exactly once. Broadcasts and the `next()` call go into a log.
- **Data consumer** (`data_consumer.dfy`, module `DataConsumers`). This is an object that goes from open to closed once. A local close sends one `closeDataConsumer` notification to the media node. A remote close, including the one triggered when the control connection closes, sends nothing back.

`messages.dfy` (module `Messages`) holds the shared wire shapes. A message is `{method, data}`, where `data` maps keys to values. A string is `Time(s)` when it has the strict `HH:mm:ss` form with hours below 24, denoting `s` seconds after midnight, and `Text` otherwise. The argument of `Text` has a type that excludes `HH:mm:ss` strings, so every string has exactly one representation (`FromString`, `StringRoundTrip`). `Undefined` is what JavaScript yields for a missing key.

Each class method is tied to a pure function of the old state by its `ensures`, for example `DataConsumer.Close` to `CloseStep`, `TimerMiddleware.Handle` to `Dispatch`, and `Peer.AddConnection` to `InsertByPriority`. The source's promises are then proved as lemmas about those functions. The pure functions are:
- role-list functions;
- priority insertion;
- filtering;
- first-success search;
- timer dispatch and tick;
- the consumer's lifecycle step.

Modelling choices:
- The token is given to the constructor.
- The outcome of each outbound attempt is an input: `Connection -> bool` for `notify`, and `Connection -> Outcome` for `request`. An `Outcome` is `Failed` (the request threw) or `Resolved(response)`, where the response may itself be `undefined`.
- The outcome of the pipeline run on an inbound request is an input: `PipelineRun`.
- The wall-clock time for `raisedHand` is a parameter.
- `room.empty` is a parameter of the tick.
- The id of `userRoles.NORMAL` is a constant with no fixed value, because `src/common/authorization` is not part of this model. No proof depends on its value.

### Behaviour as written, kept in the model

- **Tick from 00:00:00.** The tick stops when the decremented number of seconds equals midnight. So a timer started at `00:00:00` does not stop on its first tick. It wraps to `23:59:59` and keeps running for a full day (`StartedAtZeroRunsADay`).
- **Unparsable `left`.** A `left` that does not represent a time becomes `'Invalid date'`. It then never triggers the stop test, so from the tick only an empty room stops that timer. A `moderator:stopCountdownTimer` request still stops it.
- **Router setter.** The `router` setter has no closed guard. It also leaves a peer registered in any router it was attached to before.

## Model

| member | source | states |
|---|---|---|
| Peers.CanAddRole | src/Peer.ts:146-149 | `addRole`'s guard: the role is neither present nor `NORMAL` (its consequences are the lemmas below) |
| Peers.CanRemoveRole | src/Peer.ts:156-159 | `removeRole`'s guard: the role is present and is not `NORMAL` |
| Peers.AddedRole | src/Peer.ts:146-151 | the role list after `addRole`: the role appended when the guard holds, the list unchanged otherwise |
| Peers.RemovedRole | src/Peer.ts:156-161 | the role list after `removeRole`: the entry at `findIndex` spliced out when the guard holds, the list unchanged otherwise |
| Peers.FindRole | src/Peer.ts:146 | `findIndex` by id: -1 exactly when no role has the id, otherwise the first index holding it |
| Peers.AddRoleKeepsRolesValid | src/Peer.ts:144-152 | adding a role keeps `NORMAL` first and role ids distinct, makes the role present and keeps earlier roles in place |
| Peers.RemoveRoleKeepsRolesValid | src/Peer.ts:154-162 | removing a role never removes `NORMAL`, keeps ids distinct, leaves no role with the removed id and keeps every other role |
| Peers.RoleChangeIffGuard | src/Peer.ts:144-162 | the role list changes (so `gotRole`/`lostRole` is emitted) if and only if the role is absent/present and is not `NORMAL` |
| Peers.AddRoleIdempotent | src/Peer.ts:146-151 | adding an already present role changes nothing: adding twice equals adding once |
| Peers.AddThenRemoveRole | src/Peer.ts:144-162 | removing a freshly added non-baseline role restores the exact previous list |
| Peers.InsertByPriority | src/Peer.ts:168-174 | push-and-sort yields a list one longer than before |
| Peers.InsertionPoint | src/Peer.ts:169-174 | the new connection's slot: after every connection of priority at most its own, before the first of greater priority |
| Peers.InsertByPriorityIsStable | src/Peer.ts:168-174 | the result is the old list split at the insertion point with the new connection in between (stable sort, ties keep attach order) |
| Peers.InsertByPriorityPermutes | src/Peer.ts:168 | the result is a permutation of the old list plus the new connection |
| Peers.InsertByPriorityKeepsSorted | src/Peer.ts:169-174 | attaching to a sorted list gives a list sorted ascending by priority |
| Peers.Without | src/Peer.ts:220 | the filter keeps exactly the connections whose id differs, and keeps the list sorted |
| Peers.WithoutKeepsOrder | src/Peer.ts:220 | the filter keeps order and multiplicity: it distributes over concatenation and keeps a single connection exactly when its id differs |
| Peers.WithoutEmptyIff | src/Peer.ts:219-224 | the list becomes empty (and the peer closes) if and only if every remaining entry had the closed connection's id; filtering is idempotent |
| Peers.FirstAccepting | src/Peer.ts:236-242 | index of the first connection whose attempt succeeds; all earlier ones failed |
| Peers.Tried | src/Peer.ts:236-245 | the connections attempted form a prefix of the list, all but the last failed, the last succeeded unless every connection failed, in which case all were tried |
| Peers.FirstReply | src/Peer.ts:251-260 | `request` resolves to the response of the first connection whose request does not throw, whatever it is, `undefined` included; it is `undefined` if and only if every connection throws or the first one that does not throw answers `undefined` |
| Peers.ReplyTo | src/Peer.ts:194-217 | an inbound request is answered by `respond(context.response)` exactly when the pipeline finished with `handled`, otherwise (or on a throw) by `reject('Server error')` |
| Peers.CloseAll | src/Peer.ts:104-106 | every owned producer, consumer and transport is closed |
| Peers.Peer.Info | src/Peer.ts:266-275 | `peerInfo` carries the peer's fields and the role ids in list order, `NORMAL`'s first |
| Peers.Peer.constructor | src/Peer.ts:56-95 | a new peer is open with roles `[NORMAL]`, empty maps, display name defaulting to `'Guest'`, and an optional first connection attached |
| Peers.Peer.SetRaisedHand | src/Peer.ts:126-129 | the setter records the flag and the given time |
| Peers.Peer.SetRouter | src/Peer.ts:135-142 | an absent router is ignored; otherwise the router is remembered and the peer registered under its id |
| Peers.Peer.AddRole | src/Peer.ts:144-152 | on an open peer roles become `AddedRole(...)` and one `gotRole` is logged exactly when the guard holds; on a closed peer nothing changes |
| Peers.Peer.RemoveRole | src/Peer.ts:154-162 | on an open peer roles become `RemovedRole(...)` and one `lostRole` is logged exactly when the guard holds; on a closed peer nothing changes |
| Peers.Peer.AddConnection | src/Peer.ts:164-230 | on an open peer the connection is inserted by priority and receives exactly one `token` notification carrying the peer's token; closed: no-op |
| Peers.Peer.Notify | src/Peer.ts:232-245 | the log gains one `notify` attempt per connection in `Tried`, in list order; a closed peer sends nothing |
| Peers.Peer.Request | src/Peer.ts:247-260 | the log gains one `request` attempt per connection up to and including the first that does not throw, and the result is `FirstReply`; a closed peer sends nothing and resolves to `undefined` |
| Peers.Peer.OnRequest | src/Peer.ts:194-217 | an inbound request gets exactly one reply, `ReplyTo(run)` |
| Peers.Peer.Close | src/Peer.ts:97-120 | sets `closed` first; a second close changes nothing, neither the peer, its resources nor its router; otherwise connections and maps end empty, each connection is closed once, the peer leaves its router's `peers`, owned resources are closed and `close` is emitted once |
| Peers.Peer.TearDown | src/Peer.ts:103-119 | the cascade: closes connections in order, closes resources, deregisters, empties the list and maps, then emits `close` |
| Peers.Peer.ReleaseResources | src/Peer.ts:104-117 | every owned producer, consumer and transport is closed, the peer leaves its router's `peers`, and the three maps end empty |
| Peers.Peer.Deregister | src/Peer.ts:108-112 | the peer's id is deleted from its router's `peers` |
| Peers.Peer.CloseConnections | src/Peer.ts:103 | one `close()` per connection, in list order |
| Peers.Peer.OnConnectionClose | src/Peer.ts:219-224 | every entry with the closed connection's id is dropped; the peer closes, with the full cascade, if and only if the list becomes empty; otherwise its maps, its resources and its router are untouched, and on an already closed peer nothing changes |
| Messages.Field | src/middlewares/countdownTimerMiddleware.ts:35 | destructuring a key out of `message.data`: the key's value, `undefined` when absent |
| Messages.ClockString | src/middlewares/countdownTimerMiddleware.ts:85 | `format('HH:mm:ss')` of a time of day gives an `HH:mm:ss` string that reads back as that time |
| Messages.FromString | src/middlewares/countdownTimerMiddleware.ts:80 | every string gets exactly one value: a time of day exactly when it has the strict `HH:mm:ss` form with hours below 24, text otherwise (the other forms `moment` accepts are under Left out) |
| Messages.StringRoundTrip | src/middlewares/countdownTimerMiddleware.ts:80-85 | reading a string as a value and writing it back gives the same string; a formatted time reads back as the same time |
| CountdownTimer.ReachesEnd | src/middlewares/countdownTimerMiddleware.ts:80-94 | the stop test `left === end`: the time shown before the decrement is 00:00:01; a non-time never passes it |
| CountdownTimer.Ticks | src/middlewares/countdownTimerMiddleware.ts:79-107 | the record after n firings of the interval in a room that stays occupied |
| CountdownTimer.Dispatch | src/middlewares/countdownTimerMiddleware.ts:30-142 | the four timer methods set their fields, broadcast as the source does (toggle excluding the sender, stop only when running) and set `handled`; any other method leaves state and `handled` alone and broadcasts nothing; running iff scheduled is preserved |
| CountdownTimer.TickLeft | src/middlewares/countdownTimerMiddleware.ts:80-85 | one second earlier, 00:00:00 wrapping to 23:59:59; a non-time becomes 'Invalid date' |
| CountdownTimer.TickStep | src/middlewares/countdownTimerMiddleware.ts:79-107 | a tick sends every peer `moderator:setCountdownTimer` with the starting peer's id, `isEnabled`, the decremented `left` and `isRunning`; when the shown time was 00:00:01 or the room is empty it also stops the timer, resets `left` to 00:00:00 and sends every peer a second `moderator:setCountdownTimer` with the starter's id, `left` 00:00:00 and `isRunning` false; nothing fires when no interval is scheduled |
| CountdownTimer.CountsDownToZero | src/middlewares/countdownTimerMiddleware.ts:79-105 | a timer showing n >= 1 seconds shows n - k after k < n ticks and is stopped at 00:00:00 after exactly n |
| CountdownTimer.StartedAtZeroRunsADay | src/middlewares/countdownTimerMiddleware.ts:80-94 | a timer started at 00:00:00 wraps to 23:59:59 on its first tick, is still running and shows 86400 - k seconds after each tick k < 86400, and stops at tick 86400 |
| CountdownTimer.StopIsIdempotent | src/middlewares/countdownTimerMiddleware.ts:114-138 | a second stop changes nothing and broadcasts nothing but is still handled |
| CountdownTimer.TimerMiddleware.constructor | src/middlewares/countdownTimerMiddleware.ts:10-18 | the middleware starts with no interval scheduled, over the room's timer record |
| CountdownTimer.TimerMiddleware.Handle | src/middlewares/countdownTimerMiddleware.ts:18-145 | state and `handled` follow `Dispatch`; the log gains its broadcasts followed by exactly one `next()` |
| CountdownTimer.TimerMiddleware.Tick | src/middlewares/countdownTimerMiddleware.ts:79-107 | the timer record and the interval follow `TickStep`, and its broadcasts are logged |
| DataConsumers.CloseStep | src/media/DataConsumer.ts:65-82 | `close(false)` on an open consumer sets `closed`, adds exactly one `closeDataConsumer {routerId, dataConsumerId}` and one `close` event; `close(true)` adds the event only; a closed consumer is unchanged |
| DataConsumers.ConnectionCloseStep | src/media/DataConsumer.ts:84-89 | the connection's first `close` runs `close(true)`, never sending a notification; later ones do nothing |
| DataConsumers.LifetimeConsistent | src/media/DataConsumer.ts:65-82 | over any sequence of calls and connection closes, `close` is emitted once if closed and never otherwise, and at most one close notification is sent, only once closed |
| DataConsumers.ClosedIsTerminal | src/media/DataConsumer.ts:65 | after closing, nothing sends a notification or emits `close` again |
| DataConsumers.NoCloseLoop | src/media/DataConsumer.ts:71-88 | a consumer closed remotely, or by its connection closing, never notifies the media node |
| DataConsumers.LocalCloseNotifiesOnce | src/media/DataConsumer.ts:71-79 | a local close sends exactly one close notification over the rest of the object's life |
| DataConsumers.DataConsumer.constructor | src/media/DataConsumer.ts:39-63 | a new consumer is open, holds the given router id, connection, ids and parameters, `appData` defaults to `{}`, and listens for its connection's close |
| DataConsumers.DataConsumer.HandleConnection | src/media/DataConsumer.ts:84-89 | the one-shot listener is registered unless the consumer is closed |
| DataConsumers.DataConsumer.Close | src/media/DataConsumer.ts:65-82 | the state and the connection's notifications follow `CloseStep` |
| DataConsumers.DataConsumer.OnConnectionClose | src/media/DataConsumer.ts:88 | the state and the connection's notifications follow `ConnectionCloseStep` |

## Left out

- Inbound notifications (src/Peer.ts:176-192): the handler's only effect of its own is an error log line when the pipeline did not handle the notification, so it is not modelled.
- The pipeline (imported from the common middleware module): its run on an inbound request is the input `PipelineRun`.
- The JWT signing in `assignToken`: the token is a constructor argument.
- `Date.now()`: the raised-hand time is a parameter.
- mediasoup transports, producers, consumers and routers: these are foreign objects. Each is an object with an id and a closed flag, and a router is just its `peers` registry. The data consumer keeps only its router's id, because that is all it uses.
- Connections: each is modelled as a record `{id, priority}`. Their own `close` events during the close cascade are not replayed. If one fires while the cascade runs, its handler filters the still-full list, and its `close()` is skipped because the peer is already closed. The cascade's `forEach` runs over the original array and the list is emptied afterwards, so the end state is the same.
- Asynchrony and event-emitter wiring: each operation runs to completion without interleaving, and handler registration is implicit in `OnRequest` and `OnConnectionClose`.
- Iteration order over the owned resource maps is not modelled, and neither is closing a transport closing what it carries. The end state, with every owned resource closed, does not depend on either.
- `setInterval`/`clearInterval` scheduling: the interval handle is `ticker`, and each firing is a call of `Tick`.
- `moment` parsing and formatting: a time is seconds after midnight, and the model assumes no daylight-saving offset on 1000-01-01. Only the strict `HH:mm:ss` form with hours below 24 is read as a time. The source also counts down the other forms `moment` parses, and those are not modelled. Examples are `HH:mm`, `HH` alone, fractional seconds, a zone suffix, `24:00:00`, and strings `moment` hands on to `Date`. In the model these become `'Invalid date'` on the first tick, and after that only an empty room or a stop request ends that timer.
- Data values: a `Value` is a string, a boolean or `undefined`. Numbers, `null`, arrays and nested objects sent in `data` are not modelled. A `request` response is modelled only as an object (`Data`) or `undefined`.
- The commented-out permission checks and session check in the countdown middleware are not live code, so they are not modelled.
- Logging (`logger.*`) is not modelled.
- DataConsumers.LifetimeConsistent: the `sent` of the lifecycle is the whole notification log of the media-node connection. Its bound of at most one close notification therefore holds for a connection that serves one data consumer. Several consumers interleaving on a shared connection are not modelled.
- `Peers.InsertByPriority`: its own contract states only the length. Sortedness, permutation and stability are the lemmas beside it.
- src/server.ts (TLS, socket listener, signal handlers) is not part of this model.
