# Pending-delivery queue of the URL shortener, in Dafny

The storage layer of the URL shortener (`src/storage/storage.ts`) delivers
each shortened URL to the client that asked for it over a WebSocket. The
delivery is meant to be at least once. Each message is kept in the Map
`pendingDeliveries` until the client acknowledges it, or until a periodic
sweep finds that it has used up its retries. The one exception is an id
collision: a new message with the same id replaces the old one. The Map is
written to a pending-deliveries file after each change and reloaded at
start-up. The one exception is a send that throws: the counters it bumped
are not saved. Both exceptions are described below. A second Map,
`wsClients`, binds each client id to its current channel.

The model has four modules:

- `Messages` (messages.dfy): the `PendingMessage` record, the outbound
  payload, inbound frames with JavaScript truthiness of `ack` and
  `messageId`, and the policy constants. The retry delay is 30 000 ms and
  the ceiling for a new entry is 5.
- `Transitions` (transitions.dfy): the whole state as one `Store` value
  and one pure transition per operation:
  - `Deliver` is `deliverMessage`;
  - `Enqueue` is `sendShortenedUrlToClient`;
  - `Register` is `registerWsClient` followed by `retryPendingForClient`;
  - `Close` is the `close` handler;
  - `Ack` is the `message` handler;
  - `Sweep` is the body of the scheduled job;
  - `Loaded` is the start-up load.
  
  The `Store` value holds the Map with its iteration order, the client
  bindings and the set of OPEN channels. It also holds, as the model's own
  bookkeeping, the content of the file and the log of every payload written
  to a channel.
- `Storage` (storage.dfy): class `Storage`. Its fields are the two Maps and
  the iteration order, the OPEN channels, and the file and the sent log as
  ghost fields. Its methods follow the TypeScript functions statement by
  statement. The reconnect flush and the sweep are loops over a snapshot
  of the Map's key sequence. The start-up load loops over the set of keys
  read from the file and takes them in an unspecified order. Each method is
  proved to change the abstract state exactly as one transition does:
  - `SetPending` does `Put`, `DeletePending` does `Delete`, and
    `SavePendingDeliveries` does `Save`;
  - `DeliverMessage` does `Deliver`;
  - `SendShortenedUrlToClient` does `Enqueue`;
  - `RetryPendingForClient` does `DeliverAll` over `ClientKeys`;
  - `RegisterWsClient` does `Register`;
  - `OnClose` does `Close`, and `SocketClosing` does `Closing`;
  - `OnMessage` does `Ack`;
  - `ScheduledSweep` does `Sweep`;
  - the constructor produces the Map `Loaded` gives.
- `Properties` (properties.dfy): what the transitions guarantee. This
  covers each operation on its own, whole runs of events, and a worked
  scenario.

Environment inputs are parameters:
- the current time is `now`;
- the generated message id is a parameter of the enqueue;
- whether `ws.send` throws is a flag, or for the loops the set of message
  ids whose send throws;
- the file's content at start-up is `Option<map>`, and `None` means the
  file is absent or does not parse.

Where the code does not do what an at-least-once queue is usually meant
to do, the model follows the code:
- The usual order is to persist the bumped counters and then send.
  `deliverMessage` instead bumps the counters, then sends, and saves only
  when the send did not throw. A failed send therefore leaves the file
  behind memory (`SendFailureLeavesFileStale`).
- `maxRetries` is meant as a ceiling on attempts. Enqueue and the
  reconnect flush never look at it, so attempts can exceed the ceiling
  (`RegisterIgnoresCeiling`).
- Closing a channel would be expected to unbind only that channel. The
  `close` handler deletes the binding of the client id it captured, so the
  late close of a replaced channel unbinds the newer one
  (`StaleCloseUnbindsNewerChannel`).
- Message ids are meant to be unique. `Map.set` on an existing id
  overwrites the entry and resets its attempts (`EnqueueCollisionResets`).
  The whole-run lemmas therefore assume fresh message ids.

An ack frame rewrites the file even when the id is no longer pending.
There is one exception: the handler first logs the id inside a template
string. An id that cannot be converted to a string, such as the object
`{"toString": 0}`, makes that log line throw. The handler's catch then
runs, and nothing is deleted or saved.

## Model

| member | source | states |
|---|---|---|
| `Storage.Storage.constructor` | src/storage/storage.ts:29-35 | the Map is rebuilt entry by entry from the file (empty when it is absent or unparsable), with no bindings and nothing sent; the iteration order lists each key once |
| `Storage.Storage.SetPending` | src/storage/storage.ts:113 | `Map.set`: the entry is stored; a new key goes last in iteration order and an existing key keeps its place |
| `Storage.Storage.DeletePending` | src/storage/storage.ts:62 | `Map.delete`: the key leaves the Map and the iteration order; a missing key is a no-op |
| `Storage.Storage.SavePendingDeliveries` | src/storage/storage.ts:47-50 | the file receives a snapshot of the whole in-memory Map and nothing else changes |
| `Storage.Storage.DeliverMessage` | src/storage/storage.ts:81-102 | the new state is `Deliver` of the old one: early return when the id is not pending or the channel is absent or not OPEN, otherwise bump, then send, then save unless the send threw |
| `Storage.Storage.SendShortenedUrlToClient` | src/storage/storage.ts:104-116 | the new state is `Enqueue` of the old one: set a fresh entry, save, then one delivery attempt |
| `Storage.Storage.RetryPendingForClient` | src/storage/storage.ts:72-79 | one delivery per entry of the client, in Map order, over the list taken before the first attempt (`DeliverAll` of `ClientKeys`) |
| `Storage.Storage.RegisterWsClient` | src/storage/storage.ts:52-53 | the new state is `Register` of the old one: bind the client to the new OPEN channel, then flush its entries |
| `Storage.Storage.OnClose` | src/storage/storage.ts:54-56 | the channel is no longer OPEN and the captured client id is unbound; the queue is untouched |
| `Storage.Storage.SocketClosing` | src/storage/storage.ts:85 | a channel leaves the OPEN state, which is what the `readyState` test of `deliverMessage` observes; nothing else changes |
| `Storage.Storage.OnMessage` | src/storage/storage.ts:57-68 | the new state is `Ack` of the old one: on a truthy `ack` and a `messageId` that converts to a string, delete that id (a non-string id matches no key) and save; otherwise nothing changes |
| `Storage.Storage.ScheduledSweep` | src/storage/storage.ts:118-133 | the new state is `Sweep` of the old one: each entry in Map order is retried, dropped and saved, or left alone |
| `Transitions.Without` | src/storage/storage.ts:129 | the iteration order after a delete holds exactly the other keys, still without duplicates |
| `Properties.WithoutKeepsOrder` | src/storage/storage.ts:62 | a delete keeps the other keys in their relative order: removing `k` from `before + [k] + after` leaves `before + after` |
| `Transitions.ClientKeys` | src/storage/storage.ts:73 | the list the flush iterates holds exactly the pending ids whose client is the one registering, without duplicates |
| `Transitions.DueKeys` | src/storage/storage.ts:123-124 | the ids the sweep retries are exactly the pending ones with `now - lastAttempt > 30000` and `attempts < maxRetries` |
| `Transitions.Outbox` | src/storage/storage.ts:91-97 | every payload a run of deliveries writes names a listed, deliverable id whose send did not throw, and carries that entry's channel and url |
| `Transitions.PutWellFormed` | src/storage/storage.ts:33 | `Map.set` keeps the iteration order listing every key exactly once |
| `Properties.DeliverNotPending` | src/storage/storage.ts:81-83 | delivering an id that is not pending changes no state and sends nothing |
| `Properties.DeliverWithoutChannel` | src/storage/storage.ts:84-87 | with no registered or no OPEN channel for the client, nothing changes: same attempts, same last attempt, nothing sent |
| `Properties.DeliverWithChannel` | src/storage/storage.ts:88-101 | with an OPEN channel: attempts +1 and last attempt = now for that entry only; `{messageId, url}` goes to the client's channel and the file is rewritten, unless the send throws |
| `Properties.DeliverStep` | src/storage/storage.ts:81-102 | one delivery touches only the entry it names and writes at most its payload |
| `Properties.SendFailureLeavesFileStale` | src/storage/storage.ts:96-101 | after a send that throws, the file keeps the old counters while memory holds the bumped ones |
| `Properties.EnqueueEffect` | src/storage/storage.ts:104-116 | enqueue inserts the entry with attempts 0, last attempt 0 and ceiling 5 for the given client and url; afterwards attempts is 1 (last attempt now, payload sent) if the client had an OPEN channel, else 0; other entries unchanged; the file holds the entry |
| `Properties.EnqueueCollisionResets` | src/storage/storage.ts:105-113 | enqueue with an id that is already pending overwrites that entry and loses its attempts |
| `Properties.RestartRestoresQueue` | src/storage/storage.ts:29-35 | after an enqueue whose send succeeded, from any state, including a file that lagged behind, reloading the file reproduces the Map, with attempts 1 for the new entry |
| `Properties.AckRemoves` | src/storage/storage.ts:60-63 | an ack for `m` removes `m` from the Map and from the file, and changes nothing else |
| `Properties.WithoutIdempotent` | src/storage/storage.ts:62 | deleting the same key twice leaves the same iteration order as deleting it once |
| `Properties.AckIdempotent` | src/storage/storage.ts:57-67 | handling the same inbound frame twice gives the same state as handling it once |
| `Properties.NonAckKeepsPending` | src/storage/storage.ts:58-67 | a frame that does not parse, lacks a truthy `ack` or `messageId`, or names a non-string id leaves the Map unchanged. A non-ack, or an id whose conversion to a string throws, changes nothing at all. Any other ack with a non-string id only rewrites the file |
| `Properties.CloseEffect` | src/storage/storage.ts:54-56 | closing removes only the client's binding and never alters the queue, the file or the sent log |
| `Properties.StaleCloseUnbindsNewerChannel` | src/storage/storage.ts:52-56 | after a client re-registers on a new channel, the close of its old channel unbinds the client |
| `Properties.DeliverAllFrame` | src/storage/storage.ts:75-77 | a sequence of deliveries changes neither the bindings, the OPEN channels, the iteration order nor the set of keys |
| `Properties.DeliverAllEffect` | src/storage/storage.ts:75-77 | a sequence of deliveries over distinct ids bumps exactly the listed entries with an OPEN channel, once each, and writes their payloads in order |
| `Properties.RegisterEffect` | src/storage/storage.ts:52-79 | registering `c` binds `c` to the new channel (replacing any earlier binding) and bumps every pending entry of `c` once; entries of other clients are unchanged |
| `Properties.RegisterIgnoresCeiling` | src/storage/storage.ts:69-79 | the flush on reconnect attempts an exhausted entry too, pushing attempts past `maxRetries` |
| `Properties.RegisterSendsOncePerEntry` | src/storage/storage.ts:72-79 | with no failed send, registering writes exactly one payload per pending entry of the client, all on the new channel, with no message id repeated, so each entry gets exactly one (two entries give two, none gives none) |
| `Properties.OutboxDistinct` | src/storage/storage.ts:75-77 | delivering a list of distinct ids writes at most one payload per id |
| `Properties.SweepEntryEffect` | src/storage/storage.ts:123-131 | one sweep step: retry a due entry (counted only with an OPEN channel), drop an exhausted one, otherwise leave it; no other entry changes |
| `Properties.SweepKeysEffect` | src/storage/storage.ts:122-132 | the sweep loop judges each listed entry on its value before the sweep, touches nothing else, and writes the payloads of the due, deliverable entries in order |
| `Properties.SweepEffect` | src/storage/storage.ts:118-132 | one sweep removes every entry with `attempts >= maxRetries`, attempts every due entry, leaves all others unchanged, and adds no entry |
| `Properties.SweepSendsOnlyDueEntries` | src/storage/storage.ts:122-127 | every payload a sweep writes is for a due, non-exhausted entry whose client has an OPEN channel; an exhausted entry is never sent by a sweep (the reconnect flush still sends it, see `RegisterIgnoresCeiling`) |
| `Properties.SweepNeedsChannel` | src/storage/storage.ts:84-87 | for a client with no OPEN channel, a sweep does not change the entry's attempts |
| `Properties.DeliverAllKeepsSynced` | src/storage/storage.ts:75-77 | when no send throws, a sequence of deliveries keeps the file equal to memory |
| `Properties.SweepKeysKeepsSynced` | src/storage/storage.ts:122-132 | when no send throws, the sweep loop keeps the file equal to memory |
| `Properties.StepKeepsSynced` | src/storage/storage.ts:47-50 | every operation in which no send throws leaves the file equal to the in-memory Map |
| `Properties.RunKeepsSynced` | src/storage/storage.ts:47-50 | along any run without failed sends, the file stays equal to the in-memory Map |
| `Properties.StepEffect` | src/storage/storage.ts:52-132 | every operation keeps the iteration order consistent, adds only the enqueued id, never lowers attempts or changes client, url or ceiling, and removes an entry only by an ack naming it or a sweep finding it exhausted |
| `Properties.RunEffect` | src/storage/storage.ts:52-132 | along any run with fresh ids, an entry present at start and end has not lost attempts, and an entry that disappeared was removed by an ack or by the exhaustion branch |
| `Properties.StepSendsOnlyKnownIds` | src/storage/storage.ts:52-132 | every operation only appends to the sent log, and each payload it writes names an id that was pending before it or that it enqueues |
| `Properties.RemovedNotSentAgain` | src/storage/storage.ts:60-63 | along a run with fresh ids, an entry gone after event `i` (removed at storage.ts:62 or 129) is still gone at the end, and no payload written after event `i` names it |
| `Properties.RemovedStaysRemoved` | src/storage/storage.ts:127-131 | along a run with fresh ids, an entry dropped as exhausted or acknowledged is absent after every later event and is never delivered again |
| `Properties.ScenarioEnqueue` | src/storage/storage.ts:104-116 | enqueue for an unconnected client stores and saves the entry with attempts 0 and sends nothing |
| `Properties.ScenarioRegister` | src/storage/storage.ts:52-79 | the client then connects: attempts 1, payload sent on its channel |
| `Properties.ScenarioSweep` | src/storage/storage.ts:118-127 | a sweep more than 30 s later, still unacknowledged: attempts 2 and the payload is sent again |
| `Properties.ScenarioAck` | src/storage/storage.ts:60-63 | the ack then removes the entry from the Map and the file |
| `Properties.ScenarioLaterSweep` | src/storage/storage.ts:118-132 | later sweeps change nothing, because the Map is empty |

## Left out

- The URL mapping store (`mapping`, `saveMapping`, `findUrl`, storage.ts:8, 21-27, 38-45) is a plain key/value wrapper around file I/O and is not modelled.
- File I/O and JSON are left out. The file is a ghost snapshot of the Map, and a failed or partial write is not represented. At start-up the file's content is given already decoded: `None` stands for an absent or unparsable file, and the entries are taken to have the fields of `PendingMessage`, which the source casts without checking.
- JavaScript's string conversion of a parsed object or array (the lookup of `toString` and `valueOf`) is not modelled. Whether it succeeds is the flag `printable` of `Composite`.
- WebSocket objects and event registration (`ws.on`) are left out. A channel is a number. `readyState === OPEN` is membership in the OPEN set. The two handlers are the methods `OnClose` and `OnMessage`, which the environment calls.
- Console logging is left out, including the "giving up" and "invalid message" lines.
- `Date.now()` is the parameter `now`. One value is used for a whole operation, although the source reads the clock again inside each `deliverMessage` after an `await`. The cron timing is not modelled.
- `Math.random` and the message-id format are left out: the id is a parameter. Two enqueues could produce the same id, and the source would then overwrite the entry (`EnqueueCollisionResets`).
- Asynchronous interleaving is left out. Each operation runs to completion before the next one starts. This excludes saves that are not awaited being overtaken, acks or enqueues arriving during the sweep or the flush, and requests arriving before the start-up load finishes.
- Entries are values, not shared objects. `pending.attempts++` is modelled as replacing the Map entry. The sweep reads the entry before it delivers, so in-place mutation could not be observed.
- JavaScript numbers are doubles. Attempts and timestamps are unbounded integers, and the truthiness of NaN is not represented.
- src/index.ts is not part of this model. Its connection handler rejects a connection without a client id, so `registerWsClient` is never called with an empty id. The model does not need that restriction.
- src/router/urlRouter.ts, src/services/urlService.ts and src/types/index.ts are not part of this model.
- Channel ids are assumed fresh. `Bind` adds the channel to the OPEN set even if that id was used by a channel that has closed. Every real connection is a new WebSocket, so the model does not track used ids.
- Properties.RunEffect: assumes that every enqueue in the run uses an id that has never been pending. The source's generated id does not guarantee this.
- Properties.RemovedStaysRemoved and Properties.RemovedNotSentAgain: make the same assumption of fresh ids. A reused id would put a removed message back into the Map.
