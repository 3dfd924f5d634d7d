/**
  The state of the pending-delivery queue as one value, and one pure
  transition per operation that changes it. Class `Storage.Storage` is
  proved to perform exactly these transitions.
 */
module Transitions {
  import opened Messages

  /**
    `pending` and `order` together are the JavaScript Map `pendingDeliveries`
    (`order` is its iteration order); `clients` is the Map `wsClients`;
    `open` holds the channels whose ready state is OPEN; `persisted` is the
    content last written to the pending-deliveries file; `sent` is every
    payload written to a channel, oldest first.
   */
  datatype Store = Store(
    pending: map<string, PendingMessage>,
    order: seq<string>,
    clients: map<string, Socket>,
    open: set<Socket>,
    persisted: map<string, PendingMessage>,
    sent: seq<Outbound>)

  predicate NoDup(keys: seq<string>)
  {
    forall i, j :: 0 <= i < j < |keys| ==> keys[i] != keys[j]
  }

  lemma NoDupCons(x: string, rest: seq<string>)
    ensures NoDup([x] + rest) <==> x !in rest && NoDup(rest)
  {
    var xs := [x] + rest;
    if x !in rest && NoDup(rest) {
      forall i, j | 0 <= i < j < |xs| ensures xs[i] != xs[j] {
        if i > 0 { assert xs[i] == rest[i - 1] && xs[j] == rest[j - 1]; }
        else { assert xs[j] == rest[j - 1]; }
      }
    }
    if x in rest {
      var j :| 0 <= j < |rest| && rest[j] == x;
      assert xs[0] == xs[j + 1];
    }
    if NoDup(xs) {
      forall i, j | 0 <= i < j < |rest| ensures rest[i] != rest[j] {
        assert rest[i] == xs[i + 1] && rest[j] == xs[j + 1];
      }
    }
  }

  lemma NoDupSnoc(keys: seq<string>, x: string)
    ensures NoDup(keys) && x !in keys ==> NoDup(keys + [x])
  {
    var xs := keys + [x];
    if NoDup(keys) && x !in keys {
      forall i, j | 0 <= i < j < |xs| ensures xs[i] != xs[j] {
        assert xs[i] == keys[i];
      }
    }
  }

  lemma NoDupSplit(init: seq<string>, last: string)
    ensures NoDup(init + [last]) ==> NoDup(init) && last !in init
  {
    var xs := init + [last];
    if last in init {
      var i :| 0 <= i < |init| && init[i] == last;
      assert xs[i] == xs[|init|];
    }
    forall i, j | 0 <= i < j < |init| ensures xs[i] == init[i] && xs[j] == init[j] {}
  }

  /** The iteration order lists every key of the Map exactly once. */
  ghost predicate WellFormed(s: Store)
  {
    NoDup(s.order) && forall k :: k in s.order <==> k in s.pending
  }

  /** The iteration order after `Map.delete(k)`. */
  function Without(keys: seq<string>, k: string): (r: seq<string>)
    ensures forall x :: x in r <==> x in keys && x != k
    ensures NoDup(keys) ==> NoDup(r)
    ensures k !in keys ==> r == keys
  {
    if keys == [] then []
    else if keys[0] == k then Without(keys[1..], k)
    else
      var rest := Without(keys[1..], k);
      NoDupCons(keys[0], rest);
      assert NoDup(keys) ==> keys[0] !in keys[1..];
      [keys[0]] + rest
  }

  /** `pendingDeliveries.set(id, p)`: a new key goes last, an existing key keeps its place. */
  function Put(s: Store, id: string, p: PendingMessage): Store
  {
    s.(pending := s.pending[id := p],
       order := if id in s.pending then s.order else s.order + [id])
  }

  /** `Map.set` keeps the iteration order in step with the keys. */
  lemma PutWellFormed(s: Store, id: string, p: PendingMessage)
    requires WellFormed(s)
    ensures WellFormed(Put(s, id, p))
  {
    if id !in s.pending {
      NoDupSnoc(s.order, id);
    }
  }

  /** `pendingDeliveries.delete(id)`; a missing key is a no-op. */
  function Delete(s: Store, id: string): Store
  {
    s.(pending := s.pending - {id}, order := Without(s.order, id))
  }

  /** `savePendingDeliveries`: the file receives a snapshot of the in-memory Map. */
  function Save(s: Store): Store
  {
    s.(persisted := s.pending)
  }

  /** The client has a registered channel and that channel is OPEN. */
  predicate ChannelOpen(s: Store, clientId: string)
  {
    clientId in s.clients && s.clients[clientId] in s.open
  }

  /** `deliverMessage(id)` gets past both of its early returns. */
  predicate Deliverable(s: Store, id: string)
  {
    id in s.pending && ChannelOpen(s, s.pending[id].clientId)
  }

  /** The entry after a counted attempt at time `now`. */
  function Bumped(p: PendingMessage, now: int): PendingMessage
  {
    p.(attempts := p.attempts + 1, lastAttempt := now)
  }

  /** What `deliverMessage(id)` writes to the client's channel. */
  function Payload(s: Store, id: string): Outbound
    requires Deliverable(s, id)
  {
    Outbound(s.clients[s.pending[id].clientId], id, s.pending[id].shortenedUrl)
  }

  /**
    `deliverMessage(id)` at time `now`. The counters are bumped before the
    send; when the send throws (`sendFails`) nothing is written and the save
    after it is skipped.
   */
  function Deliver(s: Store, id: string, now: int, sendFails: bool): Store
  {
    if !Deliverable(s, id) then s
    else
      var bumped := s.(pending := s.pending[id := Bumped(s.pending[id], now)]);
      if sendFails then bumped
      else Save(bumped.(sent := s.sent + [Payload(s, id)]))
  }

  /** `sendShortenedUrlToClient` with the fresh message id `id`. */
  function Enqueue(s: Store, clientId: string, shortenedUrl: string, id: string, now: int, sendFails: bool): Store
  {
    Deliver(Save(Put(s, id, NewPending(clientId, shortenedUrl))), id, now, sendFails)
  }

  /**
    The `message` handler: an ack deletes the named entry and saves. The
    log line before the delete interpolates the id; when that throws, the
    handler's catch runs and nothing changes.
   */
  function Ack(s: Store, msg: Inbound): Store
  {
    if !IsAck(msg) || !Printable(msg.messageId) then s
    else if msg.messageId.Str? then Save(Delete(s, msg.messageId.s))
    else Save(s)  // a non-string id matches no key of the Map
  }

  /** The message ids of `keys`, in order, whose entry targets `clientId`. */
  function ClientKeys(pending: map<string, PendingMessage>, keys: seq<string>, clientId: string): (r: seq<string>)
    ensures forall k :: k in r <==> k in keys && k in pending && pending[k].clientId == clientId
    ensures NoDup(keys) ==> NoDup(r)
    decreases |keys|
  {
    if keys == [] then []
    else
      var init, last := keys[..|keys| - 1], keys[|keys| - 1];
      assert keys == init + [last];
      var rest := ClientKeys(pending, init, clientId);
      NoDupSplit(init, last);
      if last in pending && pending[last].clientId == clientId then
        NoDupSnoc(rest, last); rest + [last]
      else rest
  }

  /** `deliverMessage` on each of `keys` in turn; the ids in `failing` have their send throw. */
  function DeliverAll(s: Store, keys: seq<string>, now: int, failing: set<string>): Store
    decreases |keys|
  {
    if keys == [] then s
    else
      var last := keys[|keys| - 1];
      Deliver(DeliverAll(s, keys[..|keys| - 1], now, failing), last, now, last in failing)
  }

  /** The payloads written, in order, when each of `keys` is delivered from state `s`. */
  function Outbox(s: Store, keys: seq<string>, failing: set<string>): (r: seq<Outbound>)
    ensures |r| <= |keys|
    ensures forall i :: 0 <= i < |r| ==>
              && r[i].messageId in keys && r[i].messageId !in failing
              && Deliverable(s, r[i].messageId) && r[i] == Payload(s, r[i].messageId)
    decreases |keys|
  {
    if keys == [] then []
    else
      var last := keys[|keys| - 1];
      Outbox(s, keys[..|keys| - 1], failing)
        + (if Deliverable(s, last) && last !in failing then [Payload(s, last)] else [])
  }

  /** `wsClients.set(clientId, ws)` for a channel that has just opened. */
  function Bind(s: Store, clientId: string, ws: Socket): Store
  {
    s.(clients := s.clients[clientId := ws], open := s.open + {ws})
  }

  /** `registerWsClient` followed by `retryPendingForClient`. */
  function Register(s: Store, clientId: string, ws: Socket, now: int, failing: set<string>): Store
  {
    var bound := Bind(s, clientId, ws);
    DeliverAll(bound, ClientKeys(bound.pending, bound.order, clientId), now, failing)
  }

  /** The `close` handler of the channel `ws` registered under `clientId`. */
  function Close(s: Store, clientId: string, ws: Socket): Store
  {
    s.(clients := s.clients - {clientId}, open := s.open - {ws})
  }

  /** The channel `ws` leaves the OPEN state before its `close` event fires. */
  function Closing(s: Store, ws: Socket): Store
  {
    s.(open := s.open - {ws})
  }

  /** The sweep's `shouldRetry` condition. */
  predicate RetryDue(p: PendingMessage, now: int)
  {
    now - p.lastAttempt > RetryDelay && p.attempts < p.maxRetries
  }

  /** The sweep's give-up condition. */
  predicate Exhausted(p: PendingMessage)
  {
    p.attempts >= p.maxRetries
  }

  /** The body of the sweep loop for the entry `id`, if it is still in the Map. */
  function SweepEntry(s: Store, id: string, now: int, failing: set<string>): Store
  {
    if id !in s.pending then s
    else if RetryDue(s.pending[id], now) then Deliver(s, id, now, id in failing)
    else if Exhausted(s.pending[id]) then Save(Delete(s, id))
    else s
  }

  /** The sweep loop run over `keys`, in order. */
  function SweepKeys(s: Store, keys: seq<string>, now: int, failing: set<string>): Store
    decreases |keys|
  {
    if keys == [] then s
    else SweepEntry(SweepKeys(s, keys[..|keys| - 1], now, failing), keys[|keys| - 1], now, failing)
  }

  /** One tick of the scheduled sweep at time `now`. */
  function Sweep(s: Store, now: int, failing: set<string>): Store
  {
    SweepKeys(s, s.order, now, failing)
  }

  /** The message ids of `keys`, in order, that the sweep at `now` retries. */
  function DueKeys(pending: map<string, PendingMessage>, keys: seq<string>, now: int): (r: seq<string>)
    ensures forall k :: k in r <==> k in keys && k in pending && RetryDue(pending[k], now)
    ensures NoDup(keys) ==> NoDup(r)
    decreases |keys|
  {
    if keys == [] then []
    else
      var init, last := keys[..|keys| - 1], keys[|keys| - 1];
      assert keys == init + [last];
      var rest := DueKeys(pending, init, now);
      NoDupSplit(init, last);
      if last in pending && RetryDue(pending[last], now) then
        NoDupSnoc(rest, last); rest + [last]
      else rest
  }

  /** The Map rebuilt at start-up from the file; an absent or unparsable file gives the empty Map. */
  function Loaded(stored: Option<map<string, PendingMessage>>): map<string, PendingMessage>
  {
    if stored.Some? then stored.value else map[]
  }

  /** Every event that changes the queue after start-up. */
  datatype Event =
    | EnqueueEvent(clientId: string, shortenedUrl: string, id: string, now: int, sendFails: bool)
    | DeliverEvent(id: string, now: int, sendFails: bool)
    | RegisterEvent(clientId: string, ws: Socket, now: int, failing: set<string>)
    | CloseEvent(clientId: string, ws: Socket)
    | ClosingEvent(ws: Socket)
    | MessageEvent(msg: Inbound)
    | SweepEvent(now: int, failing: set<string>)

  function Step(s: Store, e: Event): Store
  {
    match e
    case EnqueueEvent(c, url, id, now, fails) => Enqueue(s, c, url, id, now, fails)
    case DeliverEvent(id, now, fails) => Deliver(s, id, now, fails)
    case RegisterEvent(c, ws, now, failing) => Register(s, c, ws, now, failing)
    case CloseEvent(c, ws) => Close(s, c, ws)
    case ClosingEvent(ws) => Closing(s, ws)
    case MessageEvent(msg) => Ack(s, msg)
    case SweepEvent(now, failing) => Sweep(s, now, failing)
  }

  /** The state after the events of `es`, in order. */
  function Run(s: Store, es: seq<Event>): Store
    decreases |es|
  {
    if es == [] then s else Step(Run(s, es[..|es| - 1]), es[|es| - 1])
  }
}
