/**
  What the transitions of the pending-delivery queue guarantee.
 */
module Properties {
  import opened Messages
  import opened Transitions

  // ---------------------------------------------------------------------------
  // A single delivery attempt

  /** A message id that is not pending is already resolved: nothing changes and nothing is sent. */
  lemma DeliverNotPending(s: Store, id: string, now: int, sendFails: bool)
    requires id !in s.pending
    ensures Deliver(s, id, now, sendFails) == s
  {
  }

  /** Without an OPEN channel for the entry's client the attempt is not counted. */
  lemma DeliverWithoutChannel(s: Store, id: string, now: int, sendFails: bool)
    requires id in s.pending && !ChannelOpen(s, s.pending[id].clientId)
    ensures Deliver(s, id, now, sendFails) == s
  {
  }

  /**
    With an OPEN channel the entry's attempts grow by exactly one and its
    last attempt becomes `now`; the payload goes to the client's channel
    and the file is rewritten unless the send throws; no other entry, no
    binding and no channel changes.
   */
  lemma DeliverWithChannel(s: Store, id: string, now: int, sendFails: bool)
    requires id in s.pending && ChannelOpen(s, s.pending[id].clientId)
    ensures var r := Deliver(s, id, now, sendFails);
      && r.pending.Keys == s.pending.Keys && r.order == s.order
      && r.clients == s.clients && r.open == s.open
      && r.pending[id].attempts == s.pending[id].attempts + 1
      && r.pending[id].lastAttempt == now
      && r.pending[id].clientId == s.pending[id].clientId
      && r.pending[id].shortenedUrl == s.pending[id].shortenedUrl
      && r.pending[id].maxRetries == s.pending[id].maxRetries
      && (forall k :: k in s.pending && k != id ==> r.pending[k] == s.pending[k])
      && r.sent == s.sent + (if sendFails then [] else
                               [Outbound(s.clients[s.pending[id].clientId], id, s.pending[id].shortenedUrl)])
      && r.persisted == (if sendFails then s.persisted else r.pending)
  {
  }

  /**
    A send that throws leaves the file behind the in-memory Map: the bumped
    counters are never written.
   */
  lemma SendFailureLeavesFileStale(s: Store, id: string, now: int)
    requires Deliverable(s, id) && s.persisted == s.pending
    ensures var r := Deliver(s, id, now, true);
      r.persisted == s.persisted && r.persisted != r.pending
  {
    var r := Deliver(s, id, now, true);
    assert r.pending[id].attempts != r.persisted[id].attempts;
  }

  // ---------------------------------------------------------------------------
  // Enqueue

  /**
    Enqueue stores a fresh entry (attempts 0, last attempt 0, ceiling 5),
    saves it, and makes one attempt: afterwards attempts is 1 when the
    client had an OPEN channel and 0 otherwise. Only a successful send
    writes a payload; the file then holds the bumped entry, and otherwise
    it holds at least the entry as first saved.
   */
  lemma EnqueueEffect(s: Store, clientId: string, shortenedUrl: string, id: string, now: int, sendFails: bool)
    requires WellFormed(s)
    ensures var r := Enqueue(s, clientId, shortenedUrl, id, now, sendFails);
      var online := ChannelOpen(s, clientId);
      && WellFormed(r)
      && r.pending.Keys == s.pending.Keys + {id}
      && r.pending[id].clientId == clientId && r.pending[id].shortenedUrl == shortenedUrl
      && r.pending[id].maxRetries == DefaultMaxRetries
      && r.pending[id].attempts == (if online then 1 else 0)
      && r.pending[id].lastAttempt == (if online then now else 0)
      && (forall k :: k in s.pending && k != id ==> r.pending[k] == s.pending[k])
      && r.clients == s.clients && r.open == s.open
      && r.sent == s.sent + (if online && !sendFails then [Outbound(s.clients[clientId], id, shortenedUrl)] else [])
      && r.persisted == (if online && sendFails then s.pending[id := NewPending(clientId, shortenedUrl)] else r.pending)
  {
    PutWellFormed(s, id, NewPending(clientId, shortenedUrl));
  }

  /** A reused message id overwrites the pending entry, resetting its attempts. */
  lemma EnqueueCollisionResets(s: Store, clientId: string, shortenedUrl: string, id: string, now: int, sendFails: bool)
    requires id in s.pending && s.pending[id].attempts > 1
    ensures Enqueue(s, clientId, shortenedUrl, id, now, sendFails).pending[id].attempts < s.pending[id].attempts
  {
  }

  // ---------------------------------------------------------------------------
  // Acknowledgment

  lemma {:induction false} WithoutIdempotent(keys: seq<string>, k: string)
    ensures Without(Without(keys, k), k) == Without(keys, k)
  {
    if keys != [] {
      WithoutIdempotent(keys[1..], k);
      if keys[0] != k {
        assert ([keys[0]] + Without(keys[1..], k))[1..] == Without(keys[1..], k);
      }
    }
  }

  /**
    `Map.delete` keeps the other keys in their order: deleting `k` from an
    order that lists it once, between `before` and `after`, leaves
    `before + after`.
   */
  lemma {:induction false} WithoutKeepsOrder(before: seq<string>, k: string, after: seq<string>)
    requires k !in before && k !in after
    ensures Without(before + [k] + after, k) == before + after
    decreases |before|
  {
    var keys := before + [k] + after;
    if before == [] {
      assert keys == [k] + after && keys[1..] == after;
    } else {
      assert keys[0] == before[0] && keys[1..] == before[1..] + [k] + after;
      WithoutKeepsOrder(before[1..], k, after);
      assert before == [before[0]] + before[1..];
    }
  }

  /** An ack naming `m` removes `m` from the Map and from the file; nothing else changes. */
  lemma AckRemoves(s: Store, ack: Json, m: string)
    requires WellFormed(s) && Truthy(ack) && m != ""
    ensures var r := Ack(s, Parsed(ack, Str(m)));
      && WellFormed(r)
      && m !in r.pending && m !in r.persisted
      && r.pending == s.pending - {m} && r.persisted == r.pending
      && r.clients == s.clients && r.open == s.open && r.sent == s.sent
  {
  }

  /** Applying the same inbound frame twice gives the state of applying it once. */
  lemma AckIdempotent(s: Store, msg: Inbound)
    ensures Ack(Ack(s, msg), msg) == Ack(s, msg)
  {
    if IsAck(msg) && msg.messageId.Str? {
      WithoutIdempotent(s.order, msg.messageId.s);
    }
  }

  /**
    A frame that does not parse, lacks a truthy `ack` or `messageId`, or
    names a non-string id leaves the Map as it was. When interpolating the
    id throws, the file is not rewritten either; any other non-string id
    still rewrites it.
   */
  lemma NonAckKeepsPending(s: Store, msg: Inbound)
    requires !IsAck(msg) || !msg.messageId.Str?
    ensures Ack(s, msg).pending == s.pending && Ack(s, msg).order == s.order
    ensures !IsAck(msg) || !Printable(msg.messageId) ==> Ack(s, msg) == s
    ensures IsAck(msg) && Printable(msg.messageId) ==> Ack(s, msg) == s.(persisted := s.pending)
  {
  }

  // ---------------------------------------------------------------------------
  // Disconnect

  /** The close handler drops only the client's binding and never touches the queue. */
  lemma CloseEffect(s: Store, clientId: string, ws: Socket)
    requires WellFormed(s)
    ensures var r := Close(s, clientId, ws);
      && WellFormed(r)
      && r.pending == s.pending && r.order == s.order && r.persisted == s.persisted && r.sent == s.sent
      && clientId !in r.clients
      && (forall c :: c in s.clients && c != clientId ==> c in r.clients && r.clients[c] == s.clients[c])
      && r.clients.Keys == s.clients.Keys - {clientId}
  {
  }

  /**
    The close handler captures the client id, not the channel: when a
    client has reconnected on `newer`, the late close of its previous
    channel `older` unbinds the client, so its entries are no longer
    attempted until it reconnects again.
   */
  lemma StaleCloseUnbindsNewerChannel(s: Store, clientId: string, older: Socket, newer: Socket, now: int, failing: set<string>)
    requires older != newer
    ensures var r := Close(Register(s, clientId, newer, now, failing), clientId, older);
      !ChannelOpen(r, clientId) && newer in r.open
  {
    DeliverAllFrame(Bind(s, clientId, newer), ClientKeys(s.pending, s.order, clientId), now, failing);
  }

  /** Delivering any keys never changes the bindings, the open channels or the iteration order. */
  lemma {:induction false} DeliverAllFrame(s: Store, keys: seq<string>, now: int, failing: set<string>)
    ensures var r := DeliverAll(s, keys, now, failing);
      r.clients == s.clients && r.open == s.open && r.order == s.order && r.pending.Keys == s.pending.Keys
    decreases |keys|
  {
    if keys != [] {
      DeliverAllFrame(s, keys[..|keys| - 1], now, failing);
    }
  }

  // ---------------------------------------------------------------------------
  // Reconnect flush

  /** One attempt touches at most the entry it names. */
  lemma DeliverStep(s: Store, x: string, now: int, sendFails: bool)
    ensures var r := Deliver(s, x, now, sendFails);
      && r.clients == s.clients && r.open == s.open && r.order == s.order && r.pending.Keys == s.pending.Keys
      && (forall k :: k in s.pending && k != x ==> r.pending[k] == s.pending[k])
      && (x in s.pending ==> r.pending[x] == (if Deliverable(s, x) then Bumped(s.pending[x], now) else s.pending[x]))
      && r.sent == s.sent + (if Deliverable(s, x) && !sendFails then [Payload(s, x)] else [])
  {
  }

  /**
    Delivering `keys` one after another equals delivering each from the
    initial state: every listed entry whose client has an OPEN channel is
    bumped once, every other entry is untouched, and the payloads written
    are those of `Outbox`, in order.
   */
  lemma {:induction false} DeliverAllEffect(s: Store, keys: seq<string>, now: int, failing: set<string>)
    requires NoDup(keys)
    ensures var r := DeliverAll(s, keys, now, failing);
      && r.clients == s.clients && r.open == s.open && r.order == s.order && r.pending.Keys == s.pending.Keys
      && (forall k :: k in s.pending ==>
            r.pending[k] == (if k in keys && Deliverable(s, k) then Bumped(s.pending[k], now) else s.pending[k]))
      && r.sent == s.sent + Outbox(s, keys, failing)
    decreases |keys|
  {
    if keys != [] {
      var init, x := keys[..|keys| - 1], keys[|keys| - 1];
      assert keys == init + [x];
      NoDupSplit(init, x);
      DeliverAllEffect(s, init, now, failing);
      var mid := DeliverAll(s, init, now, failing);
      DeliverStep(mid, x, now, x in failing);
      DeliverAllStep(s, mid, Deliver(mid, x, now, x in failing), init, x, now, failing);
    }
  }

  /** The inductive step of `DeliverAllEffect`, stated on the states alone. */
  lemma DeliverAllStep(s: Store, mid: Store, r: Store, init: seq<string>, x: string, now: int, failing: set<string>)
    requires x !in init
    requires && mid.clients == s.clients && mid.open == s.open && mid.order == s.order
             && mid.pending.Keys == s.pending.Keys
             && (forall k :: k in s.pending ==>
                   mid.pending[k] == (if k in init && Deliverable(s, k) then Bumped(s.pending[k], now) else s.pending[k]))
             && mid.sent == s.sent + Outbox(s, init, failing)
    requires && r.clients == mid.clients && r.open == mid.open && r.order == mid.order
             && r.pending.Keys == mid.pending.Keys
             && (forall k :: k in mid.pending && k != x ==> r.pending[k] == mid.pending[k])
             && (x in mid.pending ==>
                   r.pending[x] == (if Deliverable(mid, x) then Bumped(mid.pending[x], now) else mid.pending[x]))
             && r.sent == mid.sent + (if Deliverable(mid, x) && x !in failing then [Payload(mid, x)] else [])
    ensures && r.clients == s.clients && r.open == s.open && r.order == s.order && r.pending.Keys == s.pending.Keys
            && (forall k :: k in s.pending ==>
                  r.pending[k] == (if k in init + [x] && Deliverable(s, k) then Bumped(s.pending[k], now) else s.pending[k]))
            && r.sent == s.sent + Outbox(s, init + [x], failing)
  {
    assert x in s.pending ==> mid.pending[x] == s.pending[x];
    assert Deliverable(mid, x) == Deliverable(s, x);
    if Deliverable(s, x) {
      assert Payload(mid, x) == Payload(s, x);
    }
    var tail := if Deliverable(s, x) && x !in failing then [Payload(s, x)] else [];
    OutboxSnoc(s, init, x, failing);
    assert r.sent == mid.sent + tail;
    AppendAssoc(s.sent, Outbox(s, init, failing), tail);
  }

  /**
    Registering `clientId` binds it to the new channel, replacing any
    earlier binding, then attempts exactly the pending entries of that
    client: each is bumped once and every other client's entry is
    unchanged. The payloads are written to the new channel in Map order.
   */
  lemma RegisterEffect(s: Store, clientId: string, ws: Socket, now: int, failing: set<string>)
    requires WellFormed(s)
    ensures var r := Register(s, clientId, ws, now, failing);
      && WellFormed(r)
      && r.clients == s.clients[clientId := ws] && r.open == s.open + {ws}
      && r.pending.Keys == s.pending.Keys
      && (forall k :: k in s.pending ==>
            r.pending[k] == (if s.pending[k].clientId == clientId then Bumped(s.pending[k], now) else s.pending[k]))
      && r.sent == s.sent + Outbox(Bind(s, clientId, ws), ClientKeys(s.pending, s.order, clientId), failing)
  {
    var bound := Bind(s, clientId, ws);
    var keys := ClientKeys(s.pending, s.order, clientId);
    DeliverAllFrame(bound, keys, now, failing);
    DeliverAllEffect(bound, keys, now, failing);
  }

  /**
    The reconnect flush does not consult `maxRetries`: an exhausted entry
    of the client is attempted once more, so attempts can exceed the ceiling.
   */
  lemma RegisterIgnoresCeiling(s: Store, clientId: string, ws: Socket, now: int, k: string)
    requires WellFormed(s) && k in s.pending && s.pending[k].clientId == clientId && Exhausted(s.pending[k])
    ensures var r := Register(s, clientId, ws, now, {});
      k in r.pending && r.pending[k].attempts > r.pending[k].maxRetries
  {
    RegisterEffect(s, clientId, ws, now, {});
  }

  /** The pending entries addressed to `clientId`. */
  ghost function ClientEntries(pending: map<string, PendingMessage>, clientId: string): set<string>
  {
    set k | k in pending && pending[k].clientId == clientId
  }

  lemma {:induction false} NoDupCard(keys: seq<string>)
    requires NoDup(keys)
    ensures |set k | k in keys| == |keys|
    decreases |keys|
  {
    if keys != [] {
      var init, x := keys[..|keys| - 1], keys[|keys| - 1];
      assert keys == init + [x];
      NoDupSplit(init, x);
      NoDupCard(init);
      assert (set k | k in keys) == (set k | k in init) + {x};
    }
  }

  lemma {:induction false} OutboxOfDeliverable(s: Store, keys: seq<string>, failing: set<string>)
    requires forall k :: k in keys ==> Deliverable(s, k) && k !in failing
    ensures |Outbox(s, keys, failing)| == |keys|
    decreases |keys|
  {
    if keys != [] {
      var init := keys[..|keys| - 1];
      assert forall k :: k in init ==> k in keys;
      OutboxOfDeliverable(s, init, failing);
    }
  }

  /**
    When no send throws, registering a client writes exactly one payload
    per pending entry of that client, all on the new channel: two pending
    entries give two deliveries, none gives none.
   */
  lemma RegisterSendsOncePerEntry(s: Store, clientId: string, ws: Socket, now: int)
    requires WellFormed(s)
    ensures var r := Register(s, clientId, ws, now, {});
      && |r.sent| == |s.sent| + |ClientEntries(s.pending, clientId)|
      && r.sent[..|s.sent|] == s.sent
      && (forall i :: |s.sent| <= i < |r.sent| ==>
            && r.sent[i].socket == ws
            && r.sent[i].messageId in ClientEntries(s.pending, clientId))
      && DistinctIds(r.sent[|s.sent|..])
  {
    var bound := Bind(s, clientId, ws);
    var keys := ClientKeys(s.pending, s.order, clientId);
    RegisterEffect(s, clientId, ws, now, {});
    OutboxOfDeliverable(bound, keys, {});
    NoDupCard(keys);
    ClientKeysAreEntries(s, clientId);
    FlushOnChannel(s, clientId, ws, keys);
    var entries, log := ClientEntries(s.pending, clientId), Register(s, clientId, ws, now, {}).sent;
    LogExtends(s.sent, Outbox(bound, keys, {}), log, (m: Outbound) => m.socket == ws);
    LogExtends(s.sent, Outbox(bound, keys, {}), log, (m: Outbound) => m.messageId in entries);
    OutboxDistinct(bound, keys, {});
    assert log[|s.sent|..] == Outbox(bound, keys, {});
  }

  /** No two payloads of `log` name the same message id. */
  predicate DistinctIds(log: seq<Outbound>)
  {
    forall i, j :: 0 <= i < j < |log| ==> log[i].messageId != log[j].messageId
  }

  /** Delivering distinct ids writes at most one payload per id. */
  lemma {:induction false} OutboxDistinct(s: Store, keys: seq<string>, failing: set<string>)
    requires NoDup(keys)
    ensures DistinctIds(Outbox(s, keys, failing))
    decreases |keys|
  {
    if keys != [] {
      var init, x := keys[..|keys| - 1], keys[|keys| - 1];
      assert keys == init + [x];
      NoDupSplit(init, x);
      OutboxDistinct(s, init, failing);
      var before := Outbox(s, init, failing);
      var out := Outbox(s, keys, failing);
      forall i, j | 0 <= i < j < |out| ensures out[i].messageId != out[j].messageId {
        assert out[i] == before[i];
        if j < |before| { assert out[j] == before[j]; }
        else { assert out[j].messageId == x && before[i].messageId in init; }
      }
    }
  }

  /** The flush list holds exactly the client's pending entries. */
  lemma ClientKeysAreEntries(s: Store, clientId: string)
    requires WellFormed(s)
    ensures (set k | k in ClientKeys(s.pending, s.order, clientId)) == ClientEntries(s.pending, clientId)
  {
  }

  /** Every payload of the flush for `clientId` goes to its new channel and names one of its entries. */
  lemma FlushOnChannel(s: Store, clientId: string, ws: Socket, keys: seq<string>)
    requires forall k :: k in keys ==> k in s.pending && s.pending[k].clientId == clientId
    ensures var out := Outbox(Bind(s, clientId, ws), keys, {});
      forall i :: 0 <= i < |out| ==> out[i].socket == ws && out[i].messageId in ClientEntries(s.pending, clientId)
  {
  }

  // ---------------------------------------------------------------------------
  // The periodic sweep

  /** The sweep body for one entry: retry, drop, or leave it alone. */
  lemma SweepEntryEffect(s: Store, x: string, now: int, failing: set<string>)
    ensures var r := SweepEntry(s, x, now, failing);
      && r.clients == s.clients && r.open == s.open && r.pending.Keys <= s.pending.Keys
      && (WellFormed(s) ==> WellFormed(r))
      && (forall k :: k in s.pending && k != x ==> k in r.pending && r.pending[k] == s.pending[k])
      && (x in s.pending && Exhausted(s.pending[x]) ==> x !in r.pending)
      && (x in s.pending && RetryDue(s.pending[x], now) ==>
            x in r.pending && r.pending[x] == (if Deliverable(s, x) then Bumped(s.pending[x], now) else s.pending[x]))
      && (x in s.pending && !Exhausted(s.pending[x]) && !RetryDue(s.pending[x], now) ==>
            x in r.pending && r.pending[x] == s.pending[x])
      && r.sent == s.sent + (if x in s.pending && RetryDue(s.pending[x], now) && Deliverable(s, x) && x !in failing
                             then [Payload(s, x)] else [])
  {
  }

  /**
    The sweep loop over `keys`: each listed entry is judged on its value
    before the sweep and nothing else is touched; the payloads written are
    those of the due entries, in order.
   */
  lemma {:induction false} SweepKeysEffect(s: Store, keys: seq<string>, now: int, failing: set<string>)
    requires NoDup(keys)
    ensures var r := SweepKeys(s, keys, now, failing);
      && r.clients == s.clients && r.open == s.open && r.pending.Keys <= s.pending.Keys
      && (WellFormed(s) ==> WellFormed(r))
      && (forall k :: k in s.pending && k in keys && Exhausted(s.pending[k]) ==> k !in r.pending)
      && (forall k :: k in s.pending && k in keys && RetryDue(s.pending[k], now) ==>
            k in r.pending && r.pending[k] == (if Deliverable(s, k) then Bumped(s.pending[k], now) else s.pending[k]))
      && (forall k :: k in s.pending && !(k in keys && (Exhausted(s.pending[k]) || RetryDue(s.pending[k], now))) ==>
            k in r.pending && r.pending[k] == s.pending[k])
      && r.sent == s.sent + Outbox(s, DueKeys(s.pending, keys, now), failing)
    decreases |keys|
  {
    if keys != [] {
      var init, x := keys[..|keys| - 1], keys[|keys| - 1];
      assert keys == init + [x];
      NoDupSplit(init, x);
      SweepKeysEffect(s, init, now, failing);
      var mid := SweepKeys(s, init, now, failing);
      SweepEntryEffect(mid, x, now, failing);
      SweepPendingStep(s, mid, SweepEntry(mid, x, now, failing), init, x, now);
      SweepSentStep(s, mid, SweepEntry(mid, x, now, failing), init, x, now, failing);
    }
  }

  /** The inductive step of `SweepKeysEffect` for the Map, stated on the states alone. */
  lemma SweepPendingStep(s: Store, mid: Store, r: Store, init: seq<string>, x: string, now: int)
    requires x !in init
    requires && mid.pending.Keys <= s.pending.Keys
             && (forall k :: k in s.pending && k in init && Exhausted(s.pending[k]) ==> k !in mid.pending)
             && (forall k :: k in s.pending && k in init && RetryDue(s.pending[k], now) ==>
                   k in mid.pending && mid.pending[k] == (if Deliverable(s, k) then Bumped(s.pending[k], now) else s.pending[k]))
             && (forall k :: k in s.pending && !(k in init && (Exhausted(s.pending[k]) || RetryDue(s.pending[k], now))) ==>
                   k in mid.pending && mid.pending[k] == s.pending[k])
    requires && mid.clients == s.clients && mid.open == s.open
             && r.clients == mid.clients && r.open == mid.open && r.pending.Keys <= mid.pending.Keys
             && (forall k :: k in mid.pending && k != x ==> k in r.pending && r.pending[k] == mid.pending[k])
             && (x in mid.pending && Exhausted(mid.pending[x]) ==> x !in r.pending)
             && (x in mid.pending && RetryDue(mid.pending[x], now) ==>
                   x in r.pending && r.pending[x] == (if Deliverable(mid, x) then Bumped(mid.pending[x], now) else mid.pending[x]))
             && (x in mid.pending && !Exhausted(mid.pending[x]) && !RetryDue(mid.pending[x], now) ==>
                   x in r.pending && r.pending[x] == mid.pending[x])
    ensures var keys := init + [x];
      && r.pending.Keys <= s.pending.Keys
      && (forall k :: k in s.pending && k in keys && Exhausted(s.pending[k]) ==> k !in r.pending)
      && (forall k :: k in s.pending && k in keys && RetryDue(s.pending[k], now) ==>
            k in r.pending && r.pending[k] == (if Deliverable(s, k) then Bumped(s.pending[k], now) else s.pending[k]))
      && (forall k :: k in s.pending && !(k in keys && (Exhausted(s.pending[k]) || RetryDue(s.pending[k], now))) ==>
            k in r.pending && r.pending[k] == s.pending[k])
  {
    assert x in s.pending ==> x in mid.pending && mid.pending[x] == s.pending[x];
    assert x !in s.pending ==> x !in mid.pending;
    if x in s.pending {
      assert Deliverable(mid, x) == Deliverable(s, x);
    }
  }

  /** The inductive step of `SweepKeysEffect` for the sent log, stated on the states alone. */
  lemma SweepSentStep(s: Store, mid: Store, r: Store, init: seq<string>, x: string, now: int, failing: set<string>)
    requires x !in init && mid.clients == s.clients && mid.open == s.open
    requires x in s.pending ==> x in mid.pending && mid.pending[x] == s.pending[x]
    requires x !in s.pending ==> x !in mid.pending
    requires mid.sent == s.sent + Outbox(s, DueKeys(s.pending, init, now), failing)
    requires r.sent == mid.sent + (if x in mid.pending && RetryDue(mid.pending[x], now) && Deliverable(mid, x) && x !in failing
                                   then [Payload(mid, x)] else [])
    ensures r.sent == s.sent + Outbox(s, DueKeys(s.pending, init + [x], now), failing)
  {
    var due := DueKeys(s.pending, init, now);
    var before := Outbox(s, due, failing);
    DueKeysSnoc(s.pending, init, x, now);
    if x in s.pending && RetryDue(s.pending[x], now) {
      OutboxSnoc(s, due, x, failing);
      var tail := if Deliverable(s, x) && x !in failing then [Payload(s, x)] else [];
      assert Deliverable(mid, x) == Deliverable(s, x);
      if Deliverable(s, x) {
        assert Payload(mid, x) == Payload(s, x);
      }
      assert DueKeys(s.pending, init + [x], now) == due + [x];
      assert Outbox(s, due + [x], failing) == before + tail;
      assert r.sent == mid.sent + tail;
      AppendAssoc(s.sent, before, tail);
    } else {
      assert r.sent == mid.sent;
    }
  }

  lemma AppendAssoc(a: seq<Outbound>, b: seq<Outbound>, c: seq<Outbound>)
    ensures a + b + c == a + (b + c)
  {
  }

  lemma DueKeysSnoc(pending: map<string, PendingMessage>, init: seq<string>, x: string, now: int)
    ensures DueKeys(pending, init + [x], now)
         == DueKeys(pending, init, now) + (if x in pending && RetryDue(pending[x], now) then [x] else [])
  {
    var keys := init + [x];
    assert keys[..|keys| - 1] == init;
  }

  lemma OutboxSnoc(s: Store, keys: seq<string>, x: string, failing: set<string>)
    ensures Outbox(s, keys + [x], failing)
         == Outbox(s, keys, failing) + (if Deliverable(s, x) && x !in failing then [Payload(s, x)] else [])
  {
    var all := keys + [x];
    assert all[..|all| - 1] == keys;
  }

  /**
    One sweep at time `now` removes every exhausted entry, attempts every
    entry that is due (a counted attempt only where the client's channel is
    OPEN), and leaves every other entry as it was; no entry appears.
   */
  lemma SweepEffect(s: Store, now: int, failing: set<string>)
    requires WellFormed(s)
    ensures var r := Sweep(s, now, failing);
      && WellFormed(r) && r.clients == s.clients && r.open == s.open
      && r.pending.Keys <= s.pending.Keys
      && (forall k :: k in s.pending && Exhausted(s.pending[k]) ==> k !in r.pending)
      && (forall k :: k in s.pending && RetryDue(s.pending[k], now) ==>
            k in r.pending && r.pending[k] == (if Deliverable(s, k) then Bumped(s.pending[k], now) else s.pending[k]))
      && (forall k :: k in s.pending && !Exhausted(s.pending[k]) && !RetryDue(s.pending[k], now) ==>
            k in r.pending && r.pending[k] == s.pending[k])
      && r.sent == s.sent + Outbox(s, DueKeys(s.pending, s.order, now), failing)
  {
    SweepKeysEffect(s, s.order, now, failing);
  }

  /**
    A sweep never writes a payload for an exhausted entry, nor for one that
    is not due or whose client has no OPEN channel.
   */
  lemma SweepSendsOnlyDueEntries(s: Store, now: int, failing: set<string>)
    requires WellFormed(s)
    ensures var r := Sweep(s, now, failing);
      && |s.sent| <= |r.sent| && r.sent[..|s.sent|] == s.sent
      && (forall i :: |s.sent| <= i < |r.sent| ==>
            var id := r.sent[i].messageId;
            && id in s.pending && !Exhausted(s.pending[id]) && RetryDue(s.pending[id], now)
            && ChannelOpen(s, s.pending[id].clientId) && id !in failing)
  {
    SweepEffect(s, now, failing);
    var r := Sweep(s, now, failing);
    var out := Outbox(s, DueKeys(s.pending, s.order, now), failing);
    forall i | |s.sent| <= i < |r.sent|
      ensures var id := r.sent[i].messageId;
        && id in s.pending && !Exhausted(s.pending[id]) && RetryDue(s.pending[id], now)
        && ChannelOpen(s, s.pending[id].clientId) && id !in failing
    {
      assert r.sent[i] == out[i - |s.sent|];
    }
  }

  /** A sweep never counts an attempt for an entry whose client has no OPEN channel. */
  lemma SweepNeedsChannel(s: Store, now: int, failing: set<string>, k: string)
    requires WellFormed(s) && k in s.pending && !ChannelOpen(s, s.pending[k].clientId)
    ensures var r := Sweep(s, now, failing);
      k in r.pending ==> r.pending[k] == s.pending[k]
  {
    SweepEffect(s, now, failing);
  }

  // ---------------------------------------------------------------------------
  // The file and the in-memory Map

  /** The pending-deliveries file holds exactly the in-memory Map. */
  predicate Synced(s: Store)
  {
    s.persisted == s.pending
  }

  /** The event makes no `ws.send` throw. */
  predicate NoSendFailure(e: Event)
  {
    match e
    case EnqueueEvent(_, _, _, _, sendFails) => !sendFails
    case DeliverEvent(_, _, sendFails) => !sendFails
    case RegisterEvent(_, _, _, failing) => failing == {}
    case SweepEvent(_, failing) => failing == {}
    case _ => true
  }

  lemma {:induction false} DeliverAllKeepsSynced(s: Store, keys: seq<string>, now: int)
    requires Synced(s)
    ensures Synced(DeliverAll(s, keys, now, {}))
    decreases |keys|
  {
    if keys != [] {
      DeliverAllKeepsSynced(s, keys[..|keys| - 1], now);
    }
  }

  lemma {:induction false} SweepKeysKeepsSynced(s: Store, keys: seq<string>, now: int)
    requires Synced(s)
    ensures Synced(SweepKeys(s, keys, now, {}))
    decreases |keys|
  {
    if keys != [] {
      SweepKeysKeepsSynced(s, keys[..|keys| - 1], now);
    }
  }

  /** Every event in which no send throws leaves the file equal to the in-memory Map. */
  lemma StepKeepsSynced(s: Store, e: Event)
    requires Synced(s) && NoSendFailure(e)
    ensures Synced(Step(s, e))
  {
    match e
    case RegisterEvent(c, ws, now, _) =>
      DeliverAllKeepsSynced(Bind(s, c, ws), ClientKeys(s.pending, s.order, c), now);
    case SweepEvent(now, _) =>
      SweepKeysKeepsSynced(s, s.order, now);
    case _ =>
  }

  /** Along any run in which no send throws, the file keeps up with the in-memory Map. */
  lemma {:induction false} RunKeepsSynced(s: Store, es: seq<Event>)
    requires Synced(s) && forall i :: 0 <= i < |es| ==> NoSendFailure(es[i])
    ensures Synced(Run(s, es))
    decreases |es|
  {
    if es != [] {
      var init := es[..|es| - 1];
      assert forall i :: 0 <= i < |init| ==> init[i] == es[i];
      RunKeepsSynced(s, init);
      StepKeepsSynced(Run(s, init), es[|es| - 1]);
    }
  }

  /**
    After an enqueue whose first attempt went out, the file holds exactly
    the in-memory Map, even when it lagged behind before. A restart then
    rebuilds the Map, and the new entry has one attempt.
   */
  lemma RestartRestoresQueue(s: Store, clientId: string, shortenedUrl: string, id: string, now: int)
    requires ChannelOpen(s, clientId)
    ensures var r := Enqueue(s, clientId, shortenedUrl, id, now, false);
      && Loaded(Some(r.persisted)) == r.pending
      && Loaded(Some(r.persisted))[id].attempts == 1
  {
  }

  // ---------------------------------------------------------------------------
  // Whole runs: attempts never decrease, entries leave only by ack or exhaustion

  /** How an entry may evolve while it stays in the Map. */
  predicate Evolves(p: PendingMessage, q: PendingMessage)
  {
    && q.clientId == p.clientId && q.shortenedUrl == p.shortenedUrl
    && q.maxRetries == p.maxRetries && q.attempts >= p.attempts
  }

  /** Event `e` removes `k` on purpose: an ack naming it, or a sweep finding it exhausted. */
  predicate Removes(s: Store, e: Event, k: string)
  {
    || (e.MessageEvent? && IsAck(e.msg) && e.msg.messageId == Str(k))
    || (e.SweepEvent? && k in s.pending && Exhausted(s.pending[k]))
  }

  /** The Map keys an event may add. */
  function Added(e: Event): set<string>
  {
    if e.EnqueueEvent? then {e.id} else {}
  }

  /** What `StepEffect` promises of the state `r` that event `e` leads to from `s`. */
  ghost predicate StepRespects(s: Store, e: Event, r: Store)
  {
    && WellFormed(r)
    && r.pending.Keys <= s.pending.Keys + Added(e)
    && (forall k :: k in s.pending && k in r.pending ==> Evolves(s.pending[k], r.pending[k]))
    && (forall k :: k in s.pending && k !in r.pending ==> Removes(s, e, k))
  }

  lemma StepEffect(s: Store, e: Event)
    requires WellFormed(s) && (e.EnqueueEvent? ==> e.id !in s.pending)
    ensures var r := Step(s, e);
      && WellFormed(r)
      && r.pending.Keys <= s.pending.Keys + Added(e)
      && (forall k :: k in s.pending && k in r.pending ==> Evolves(s.pending[k], r.pending[k]))
      && (forall k :: k in s.pending && k !in r.pending ==> Removes(s, e, k))
  {
    match e
    case EnqueueEvent(c, url, id, now, fails) => EnqueueRespects(s, e);
    case DeliverEvent(id, now, fails) => DeliverRespects(s, e);
    case RegisterEvent(c, ws, now, failing) => RegisterRespects(s, e);
    case CloseEvent(c, ws) => CloseEffect(s, c, ws);
    case ClosingEvent(ws) =>
    case MessageEvent(msg) =>
    case SweepEvent(now, failing) => SweepRespects(s, e);
  }

  lemma EnqueueRespects(s: Store, e: Event)
    requires WellFormed(s) && e.EnqueueEvent? && e.id !in s.pending
    ensures StepRespects(s, e, Enqueue(s, e.clientId, e.shortenedUrl, e.id, e.now, e.sendFails))
  {
    EnqueueEffect(s, e.clientId, e.shortenedUrl, e.id, e.now, e.sendFails);
  }

  lemma DeliverRespects(s: Store, e: Event)
    requires WellFormed(s) && e.DeliverEvent?
    ensures StepRespects(s, e, Deliver(s, e.id, e.now, e.sendFails))
  {
    DeliverStep(s, e.id, e.now, e.sendFails);
  }

  lemma RegisterRespects(s: Store, e: Event)
    requires WellFormed(s) && e.RegisterEvent?
    ensures StepRespects(s, e, Register(s, e.clientId, e.ws, e.now, e.failing))
  {
    RegisterEffect(s, e.clientId, e.ws, e.now, e.failing);
  }

  lemma SweepRespects(s: Store, e: Event)
    requires WellFormed(s) && e.SweepEvent?
    ensures StepRespects(s, e, Sweep(s, e.now, e.failing))
  {
    SweepEffect(s, e.now, e.failing);
  }

  /** The message ids that the enqueues of `es` use. */
  ghost function EnqueuedIds(es: seq<Event>): set<string>
  {
    set i | 0 <= i < |es| && es[i].EnqueueEvent? :: es[i].id
  }

  lemma EnqueuedIdsSnoc(es: seq<Event>, e: Event)
    ensures EnqueuedIds(es + [e]) == EnqueuedIds(es) + Added(e)
  {
    var all := es + [e];
    forall x | x in EnqueuedIds(all) ensures x in EnqueuedIds(es) + Added(e) {
      var i :| 0 <= i < |all| && all[i].EnqueueEvent? && all[i].id == x;
      if i < |es| { assert es[i] == all[i]; }
    }
    forall x | x in EnqueuedIds(es) ensures x in EnqueuedIds(all) {
      var i :| 0 <= i < |es| && es[i].EnqueueEvent? && es[i].id == x;
      assert all[i] == es[i];
    }
    if e.EnqueueEvent? { assert all[|es|] == e; }
  }

  /** Every enqueue of `es` uses an id never pending before and never used by another enqueue. */
  ghost predicate FreshIds(s: Store, es: seq<Event>)
  {
    forall i :: 0 <= i < |es| && es[i].EnqueueEvent? ==>
      && es[i].id !in s.pending
      && forall j :: 0 <= j < i && es[j].EnqueueEvent? ==> es[j].id != es[i].id
  }

  /**
    Along any run with fresh message ids: an entry pending at the start
    and at the end has kept its client, url and ceiling and has not lost
    attempts; an entry pending at the start and gone at the end was removed
    by some event that was an ack naming it or a sweep that found it
    exhausted.
   */
  lemma {:induction false} RunEffect(s: Store, es: seq<Event>)
    requires WellFormed(s) && FreshIds(s, es)
    ensures var r := Run(s, es);
      && WellFormed(r)
      && r.pending.Keys <= s.pending.Keys + EnqueuedIds(es)
      && (forall k :: k in s.pending && k in r.pending ==> Evolves(s.pending[k], r.pending[k]))
      && (forall k :: k in s.pending && k !in r.pending ==>
            exists i :: 0 <= i < |es| && k in Run(s, es[..i]).pending && Removes(Run(s, es[..i]), es[i], k))
    decreases |es|
  {
    if es != [] {
      var init, e := es[..|es| - 1], es[|es| - 1];
      assert es == init + [e];
      FreshPrefix(s, es, |es| - 1);
      RunEffect(s, init);
      var mid := Run(s, init);
      StepEffect(mid, e);
      var r := Run(s, es);
      EnqueuedIdsSnoc(init, e);
      forall k | k in s.pending && k !in r.pending
        ensures exists i :: 0 <= i < |es| && k in Run(s, es[..i]).pending && Removes(Run(s, es[..i]), es[i], k)
      {
        if k in mid.pending {
          assert es[..|init|] == init;
          assert es[|init|] == e;
        } else {
          var i :| 0 <= i < |init| && k in Run(s, init[..i]).pending && Removes(Run(s, init[..i]), init[i], k);
          assert es[..i] == init[..i];
          assert es[i] == init[i];
        }
      }
    }
  }

  /**
    One event only appends to the sent log, and every payload it writes
    names an id that was pending before the event or that the event
    enqueues; no other id enters the Map.
   */
  lemma StepSendsOnlyKnownIds(s: Store, e: Event)
    requires WellFormed(s)
    ensures var r := Step(s, e);
      && r.pending.Keys <= s.pending.Keys + Added(e)
      && |s.sent| <= |r.sent| && r.sent[..|s.sent|] == s.sent
      && (forall n :: |s.sent| <= n < |r.sent| ==> r.sent[n].messageId in s.pending.Keys + Added(e))
  {
    match e
    case EnqueueEvent(c, url, id, now, fails) =>
      EnqueueEffect(s, c, url, id, now, fails);
    case DeliverEvent(id, now, fails) =>
      DeliverStep(s, id, now, fails);
    case RegisterEvent(c, ws, now, failing) =>
      RegisterEffect(s, c, ws, now, failing);
      LogExtends(s.sent, Outbox(Bind(s, c, ws), ClientKeys(s.pending, s.order, c), failing), Step(s, e).sent,
                 (m: Outbound) => m.messageId in s.pending.Keys);
    case CloseEvent(c, ws) =>
    case ClosingEvent(ws) =>
    case MessageEvent(msg) =>
    case SweepEvent(now, failing) =>
      SweepEffect(s, now, failing);
      LogExtends(s.sent, Outbox(s, DueKeys(s.pending, s.order, now), failing), Step(s, e).sent,
                 (m: Outbound) => m.messageId in s.pending.Keys);
  }

  /** A log that extends `before` by `out` has property `ok` everywhere past `before` when `out` has it. */
  lemma LogExtends(before: seq<Outbound>, out: seq<Outbound>, log: seq<Outbound>, ok: Outbound -> bool)
    requires log == before + out
    requires forall i :: 0 <= i < |out| ==> ok(out[i])
    ensures |log| == |before| + |out| && log[..|before|] == before
    ensures forall n :: |before| <= n < |log| ==> ok(log[n])
  {
    forall n | |before| <= n < |log| ensures ok(log[n]) {
      assert log[n] == out[n - |before|];
    }
  }

  /** The enqueues of a prefix of a run with fresh ids use fresh ids too. */
  lemma FreshPrefix(s: Store, es: seq<Event>, j: nat)
    requires FreshIds(s, es) && j <= |es|
    ensures FreshIds(s, es[..j])
  {
    assert forall n :: 0 <= n < j ==> es[..j][n] == es[n];
  }

  /**
    If the log of `mid` extends that of `before` with no payload for `k`,
    and `r` extends `mid` only with payloads for ids pending in `mid` or in
    `added`, neither of which holds `k`, then `r` extends `before` with no
    payload for `k`.
   */
  lemma LogExtension(before: Store, mid: Store, r: Store, added: set<string>, k: string)
    requires |before.sent| <= |mid.sent| && mid.sent[..|before.sent|] == before.sent
    requires forall n :: |before.sent| <= n < |mid.sent| ==> mid.sent[n].messageId != k
    requires |mid.sent| <= |r.sent| && r.sent[..|mid.sent|] == mid.sent
    requires forall n :: |mid.sent| <= n < |r.sent| ==> r.sent[n].messageId in mid.pending.Keys + added
    requires k !in mid.pending && k !in added && r.pending.Keys <= mid.pending.Keys + added
    ensures k !in r.pending
    ensures |before.sent| <= |r.sent| && r.sent[..|before.sent|] == before.sent
    ensures forall n :: |before.sent| <= n < |r.sent| ==> r.sent[n].messageId != k
  {
    forall n | |before.sent| <= n < |mid.sent| ensures r.sent[n] == mid.sent[n] {
      assert r.sent[..|mid.sent|][n] == r.sent[n];
    }
    assert r.sent[..|before.sent|] == mid.sent[..|before.sent|];
  }

  /**
    Along any run with fresh message ids, an entry that was pending at the
    start and is gone after the first `i` events is still gone at the end,
    and no payload written after event `i` names it.
   */
  lemma {:induction false} RemovedNotSentAgain(s: Store, es: seq<Event>, i: nat, k: string)
    requires WellFormed(s) && FreshIds(s, es)
    requires i <= |es| && k in s.pending && k !in Run(s, es[..i]).pending
    ensures var before, r := Run(s, es[..i]), Run(s, es);
      && k !in r.pending
      && |before.sent| <= |r.sent| && r.sent[..|before.sent|] == before.sent
      && (forall n :: |before.sent| <= n < |r.sent| ==> r.sent[n].messageId != k)
    decreases |es|
  {
    if i == |es| {
      assert es[..i] == es;
    } else {
      var init, e := es[..|es| - 1], es[|es| - 1];
      assert es == init + [e];
      FreshPrefix(s, es, |es| - 1);
      assert init[..i] == es[..i];
      RemovedNotSentAgain(s, init, i, k);
      RunEffect(s, init);
      var before, mid := Run(s, es[..i]), Run(s, init);
      assert k !in Added(e) by {
        if e.EnqueueEvent? { assert es[|es| - 1] == e; }
      }
      StepSendsOnlyKnownIds(mid, e);
      assert Run(s, es) == Step(mid, e);
      LogExtension(before, mid, Step(mid, e), Added(e), k);
    }
  }

  /**
    A removed message stays removed: along any run with fresh message ids,
    an entry pending at the start and gone after the first `i` events is
    absent after every later event, and no payload written after event `i`
    names it, so no further delivery of it is attempted.
   */
  lemma RemovedStaysRemoved(s: Store, es: seq<Event>, i: nat, k: string)
    requires WellFormed(s) && FreshIds(s, es)
    requires i <= |es| && k in s.pending && k !in Run(s, es[..i]).pending
    ensures forall j :: i <= j <= |es| ==> k !in Run(s, es[..j]).pending
    ensures var before, r := Run(s, es[..i]), Run(s, es);
      && |before.sent| <= |r.sent| && r.sent[..|before.sent|] == before.sent
      && (forall n :: |before.sent| <= n < |r.sent| ==> r.sent[n].messageId != k)
  {
    RemovedNotSentAgain(s, es, i, k);
    forall j | i <= j <= |es| ensures k !in Run(s, es[..j]).pending {
      FreshPrefix(s, es, j);
      assert es[..j][..i] == es[..i];
      RemovedNotSentAgain(s, es[..j], i, k);
    }
  }

  // ---------------------------------------------------------------------------
  // A worked scenario: client "c1", url "X", message id "m1", channel 7

  function Entry(attempts: int, lastAttempt: int): PendingMessage
  {
    PendingMessage("c1", "X", attempts, lastAttempt, DefaultMaxRetries)
  }

  /** Enqueue for an unconnected client: stored and saved with no attempt, nothing sent. */
  lemma ScenarioEnqueue()
    ensures Enqueue(Store(map[], [], map[], {}, map[], []), "c1", "X", "m1", 1000, false)
         == Store(map["m1" := Entry(0, 0)], ["m1"], map[], {}, map["m1" := Entry(0, 0)], [])
  {
  }

  /** The client connects on channel 7: one attempt, payload sent, file updated. */
  lemma ScenarioRegister()
    ensures Register(Store(map["m1" := Entry(0, 0)], ["m1"], map[], {}, map["m1" := Entry(0, 0)], []),
                     "c1", 7, 2000, {})
         == Store(map["m1" := Entry(1, 2000)], ["m1"], map["c1" := 7], {7}, map["m1" := Entry(1, 2000)],
                  [Outbound(7, "m1", "X")])
  {
    var s := Store(map["m1" := Entry(0, 0)], ["m1"], map[], {}, map["m1" := Entry(0, 0)], []);
    assert ClientKeys(s.pending, ["m1"], "c1") == ["m1"] by {
      assert ["m1"][..0] == [];
    }
    assert ["m1"][..0] == [];
  }

  /** A sweep 31 s after that attempt, with no ack: a second attempt and a resend. */
  lemma ScenarioSweep()
    ensures Sweep(Store(map["m1" := Entry(1, 2000)], ["m1"], map["c1" := 7], {7}, map["m1" := Entry(1, 2000)],
                        [Outbound(7, "m1", "X")]), 33001, {})
         == Store(map["m1" := Entry(2, 33001)], ["m1"], map["c1" := 7], {7}, map["m1" := Entry(2, 33001)],
                  [Outbound(7, "m1", "X"), Outbound(7, "m1", "X")])
  {
    assert ["m1"][..0] == [];
  }

  /** The ack arrives: the entry leaves the Map and the file. */
  lemma ScenarioAck()
    ensures Ack(Store(map["m1" := Entry(2, 33001)], ["m1"], map["c1" := 7], {7}, map["m1" := Entry(2, 33001)],
                      [Outbound(7, "m1", "X"), Outbound(7, "m1", "X")]), Parsed(Bool(true), Str("m1")))
         == Store(map[], [], map["c1" := 7], {7}, map[], [Outbound(7, "m1", "X"), Outbound(7, "m1", "X")])
  {
    assert map["m1" := Entry(2, 33001)] - {"m1"} == map[];
  }

  /** After the ack, later sweeps ignore the message. */
  lemma ScenarioLaterSweep(now: int)
    ensures var s := Store(map[], [], map["c1" := 7], {7}, map[], [Outbound(7, "m1", "X"), Outbound(7, "m1", "X")]);
      Sweep(s, now, {}) == s
  {
  }
}
