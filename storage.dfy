/**
  The module-level state of the storage layer as one object: the Map of
  pending deliveries (with its iteration order), the Map of registered
  client channels, the channels that are OPEN, and, as ghost state, the
  content of the pending-deliveries file and the log of payloads sent.
  Every method is proved to change `Abs()` exactly as one transition of
  module Transitions does; its `ensures` names that transition.
 */
module Storage {
  import opened Messages
  import opened Transitions

  class Storage {
    var pendingDeliveries: map<string, PendingMessage>
    var order: seq<string>
    var wsClients: map<string, Socket>
    var openSockets: set<Socket>
    ghost var persisted: map<string, PendingMessage>
    ghost var sent: seq<Outbound>

    ghost function Abs(): Store
      reads this
    {
      Store(pendingDeliveries, order, wsClients, openSockets, persisted, sent)
    }

    ghost predicate Valid()
      reads this
    {
      WellFormed(Abs())
    }

    /**
      Start-up: the Map is rebuilt entry by entry from the file's content
      (`None` when the file is absent or does not parse), in whatever order
      its entries are enumerated.
     */
    constructor (stored: Option<map<string, PendingMessage>>)
      ensures Valid()
      ensures pendingDeliveries == Loaded(stored) && persisted == Loaded(stored)
      ensures wsClients == map[] && openSockets == {} && sent == []
    {
      pendingDeliveries, order := map[], [];
      wsClients, openSockets := map[], {};
      persisted, sent := Loaded(stored), [];
      new;
      if stored.Some? {
        var rest := stored.value.Keys;
        while rest != {}
          invariant Valid()
          invariant rest <= stored.value.Keys
          invariant pendingDeliveries == map k | k in stored.value && k !in rest :: stored.value[k]
          invariant wsClients == map[] && openSockets == {} && sent == [] && persisted == Loaded(stored)
          decreases rest
        {
          var messageId :| messageId in rest;
          SetPending(messageId, stored.value[messageId]);
          rest := rest - {messageId};
        }
      }
    }

    /** `pendingDeliveries.set(messageId, msg)`. */
    method SetPending(messageId: string, msg: PendingMessage)
      requires Valid()
      modifies this
      ensures Valid()
      ensures Abs() == Put(old(Abs()), messageId, msg)
    {
      PutWellFormed(Abs(), messageId, msg);
      if messageId !in pendingDeliveries {
        order := order + [messageId];
      }
      pendingDeliveries := pendingDeliveries[messageId := msg];
    }

    /** `pendingDeliveries.delete(messageId)`. */
    method DeletePending(messageId: string)
      requires Valid()
      modifies this
      ensures Valid()
      ensures Abs() == Delete(old(Abs()), messageId)
    {
      order := Without(order, messageId);
      pendingDeliveries := pendingDeliveries - {messageId};
    }

    /** `savePendingDeliveries`: the file is rewritten with the whole Map. */
    method SavePendingDeliveries()
      modifies this
      ensures Abs() == Save(old(Abs()))
    {
      persisted := pendingDeliveries;
    }

    /** `deliverMessage(messageId)` at time `now`; `sendFails` says whether `ws.send` throws. */
    method DeliverMessage(messageId: string, now: int, sendFails: bool)
      requires Valid()
      modifies this
      ensures Valid()
      ensures Abs() == Deliver(old(Abs()), messageId, now, sendFails)
    {
      if messageId !in pendingDeliveries {
        return;
      }
      var pending := pendingDeliveries[messageId];
      if pending.clientId !in wsClients || wsClients[pending.clientId] !in openSockets {
        return;
      }
      var ws := wsClients[pending.clientId];
      pendingDeliveries := pendingDeliveries[messageId := pending.(attempts := pending.attempts + 1, lastAttempt := now)];
      if !sendFails {
        sent := sent + [Outbound(ws, messageId, pending.shortenedUrl)];
        SavePendingDeliveries();
      }
    }

    /** `sendShortenedUrlToClient`; the generated message id is the parameter `messageId`. */
    method SendShortenedUrlToClient(clientId: string, shortenedUrl: string, messageId: string, now: int, sendFails: bool)
      requires Valid()
      modifies this
      ensures Valid()
      ensures Abs() == Enqueue(old(Abs()), clientId, shortenedUrl, messageId, now, sendFails)
    {
      var pendingMessage := PendingMessage(clientId, shortenedUrl, 0, 0, DefaultMaxRetries);
      SetPending(messageId, pendingMessage);
      SavePendingDeliveries();
      DeliverMessage(messageId, now, sendFails);
    }

    /** `retryPendingForClient`: one delivery per pending entry of the client, in Map order. */
    method RetryPendingForClient(clientId: string, now: int, failing: set<string>)
      requires Valid()
      modifies this
      ensures Valid()
      ensures Abs() == DeliverAll(old(Abs()), ClientKeys(old(pendingDeliveries), old(order), clientId), now, failing)
    {
      var clientMessages := ClientKeys(pendingDeliveries, order, clientId);
      if |clientMessages| > 0 {
        for i := 0 to |clientMessages|
          invariant Valid()
          invariant Abs() == DeliverAll(old(Abs()), clientMessages[..i], now, failing)
        {
          var messageId := clientMessages[i];
          DeliverMessage(messageId, now, messageId in failing);
          assert clientMessages[..i + 1][..i] == clientMessages[..i];
        }
        assert clientMessages[..|clientMessages|] == clientMessages;
      }
    }

    /** `registerWsClient(clientId, ws)` for a channel that has just opened. */
    method RegisterWsClient(clientId: string, ws: Socket, now: int, failing: set<string>)
      requires Valid()
      modifies this
      ensures Valid()
      ensures Abs() == Register(old(Abs()), clientId, ws, now, failing)
    {
      wsClients := wsClients[clientId := ws];
      openSockets := openSockets + {ws};
      RetryPendingForClient(clientId, now, failing);
    }

    /** The `close` handler installed by `registerWsClient(clientId, ws)`. */
    method OnClose(clientId: string, ws: Socket)
      requires Valid()
      modifies this
      ensures Valid()
      ensures Abs() == Close(old(Abs()), clientId, ws)
    {
      openSockets := openSockets - {ws};
      wsClients := wsClients - {clientId};
    }

    /** The channel `ws` stops being OPEN (the transport begins closing it). */
    method SocketClosing(ws: Socket)
      requires Valid()
      modifies this
      ensures Valid()
      ensures Abs() == Closing(old(Abs()), ws)
    {
      openSockets := openSockets - {ws};
    }

    /** The `message` handler installed by `registerWsClient`. */
    method OnMessage(msg: Inbound)
      requires Valid()
      modifies this
      ensures Valid()
      ensures Abs() == Ack(old(Abs()), msg)
    {
      if IsAck(msg) && Printable(msg.messageId) {
        if msg.messageId.Str? {
          DeletePending(msg.messageId.s);
        }
        SavePendingDeliveries();
      }
    }

    /** The body of the scheduled sweep, run at time `now`. */
    method ScheduledSweep(now: int, failing: set<string>)
      requires Valid()
      modifies this
      ensures Valid()
      ensures Abs() == Sweep(old(Abs()), now, failing)
    {
      var keys := order;
      for i := 0 to |keys|
        invariant Valid()
        invariant Abs() == SweepKeys(old(Abs()), keys[..i], now, failing)
      {
        var messageId := keys[i];
        if messageId in pendingDeliveries {
          var pending := pendingDeliveries[messageId];
          var timeSinceLastAttempt := now - pending.lastAttempt;
          var shouldRetry := timeSinceLastAttempt > RetryDelay && pending.attempts < pending.maxRetries;
          if shouldRetry {
            DeliverMessage(messageId, now, messageId in failing);
          } else if pending.attempts >= pending.maxRetries {
            DeletePending(messageId);
            SavePendingDeliveries();
          }
        }
        assert keys[..i + 1][..i] == keys[..i];
      }
      assert keys[..|keys|] == keys;
    }
  }
}
