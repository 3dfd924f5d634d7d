/**
  Records exchanged by the pending-delivery queue: the stored entry, the
  payload written to a client's channel, and the inbound frames a client
  may send back.
 */
module Messages {

  datatype Option<+T> = None | Some(value: T)

  /** Minimum time, in milliseconds, between two attempts made by the sweep. */
  const RetryDelay: int := 30 * 1000

  /** Retry ceiling given to every entry created by an enqueue. */
  const DefaultMaxRetries: int := 5

  /** Identity of a WebSocket channel. */
  type Socket = nat

  /** One not-yet-acknowledged delivery, keyed elsewhere by its message id. */
  datatype PendingMessage = PendingMessage(
    clientId: string,
    shortenedUrl: string,
    attempts: int,
    lastAttempt: int,
    maxRetries: int)

  /** The payload `{messageId, shortenedURL}` written to `socket`. */
  datatype Outbound = Outbound(socket: Socket, messageId: string, shortenedUrl: string)

  /**
    The JSON value found at one property of a parsed inbound frame. An
    object or array is `Composite`; `printable` says whether converting it
    to a string succeeds. It fails when an object in it has a `toString`
    property that is not a function, as in `{"toString": 0}`.
   */
  datatype Json = Undefined | Null | Bool(b: bool) | Num(n: int) | Str(s: string) | Composite(printable: bool)

  /** JavaScript truthiness of a property value (NaN is not represented). */
  predicate Truthy(v: Json)
  {
    match v
    case Undefined => false
    case Null => false
    case Bool(b) => b
    case Num(n) => n != 0
    case Str(s) => s != ""
    case Composite(_) => true
  }

  /**
    An inbound frame: either one whose parse or property access throws
    (invalid JSON, or the JSON literal `null`), or a parsed value. Of a
    parsed value only the `ack` and `messageId` properties matter, and of
    `messageId` also whether it converts to a string.
   */
  datatype Inbound = Unparseable | Parsed(ack: Json, messageId: Json)

  /** The guard `data.ack && data.messageId` of the message handler. */
  predicate IsAck(msg: Inbound)
  {
    msg.Parsed? && Truthy(msg.ack) && Truthy(msg.messageId)
  }

  /** Interpolating the value into a template string does not throw. */
  predicate Printable(v: Json)
  {
    !(v.Composite? && !v.printable)
  }

  /** The entry `sendShortenedUrlToClient` creates before its first attempt. */
  function NewPending(clientId: string, shortenedUrl: string): PendingMessage
  {
    PendingMessage(clientId, shortenedUrl, 0, 0, DefaultMaxRetries)
  }
}
