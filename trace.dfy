/** What the client's callbacks and listeners observe. Functions handed to the client
    are opaque tokens compared by identity; every call the client makes to one of
    them is recorded, in order, as an Invocation. */
module Trace {
  import opened Json

  /** An event listener passed to addEventListener. */
  type Listener = nat

  /** A request callback passed to send. */
  type Callback = nat

  /** The single argument a listener receives: undefined (`rpc.open`, `rpc.close`,
      a notification without params), a parsed value (`rpc.message`, params), or the
      transport's error event (`rpc.error`), identified by a token. */
  datatype Payload = Undefined | Value(json: Json) | TransportError(event: nat)

  /** An Error object handed to a callback: its message, and the own `code` and
      `data` properties set on it (None where they are undefined). */
  datatype ErrorValue = ErrorValue(message: string, code: Option<Json>, data: Option<Json>)

  /** The arguments a callback receives: `(err)` or `(undefined, result)`. */
  datatype Reply = Failure(error: ErrorValue) | Success(result: Option<Json>)

  /** `new Error('No connection')`. */
  const NoConnection: Reply := Failure(ErrorValue("No connection", None, None))

  /** `new Error('Timeout')` with `code` 408 and no data. */
  const TimedOut: Reply := Failure(ErrorValue("Timeout", Some(Number(408)), None))

  /** One call the client made:
      a listener ran with a payload; the callback registered under a pending id was
      resolved (by a response or by its timeout); or send reported a failure straight
      to the callback it was given. */
  datatype Invocation =
    | Listened(listener: Listener, arg: Payload)
    | Resolved(id: nat, callback: Callback, reply: Reply)
    | Refused(callback: Callback, reply: Reply)
}
