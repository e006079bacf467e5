/**
 The values that flow along the fetch-and-store path: the stored entity, the
 provider's response wrapping it, and the failures that can be thrown on the way.
 */
module Models {

  datatype Option<+T> = None | Some(value: T)

  /** What a Kotlin `throw` carries. Only the kinds the path distinguishes are named. */
  datatype Throwable =
    | IllegalState(message: string)       // IllegalStateException(message)
    | TimeoutCancellation(timeMs: nat)    // thrown by withTimeout(timeMs)
    | Raised(name: string)                // any other exception (provider, cursor, JSON, SQLite)

  /** Kotlin's Result<T>, also used for "the call returned v / the call threw e". */
  datatype Result<+T> = Success(value: T) | Failure(error: Throwable)

  /** Completion of a call that returns Unit: it returned, or it threw. */
  datatype Outcome = Done | Threw(error: Throwable)

  /** A row of the `random_texts` table. `id` 0 means "not assigned yet". */
  datatype RandomText = RandomText(id: int, value: string, length: int, created: string)

  /** The JSON document the provider returns: `{"randomText": {...}}`. */
  datatype RandomTextResponse = RandomTextResponse(randomText: RandomText)
}
