/** Shared vocabulary: Go byte strings, optional values and the error values
    the gateway passes around. */
module Types {

  type byte = x: int | 0 <= x < 256

  /** A Go `string` is an immutable sequence of bytes, so `[]byte(s)` does not
      change its contents. */
  type GoString = seq<byte>

  datatype Option<T> = None | Some(value: T)

  /** The errors that reach the gateway's callers. */
  datatype Error =
    /** `fmt.Errorf("failed to get user session")`: the session has no key slot. */
    | ErrNoSession
    /** redigo's `ErrNil`: GET answered with a nil reply, the key holds no value. */
    | ErrNil
    /** An error produced by a collaborator this model does not look inside
        (the Redis connection, the database, the cookie codec, the key generator). */
    | Failed(cause: GoString)

  datatype Result<T> = Success(value: T) | Failure(error: Error)
}
