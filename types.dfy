/** Values shared by every component: optional values, results, and the error
    objects the system passes around. JavaScript's falsy strings (undefined,
    null and '') are all written "" in this model; a status code of 0 stands
    for an error that carries no `statusCode` property at all. */
module Types {

  datatype Option<T> = None | Some(value: T) {
    function GetOr(default: T): T {
      match this
      case Some(v) => v
      case None => default
    }
  }

  /** An error value: what `errors.forCode` builds, or what `wrapError` makes of
      an upstream failure. `statusCode == 0` means the property is absent. */
  datatype Error = Error(statusCode: int, message: string)

  datatype Result<T> = Ok(value: T) | Err(error: Error)

  /** The TypeError the JavaScript runtime throws on a property access of
      undefined or null, or on a call of a function that does not exist. It has
      no status code. */
  const TypeError: Error := Error(0, "TypeError")

  /** The error the cache backend (the Redis client) reports when a call fails.
      It has no status code. */
  const BackendError: Error := Error(0, "cache backend error")
}
