/** Option and Result, the two shapes every asynchronous call and every nullable
    slot of the front end takes in this model. */
module Wrappers {

  datatype Option<+T> = None | Some(value: T)

  /** Why an awaited call was rejected. */
  datatype Failure =
    | NetworkError            // no response reached the client
    | HttpStatus(code: int)   // a response with a non-2xx status
    | StorageDenied           // `localStorage` threw (disabled or blocked storage)
    | MalformedResponse       // a response body lacking a field the code dereferences
    | MissingProvider         // `useAuth` called outside an `AuthProvider`

  /** The outcome of one awaited promise: resolved with a value or rejected. */
  datatype Result<+T> = Ok(value: T) | Err(failure: Failure)

  /** True for a rejection caused by an HTTP 401 response. */
  predicate IsUnauthorized<T>(r: Result<T>) {
    r.Err? && r.failure == HttpStatus(401)
  }
}
