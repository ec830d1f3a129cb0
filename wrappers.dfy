/** Optional values and the outcome of an I/O step whose result the store receives. */
module Wrappers {

  /** A value that may be absent: a JavaScript argument that is `null` or not given. */
  datatype Option<+T> = None | Some(value: T)

  /** Why an HTTP request handed nothing usable to the store. */
  datatype FetchError =
    | NetworkError      // the request itself failed
    | MalformedResponse // the body lacked a field the store reads, so reading it threw

  /** The outcome of one HTTP request: the decoded body, or the error the store catches. */
  datatype Outcome<+T> = Ok(value: T) | Failed(error: FetchError)
}
