/** Failure-carrying values shared by the whole model: the `undefined`-or-value
    of a JavaScript property lookup, the `cb(err)` / `cb()` completion of a
    callback, and the `new Error(message)` objects the handler raises. */
module Results {

  /** A value that may be absent (a JavaScript property that is `undefined`). */
  datatype Option<+T> = None | Some(value: T)

  /** The completion of a Node-style callback: `cb()` or `cb(err)`. */
  datatype Outcome<+E> = Pass | Fail(error: E)

  /** The completion of a Node-style callback that also delivers data: `cb(null, data)` or `cb(err)`. */
  datatype Result<+R, +E> = Success(value: R) | Failure(error: E)

  /** A JavaScript `Error` object; only its message is observable. */
  datatype Error = Error(message: string)
}
