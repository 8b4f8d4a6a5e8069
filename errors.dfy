/** Errors as the git client sees them: Go's `error` values, classified the way the
    client inspects them (`os.IsNotExist`, `os.IsExist`), and the two wrappers the
    client returns them in. */
module Errors {

  datatype Option<T> = None | Some(value: T)

  /** A Go pair `(value, error)` in which exactly one side is meaningful. */
  datatype Result<T> = Ok(value: T) | Err(error: Error)

  /** The only distinctions the client draws between errors. */
  datatype ErrorKind = NotExist | Exist | Other

  datatype Error = Error(kind: ErrorKind, msg: string)

  /** `fmt.Errorf(context + "%v", e)`: a new error carrying e's text; it is
      neither a not-exist nor an exist error any more. */
  function Wrap(context: string, e: Error): Error
  {
    Error(Other, context + e.msg)
  }
}
