/** Small value wrappers shared by every module of the model. */
module Common {

  /** A value that may be absent: TypeScript's `undefined`, Go's `nil` pointer. */
  datatype Option<+T> = None | Some(value: T) {
    /** `x ?? fallback` */
    function GetOr(fallback: T): T {
      match this
      case Some(v) => v
      case None => fallback
    }
  }

  /** A settled validation or lookup: the value, or the error it was rejected with. */
  datatype Result<+R, +E> = Success(value: R) | Failure(error: E)
}
