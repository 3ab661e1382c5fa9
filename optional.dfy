/** Absent-or-present values and success-or-error results, as the dashboard's
    JSON documents and fetch attempts produce them. */
module Optional {

  /** A JSON value that may be `null` or missing (`None`) or present (`Some`). */
  datatype Option<+T> = None | Some(value: T) {

    /** JavaScript's nullish coalescing `x ?? default`: only an absent value
        is replaced, a present one (including a present zero) is kept. */
    function Coalesce(default: T): (r: T)
      ensures Some? ==> r == value
      ensures None? ==> r == default
    {
      match this
      case Some(v) => v
      case None => default
    }
  }

  /** The outcome of an operation that either yields a value or fails with a message. */
  datatype Result<+T> = Ok(value: T) | Err(message: string)
}
