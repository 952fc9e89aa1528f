/** The optional value used wherever the job's data may be nil. */
module Options {

  /** `None` stands for Ruby's nil; `Some(v)` for a present value. */
  datatype Option<+T> = None | Some(value: T) {

    /** The value, or `default` when nil. */
    function GetOr(default: T): (r: T)
      ensures Some? ==> r == value
      ensures None? ==> r == default
    {
      match this
      case Some(v) => v
      case None => default
    }
  }
}
