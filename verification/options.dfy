/** Optional values and the "returned normally or raised" outcome of a Python call. */
module Options {

  /** A value that may be absent: Python's `None` versus a present value. */
  datatype Option<+T> = None | Some(value: T) {

    /** The present value, or `default` when absent (Python's `d.get(k, default)`). */
    function GetOr(default: T): T {
      match this
      case Some(v) => v
      case None => default
    }
  }

  /** How a call ended: it returned `value`, or it raised an exception that nothing
      on the modelled path catches. */
  datatype Completion<+T> = Normal(value: T) | Raised
}
