/** Wrapper types shared by every module of the model. */
module Common {

  /** A value that may be missing: JavaScript's null or undefined. */
  datatype Option<+T> = None | Some(value: T) {

    /** The `??` operator: the value, or `fallback` when it is missing. */
    function GetOr(fallback: T): T {
      match this
      case Some(v) => v
      case None => fallback
    }
  }

  /** What a call wrapped in the service's try/catch helpers yields: its value, or the error it threw. */
  datatype Attempt<+T> = Done(value: T) | Threw(error: string)
}
