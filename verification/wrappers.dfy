/** The optional value of the source: `undefined`/`null` versus a present value. */
module Wrappers {

  datatype Option<+T> = None | Some(value: T) {

    /**
     * The value, or `default` when absent. The source writes `x || 0`, which
     * also replaces a present 0; every default it uses is 0, so that case
     * gives the same number either way.
     */
    function GetOr(default: T): T {
      match this
      case Some(v) => v
      case None => default
    }
  }
}
