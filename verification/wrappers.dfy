/** The optional-value datatype used for results that may be absent:
    a configuration file that could not be read, a cluster name that is
    not an EKS ARN, a string that is not a boolean literal. */
module Wrappers {

  datatype Option<+T> = None | Some(value: T) {

    /** Returns the value held in Some, or `default` if None */
    function GetOr(default: T): T {
      match this
      case Some(v) => v
      case None => default
    }
  }
}
