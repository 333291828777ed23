/** Failure-compatible option type used where the keyboard script yields
    `undefined`, `null` or `NaN`. */
module Wrappers {

  datatype Option<+T> = None | Some(value: T)
}
