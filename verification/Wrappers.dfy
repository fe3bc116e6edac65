/** The optional value used where the storefront has `undefined`, `null`
    or `NaN`. */
module Wrappers {

  datatype Option<+T> = None | Some(value: T)
}
