/** The optional value used for the nullable slots of the storefront
    (the selected course, the pending route, a focus move). */
module Wrappers {

  datatype Option<+T> = None | Some(value: T)
}
