/** The optional value used throughout the model: JavaScript's `undefined`
    (a missing array element, a `find` that found nothing) becomes `None`. */
module Wrappers {

  datatype Option<+T> = None | Some(value: T)
}
