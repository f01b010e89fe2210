/** Optional values, for the places where the source has no value to give
    (an unsupported name, a division by a zero power, an unknown code). */
module Wrappers {

  datatype Option<+T> = None | Some(value: T)
}
