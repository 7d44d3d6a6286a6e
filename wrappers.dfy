/** Option type for lookups that can fail (an unknown relay or servo
    number) and for readings that can be absent (no GPS fix). */
module Wrappers {

  datatype Option<+T> = None | Some(value: T)
}
