/** A value that may be absent: an `undefined` field of a JSON object, or a lookup that found nothing. */
module Wrappers {
  datatype Option<T> = None | Some(value: T)
}
