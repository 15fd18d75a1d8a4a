/** A value that may be absent: a missing request field, a call that threw,
    a lookup that found nothing. */
module Wrappers {
  datatype Option<T> = None | Some(value: T)
}
