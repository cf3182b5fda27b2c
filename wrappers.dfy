/** Optional values, used for "the host had an event" and "this event yields a message". */
module Wrappers {
  datatype Option<+T> = None | Some(value: T)
}
