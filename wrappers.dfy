/** Optional values, used for the one-slot beat channel, the running ticker
    and the click a beat may trigger. */
module Wrappers {

  datatype Option<+T> = None | Some(value: T)
}
