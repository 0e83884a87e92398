/** Optional values, used for the broadcaster slot, a possibly absent chat
    payload and a chat submission that may be rejected. */
module Wrappers {

  datatype Option<+T> = None | Some(value: T)
}
