/** Optional values, for the lookups and decoders that can come back empty. */
module Wrappers {

  datatype Option<+T> = None | Some(value: T)
}
