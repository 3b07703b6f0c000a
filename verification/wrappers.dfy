/** Optional values: the model's stand-in for a Python lookup that either
    yields a member or signals "not found". */
module Wrappers {

  datatype Option<+T> = None | Some(value: T)
}
