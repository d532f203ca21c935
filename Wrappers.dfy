/** Optional values: `None` stands for a form field holding the empty string
    or for a state slot holding `null`. */
module Wrappers {

  datatype Option<+T> = None | Some(value: T)
}
