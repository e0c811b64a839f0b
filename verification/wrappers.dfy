/** Optional values: Python's `Optional[...]`, where `None` stands for an absent value. */
module Wrappers {

  datatype Option<+T> = None | Some(value: T)
}
