/** Optional values, used wherever the agent's Python code either yields a value or
    raises an exception that its caller catches. */
module Wrappers {

  datatype Option<+T> = None | Some(value: T)
}
