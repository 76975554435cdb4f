/** The one wrapper the models share: a value the agent may not have. */
module Wrappers {
  datatype Option<+T> = None | Some(value: T)
}
