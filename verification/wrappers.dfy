/** Optional values, standing in for the null references of the C# component. */
module Wrappers {

  /** `None` plays the part of a null reference. */
  datatype Option<+T> = None | Some(value: T)
}
