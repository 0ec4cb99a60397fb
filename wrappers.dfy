/** The absence signal of the sampler (Python's `None`) and of the parsers. */
module Wrappers {

  datatype Option<+T> = None | Some(value: T)
}
