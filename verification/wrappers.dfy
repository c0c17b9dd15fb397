/** The optional-value datatype: `None` stands for Python's `None`, the "no value" sentinel
    that both the input parser and every guarded indicator produce instead of raising. */
module Wrappers {

  datatype Option<+T> = None | Some(value: T)
}
