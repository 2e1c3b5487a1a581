/** Option, Result and Outcome wrappers, and the kinds of exception the operators raise. */
module Outcomes {

  datatype Option<+V> = None | Some(value: V)

  datatype Result<+V> = Ok(value: V) | Err(error: Error)

  /** The result of a call that returns nothing in Python but may raise. */
  datatype Outcome = Pass | Fail(error: Error)

  /** Each constructor stands for the Python exception class of the same meaning. */
  datatype Error =
    | ParameterConflict   // AssertionError raised by the parameter check of `forward`
    | AttributeMissing    // AttributeError: the object has no attribute of that name
    | IndexOutOfRange     // IndexError: a column index past the end of the parameter tensor
    | NotImplemented      // NotImplementedError raised by an abstract hook
    | WrongArguments      // TypeError: a call whose arguments do not fit the signature
}
