/** Error signalling shared by every module: the Java exceptions of the library
    become values. */
module Wrappers {

  /** The kinds of Java exception the modelled code throws. */
  datatype Error =
    | IllegalArgument      // IllegalArgumentException (and NumberFormatException)
    | IllegalState         // IllegalStateException
    | Arithmetic           // ArithmeticException (NaN or Infinite input)
    | NullPointer          // NullPointerException
    | IndexOutOfBounds     // ArrayIndexOutOfBoundsException
    | NegativeArraySize    // NegativeArraySizeException

  datatype Option<+T> = None | Some(value: T)

  datatype Result<+T> = Ok(value: T) | Err(error: Error)

  datatype Outcome = Pass | Fail(error: Error)
}
