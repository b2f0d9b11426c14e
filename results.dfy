/** Outcomes of evaluation: a tensor, or the error the source throws. */
module Results {

  datatype Error =
    | ShapesMustMatch          // invalid_argument from the elementwise operations
    | BatchSizeMismatch        // invalid_argument, matrix multiplication
    | ChannelsMismatch         // invalid_argument, matrix multiplication
    | IncompatibleDimensions   // invalid_argument, matrix multiplication
    | KernelChannelsMismatch   // invalid_argument, convolution
    | UnsupportedGeometry      // convolution sizes the source leaves unchecked
    | AssertionFailure         // a debug-build assert of the tensor class firing

  datatype Result<T> = Ok(value: T) | Err(error: Error)
  {
    predicate IsFailure()
    {
      Err?
    }

    function PropagateFailure<U>(): Result<U>
      requires Err?
    {
      Err(error)
    }

    function Extract(): T
      requires Ok?
    {
      value
    }
  }
}
