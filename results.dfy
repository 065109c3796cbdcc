/** The errors the modelled code raises, and a Result type to carry them. */
module Results {

  datatype Error =
    /** ValueError: an ordering tag outside PLAIN = 1, TVT = 2, VTV = 3. */
    | UnknownSplitOperatorType(tag: int)
    /** ValueError raised by numpy's linspace for a negative number of samples. */
    | NegativeSampleCount(num: int)
    /** IndexError: the (negative) index `index` is out of range for an array of length `length`. */
    | IndexOutOfRange(index: int, length: int)
    /** ZeroDivisionError in a float division. */
    | DivisionByZero

  datatype Result<+T> = Success(value: T) | Failure(error: Error)
}
