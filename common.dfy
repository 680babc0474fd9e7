/** Shared small datatypes: an optional value, a result with an error, and
    the errors the analyzer can report. */
module Common {

  /** An optional value. `None` also stands for the NaN that pandas
      produces for the mean of an empty column. */
  datatype Option<+T> = None | Some(value: T)

  /** The ways the burn-rate calculation can fail. */
  datatype Error =
    | DateParseError   // some cell of the date column could not be coerced to a date
    | EmptySeries      // `iloc[-1]` on a frame without rows

  datatype Result<+T> = Success(value: T) | Failure(error: Error)

  function Min(a: int, b: int): int
  {
    if a <= b then a else b
  }
}
