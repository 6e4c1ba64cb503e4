/** Outcomes of the engine's operations: a value, or the failure the Java code would throw. */
module Results {

  datatype Option<+T> = None | Some(value: T)

  datatype Result<+T, +E> = Ok(value: T) | Err(error: E)

  /** The exceptions the core can raise, one constructor per cause. */
  datatype Failure =
    | UnknownFunction(name: string)                  // Slot constructor, unregistered function name
    | LengthMismatch(zPositions: int, params: int)   // Slot constructor, flag vector of the wrong length
    | IndexOutOfBounds(index: int, length: int)      // an array read or write past its end
    | DivisionByZero                                 // Apcomplex.divide by an exact zero
}
