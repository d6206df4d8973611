/** Small types shared by every component of the model. */
module Common {

  /** Names an object: a connection, an output, a child, a call in progress. */
  type Id = nat

  datatype Option<+T> = None | Some(value: T)

  /** The error classes the coordination layer itself distinguishes; every other native code is `Native`. */
  datatype Error = InUse | Closed | NotBound | InvalidArgument | Native(code: int)

  datatype Outcome = Ok | Err(error: Error)

  /** The native code that both packages map to their in-use sentinel. */
  const ERROR_IN_USE: int := 6026

  function OutcomeOf(code: int): Outcome {
    if code == 0 then Ok
    else if code == ERROR_IN_USE then Err(InUse)
    else Err(Native(code))
  }
}
