/** Optional values (a nullable reference or java.util.Optional) and results
  * (a value, or the exception the Java code would throw). */
module Wrappers {
  datatype Option<T> = None | Some(value: T)
  {
    function GetOr(fallback: T): T
    {
      if Some? then value else fallback
    }
  }

  /** The exceptions the modelled constructors and builders throw. */
  datatype Failure =
    | IllegalArgument(reason: string)
    | IllegalState(reason: string)
    | NullPointer(reason: string)
    | Arithmetic(reason: string)

  datatype Result<T> = Ok(value: T) | Err(failure: Failure)
}
