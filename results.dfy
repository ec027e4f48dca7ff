/** Result and failure types shared by the model of the end-to-end test. */
module Results {

  datatype Option<+T> = None | Some(value: T)

  /** The outcome of a fallible step; usable with `:-`. */
  datatype Result<+T, +E> = Ok(value: T) | Err(error: E) {

    predicate IsFailure() {
      Err?
    }

    function PropagateFailure<U>(): Result<U, E>
      requires Err?
    {
      Err(error)
    }

    function Extract(): T
      requires Ok?
    {
      value
    }
  }

  /** What an `eyre::Result` error in the test driver stands for. */
  datatype ErrorKind =
    | TooManyAttempts       // `bail!("to many attempts")` at the end of `retry`
    | DifferentInterfaces   // the discovery `ensure!`
    | MissingData           // the aggregate poll returned no object
    | EndpointNotFound      // a key of ENDPOINTS is not in the aggregate
    | PropertyNotUnset      // the property set is not empty after the unsets
    | NotAnObject           // an event payload is not of the expected shape
    | Api                   // an inspection-API call returned an error
    | Client                // a device-client call returned an error
    | Recv                  // receiving the next event failed
    | Close                 // closing the device client failed

  /** The `assert_eq!` checks of the test driver; a failed one panics. */
  datatype Check = AggregateData | EventInterface | EventPath | EventData

  /** Why a run stops: an error returned with `?`, or a panic of `assert_eq!`. */
  datatype Failure = Error(kind: ErrorKind) | Panic(check: Check)

  type Outcome<T> = Result<T, Failure>
}
