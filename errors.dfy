/** The exceptions the connection raises, and the Result/Outcome wrappers
    that carry them out of the modelled operations in place of Python's
    `raise`. The driver's own hierarchy lives in pycovenantsql/err.py, which
    is not part of this model; only the kinds and their arguments are used. */
module Errors {

  import opened Json

  /** The extra argument an exception carries beside its message. */
  datatype Detail =
    | NoDetail
    | Reason(text: string)      // the HTTP reason phrase of the transport reply
    | Status(value: JsonValue)      // the `status` member of a decoded envelope

  datatype Exc =
    | Error(msg: string)                              // err.Error
    | InterfaceError(msg: string, detail: Detail)     // err.InterfaceError
    | OperationalError(msg: string, detail: Detail)   // err.OperationalError
    | ValueError(msg: string)                         // Python's ValueError
    | KeyError(key: string)                           // Python's KeyError from a dict lookup
    | TypeError                                       // Python's TypeError (subscript, len or iteration of the wrong kind of value)
    | AttributeError(name: string)                    // Python's AttributeError (an attribute never assigned, or one read on None)

  datatype Result<+T> = Success(value: T) | Failure(error: Exc) {
    /** The same call with its value dropped, as a caller that ignores the
        return value sees it. */
    function ToOutcome(): Outcome
    {
      if Success? then Pass else Fail(error)
    }
  }

  datatype Outcome = Pass | Fail(error: Exc)
}
