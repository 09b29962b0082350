/** Failure-carrying results and the exception kinds the system raises. */
module Wrappers {

  datatype Option<+T> = None | Some(value: T)

  /** The Python exceptions that cross component boundaries, by class. */
  datatype Exception =
    | ValueError(message: string)
    | TypeError(message: string)
    | KeyError(key: string)
    | AttributeError(message: string)
      /** pisag.plugins.base.EncodingError */
    | EncodingError(message: string)
      /** pisag.plugins.base.ConfigurationError (SDR configuration failed) */
    | SdrConfigurationError(message: string)
      /** pisag.plugins.base.TransmissionError */
    | TransmissionError(message: string)
      /** pisag.config.ConfigurationError, a subclass of ValueError */
    | ConfigurationError(message: string)
      /** any other exception class */
    | OtherError(message: string)
  {
    /** `str(exc)`: the message, or the quoted key of a KeyError */
    function Text(): string
    {
      if KeyError? then "'" + key + "'" else message
    }
  }

  datatype Result<+T> = Ok(value: T) | Err(error: Exception)
  {
    predicate IsFailure() { Err? }

    function PropagateFailure<U>(): Result<U>
      requires Err?
    {
      Err(error)
    }

    function Extract(): T
      requires Ok?
    {
      value
    }
  }

  /** A check that either passes or raises. */
  datatype Outcome = Pass | Fail(error: Exception)
  {
    predicate IsFailure() { Fail? }

    function PropagateFailure<U>(): Result<U>
      requires Fail?
    {
      Err(error)
    }
  }
}
