/** Values shared by every component: optional values, the JSON-like scalars
    that populate dataset rows and sensor readings, and the exceptions the
    Python code raises and catches. */
module Types {

  datatype Option<+T> = None | Some(value: T)

  /** A scalar as it appears in a dataset row or a JSON request body. */
  datatype Value = Num(n: real) | Text(s: string) | Flag(b: bool) | Null

  /** A dataset row, a sensor reading or an assembled feature dictionary. */
  type Row = map<string, Value>

  /** The exception classes the core raises or distinguishes when catching.
      Each constructor stands for its class together with all its
      subclasses, as an `except` clause catches them: a ConnectionRefusedError
      is a `ConnectionError`. `OtherError(name)` is only for classes outside
      the ValueError, KeyError, ConnectionError and TimeoutError families.
      `PredictionError` carries the exception it was raised from. */
  datatype Exception =
    | ValueError(msg: string)
    | KeyError(key: string)
    | ConnectionError
    | TimeoutError
    | OtherError(name: string)
    | PredictionError(cause: Exception)

  /** The outcome of a Python call: a returned value or a raised exception. */
  datatype Result<+T> = Ok(value: T) | Err(error: Exception)
}
