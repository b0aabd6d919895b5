/**
 * The service's error taxonomy: a base error that carries a message and a
 * `data` payload for its user-facing template, and three kinds that add
 * nothing to it.
 */
module Exceptions {
  import opened Values

  /** `Error` and its three subclasses; the subclasses differ only in their class. */
  datatype ErrorKind = BaseError | ParseError | LocationError | WeatherError

  datatype Error = Error(kind: ErrorKind, message: string, data: Value)

  /** `Kind(message, data=None)`: its text is the message and its context carries the data. */
  function NewError(kind: ErrorKind, message: string, data: Value := Null): (e: Error)
    ensures e.kind == kind && e.message == message
    ensures GetContext(e) == map["data" := data]
  {
    Error(kind, message, data)
  }

  /** `str(e)`: the message the error was built from. */
  function ErrorText(e: Error): (r: string)
    ensures NewError(e.kind, r, e.data) == e
  {
    e.message
  }

  /** `e.get_context()`: the template context with the single variable `data`. */
  function GetContext(e: Error): (ctx: map<string, Value>)
    ensures ctx.Keys == {"data"}
    ensures ctx["data"] == e.data
  {
    map["data" := e.data]
  }

  /** The constructor stores its arguments unchanged and `str` and `get_context` give them back. */
  lemma ErrorRoundTrip(kind: ErrorKind, message: string, data: Value)
    ensures NewError(kind, message, data).kind == kind
    ensures ErrorText(NewError(kind, message, data)) == message
    ensures GetContext(NewError(kind, message, data)) == map["data" := data]
  {
  }

  /** A one-argument construction leaves `data` as None. */
  lemma DataDefaultsToNone(kind: ErrorKind, message: string)
    ensures NewError(kind, message).data == Null
    ensures GetContext(NewError(kind, message)) == map["data" := Null]
  {
  }

  /** The subclasses add nothing: errors of any two kinds built alike have the same text and context. */
  lemma KindsAddNothing(k1: ErrorKind, k2: ErrorKind, message: string, data: Value)
    ensures ErrorText(NewError(k1, message, data)) == ErrorText(NewError(k2, message, data))
    ensures GetContext(NewError(k1, message, data)) == GetContext(NewError(k2, message, data))
  {
  }

  /**
   * An exception a Python call can raise: one of the errors above, or any other
   * exception (KeyError, TypeError, a transport failure), named but not interpreted.
   */
  datatype Exception = App(error: Error) | Foreign(name: string)

  /** The result of a Python call: a returned value or a raised exception. */
  datatype Outcome<+T> = Returned(value: T) | Raised(exc: Exception)

  const KeyError: string := "KeyError"
  const TypeError: string := "TypeError"

  /** `except KeyError:` catches this exception. */
  predicate IsKeyError(x: Exception)
  {
    x.Foreign? && x.name == KeyError
  }
}
