/**
  Values exchanged with the messaging service, and the ways the client's
  operations fail.

  Every frame and every REST reply is a JSON object. `Value` is a JSON value
  whose numbers are integers; a `Record` is a JSON object, the attribute map
  of a channel, user, group, IM or bot, and also the raw body of an event. `Error` names the exceptions
  the client raises, so that each operation returns a `Result` instead of
  raising.
 */
module Values {

  datatype Value =
    | Null
    | Bool(b: bool)
    | Int(i: int)
    | Str(s: string)
    | List(items: seq<Value>)
    | Obj(fields: map<string, Value>)

  type Record = map<string, Value>

  /** A value that can be a dictionary key or be looked up in one. */
  predicate Hashable(v: Value) {
    !v.List? && !v.Obj?
  }

  datatype Error =
    | KeyError(key: Value)                   // a dictionary subscript found no such key
    | AttributeError(owner: string, name: string)
    | TypeError(reason: string)
    | IndexError(reason: string)
    | NameError(name: string)                // a name that is not defined in the module
    | AssertionError(message: string)
    | RuntimeError(reason: string)           // the interpreter's recursion limit
    | SlackError(code: string)               // a REST call answered with ok = false
    | Exception(message: string)             // a bare `raise Exception, ...`

  datatype Option<T> = None | Some(value: T)

  datatype Result<T> = Success(value: T) | Failure(error: Error) {
    predicate IsFailure() {
      Failure?
    }

    function PropagateFailure<U>(): Result<U>
      requires Failure?
    {
      Failure(error)
    }

    function Extract(): T
      requires Success?
    {
      value
    }
  }

  /** The result of a statement that returns nothing: it completes, or it raises. */
  datatype Outcome = Pass | Fail(error: Error) {
    predicate IsFailure() {
      Fail?
    }

    function PropagateFailure(): Outcome
      requires Fail?
    {
      this
    }
  }

  /** `s.upper()`, restricted to ASCII letters. */
  function UpperChar(c: char): (u: char)
    ensures 'a' <= c <= 'z' ==> u as int == c as int - 32
    ensures !('a' <= c <= 'z') ==> u == c
  {
    if 'a' <= c <= 'z' then (c as int - 32) as char else c
  }

  function Upper(s: string): (u: string)
    ensures |u| == |s|
    ensures forall i :: 0 <= i < |s| ==> u[i] == UpperChar(s[i])
  {
    seq(|s|, i requires 0 <= i < |s| => UpperChar(s[i]))
  }
}
