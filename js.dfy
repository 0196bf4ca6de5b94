/** JavaScript values as the two core files see them: the truthiness rules that
    their `if (!x)` and `a || b` tests rely on, the error objects that the remote
    client rejects with, and the usual Option/Result wrappers. */
module Js {

  datatype Option<+T> = None | Some(value: T)

  datatype Result<+T, +E> = Success(value: T) | Failure(error: E)

  /** A JS value. `Num` is a finite number (+0 and -0 are both `Num(0.0)`),
      `NaN` the one number that is falsy without being zero. */
  datatype Value =
    | Undefined
    | Null
    | Bool(b: bool)
    | Num(n: real)
    | NaN
    | Str(s: string)
    | Arr(items: seq<Value>)
    | Obj(fields: map<string, Value>)

  /** JS truthiness: `undefined`, `null`, `false`, `0`, `NaN` and `""` are falsy,
      everything else (objects and arrays included, even empty ones) is truthy. */
  predicate Truthy(v: Value)
  {
    match v
    case Undefined => false
    case Null => false
    case Bool(b) => b
    case Num(n) => n != 0.0
    case NaN => false
    case Str(s) => s != ""
    case Arr(_) => true
    case Obj(_) => true
  }

  /** Property lookup on a plain object: a missing key reads as `undefined`. */
  function Get(m: map<string, Value>, key: string): Value
  {
    if key in m then m[key] else Undefined
  }

  /** A rejected promise's error object, with the fields the core reads:
      `message`, `code` (e.g. ECONNREFUSED), `status` (a protocol status number),
      `cause.value.message` (None when `cause` or `cause.value` is missing) and
      `selector` (attached by the locators). */
  datatype Error = Error(
    message: string,
    code: Option<string>,
    status: Option<int>,
    causeMessage: Option<string>,
    selector: Option<string>)

  /** The settled state of a promise that carries no value. */
  datatype Outcome = Ok | Fail(error: Error)
}
