/** Optional values and the settled state of an asynchronous call.

    The application awaits promises returned by its HTTP client and by the
    authentication provider. A call either resolves with a value or rejects
    with something thrown; `Outcome` is that settled promise, and `Fault` keeps
    the two parts of a rejection that the pages read.
 */
module Outcomes {

  /** `undefined` versus a present value. */
  datatype Option<+T> = None | Some(value: T) {

    /** The value, or `default` when there is none. */
    function GetOr(default: T): T {
      match this
      case Some(v) => v
      case None => default
    }
  }

  /** What a rejected call carries.
      `errorMessage` is `Some(m)` when the thrown value is an `Error` whose
      `message` is `m`; `responseMessage` is the server's
      `response.data.message`, when the rejection came with a response body
      holding one. */
  datatype Fault = Fault(errorMessage: Option<string>, responseMessage: Option<string>)

  /** A settled promise: resolved with a value, or rejected with a fault. */
  datatype Outcome<+T> = Ok(value: T) | Err(fault: Fault)
}

/** The few JavaScript runtime values whose truthiness the application tests. */
module Js {

  datatype JsValue =
    | Undefined
    | Bool(b: bool)
    | Num(n: int)
    | Str(s: string)
    | Function(name: string)
    | Object

  /** JavaScript truthiness, for the values above: `undefined`, `false`, `0`
      and `''` are falsy; every function and object is truthy. */
  predicate Truthy(v: JsValue) {
    match v
    case Undefined => false
    case Bool(b) => b
    case Num(n) => n != 0
    case Str(s) => s != ""
    case Function(_) => true
    case Object => true
  }

  /** `a || b`: the left operand when it is truthy, otherwise the right one. */
  function Or(a: JsValue, b: JsValue): (r: JsValue)
    ensures Truthy(a) ==> r == a
    ensures !Truthy(a) ==> r == b
  {
    if Truthy(a) then a else b
  }
}
