/**
 * The shapes of JavaScript values that the client reads from forms, router state
 * and JSON replies, and the truthiness tests (`x || y`, `if (!x)`) it applies to them.
 * An absent property, `undefined` and `null` are all `None`.
 */
module Js {

  datatype Option<+T> = None | Some(value: T)

  /** A document identifier: the backend sends numbers, the router gives strings. */
  datatype Id = Num(n: int) | Str(s: string)

  /** `!!id`: absent, `0` and `""` are falsy. */
  predicate IdTruthy(id: Option<Id>) {
    match id
    case None => false
    case Some(Num(n)) => n != 0
    case Some(Str(s)) => s != ""
  }

  /** `a || b` on identifiers. */
  function IdOr(a: Option<Id>, b: Option<Id>): (r: Option<Id>)
    ensures IdTruthy(a) ==> r == a
    ensures !IdTruthy(a) ==> r == b
  {
    if IdTruthy(a) then a else b
  }

  /** `!!s` on an optional string: absent and `""` are falsy. */
  predicate Truthy(s: Option<string>) {
    s.Some? && s.value != ""
  }

  /** `s || fallback` where the fallback is a string. */
  function OrElse(s: Option<string>, fallback: string): (r: string)
    ensures Truthy(s) ==> r == s.value
    ensures !Truthy(s) ==> r == fallback
  {
    if Truthy(s) then s.value else fallback
  }

  /** `a || b` where both sides may be absent. */
  function OrOption(a: Option<string>, b: Option<string>): (r: Option<string>)
    ensures Truthy(a) ==> r == a
    ensures !Truthy(a) ==> r == b
  {
    if Truthy(a) then a else b
  }

  /** A thrown JavaScript error: its `name` ("Error", "TypeError", ...) and `message`. */
  datatype JsError = JsError(name: string, message: string)

  /** `new Error(message)`. */
  function Error(message: string): JsError {
    JsError("Error", message)
  }

  /** What `await response.json()` gives: a value, or the error it throws. */
  datatype Body<+T> = Unparseable(parseError: JsError) | Parsed(value: T)

  /** What `await fetch(...)` gives: a rejected promise, or a response with its `ok` flag and body. */
  datatype Fetch<+T> = NetworkError(err: JsError) | Response(ok: bool, body: Body<T>)

  /** The settled value of an `async` call: it returned a value or threw. */
  datatype Outcome<+T> = Returned(value: T) | Threw(error: JsError)

  /** The `{success, data, error}` envelope every backend reply is wrapped in. */
  datatype Envelope<+D> = Envelope(success: bool, data: Option<D>, error: Option<string>)

  /** `errorData.error` where `errorData` is `await response.json().catch(() => ({}))`. */
  function ErrorField<D>(body: Body<Envelope<D>>): Option<string> {
    match body
    case Parsed(e) => e.error
    case Unparseable(_) => None
  }

  datatype Method = GET | POST | PUT

  /** An HTTP request as the client builds it. */
  datatype Request<+B> = Request(verb: Method, url: string, body: Option<B>)
}
