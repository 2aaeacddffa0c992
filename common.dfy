/** Values shared by every view: optional values, the outcome of an HTTP call,
    JavaScript's "first truthy value" idiom for messages and numbers, and the
    parsers of the JavaScript runtime that the views call. */
module Common {

  datatype Option<+T> = None | Some(value: T) {
    function GetOr(default: T): T {
      match this
      case Some(v) => v
      case None => default
    }
  }

  /** The outcome of one request through the HTTP client. A failure may carry the
      server's `response.data.message` and the transport error's own `message`. */
  datatype Response<+T> =
    | Success(body: T)
    | Failure(serverMessage: Option<string>, transportMessage: Option<string>)

  /** A string option is truthy when it is present and not empty. */
  predicate Truthy(s: Option<string>) {
    s.Some? && s.value != ""
  }

  /** `a || fallback` on an optional string. */
  function TextOr(a: Option<string>, fallback: string): (r: string)
    ensures Truthy(a) ==> r == a.value
    ensures !Truthy(a) ==> r == fallback
  {
    if Truthy(a) then a.value else fallback
  }

  /** The message a view shows after a failed call: the server's message when it
      has one, else the fixed fallback text of that view. */
  function ServerMessageOr<T>(resp: Response<T>, fallback: string): (r: string)
    requires resp.Failure?
    ensures fallback != "" ==> r != ""
    ensures Truthy(resp.serverMessage) ==> r == resp.serverMessage.value
    ensures !Truthy(resp.serverMessage) ==> r == fallback
  {
    TextOr(resp.serverMessage, fallback)
  }

  /** `x || d` on an optional natural number: absent and 0 are both falsy. */
  function NatOr(x: Option<nat>, d: nat): (r: nat)
    ensures x.Some? && x.value != 0 ==> r == x.value
    ensures x.None? || x.value == 0 ==> r == d
  {
    if x.Some? && x.value != 0 then x.value else d
  }

  /** A JavaScript number that may be NaN (the result of a failed coercion). */
  datatype Numeric = Num(n: real) | NaN

  /** The parts of the JavaScript runtime the views rely on, each an abstract
      function: `Number(s)` (None when it yields NaN), `parseInt(s, 10)` (None when
      it yields NaN) and `new Date(s)` as milliseconds since the epoch. */
  datatype Runtime = Runtime(
    number: string -> Option<real>,
    parseInt10: string -> Option<int>,
    date: string -> int)

  /** `Number(s)` as a possibly-NaN number. */
  function ToNumber(rt: Runtime, s: string): (r: Numeric)
    ensures r.Num? <==> rt.number(s).Some?
    ensures r.Num? ==> r.n == rt.number(s).value
  {
    match rt.number(s)
    case Some(v) => Num(v)
    case None => NaN
  }

  /** `parseInt(s, 10)` as a possibly-NaN number. */
  function ParseInt10(rt: Runtime, s: string): (r: Numeric)
    ensures r.Num? <==> rt.parseInt10(s).Some?
    ensures r.Num? ==> r.n == rt.parseInt10(s).value as real && r.n.Floor as real == r.n
  {
    match rt.parseInt10(s)
    case Some(v) => Num(v as real)
    case None => NaN
  }
}
