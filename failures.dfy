/** Thrown values and their classification (src/camera.ts, rethrowIfCritical and
    Camera.isDisconnectionError).

    JavaScript can throw any value; the controller only ever asks two questions of
    one: is its constructor exactly `Error`, and is it a DOMException with a given
    name and message. The closed datatype `Err` keeps exactly what those questions
    look at. */
module Failures {

  datatype Option<+T> = None | Some(value: T)

  /** A thrown value. */
  datatype Err =
    | PlainError(msg: string)                 // built by `new Error(msg)`, constructor exactly `Error`
    | DomException(name: string, msg: string) // a DOMException, as raised by WebUSB
    | OtherError(ctor: string, msg: string)   // anything else: TypeError, WebAssembly.RuntimeError, ...;
                                              // `ctor` is never "Error" (that value is a PlainError)

  /** How an asynchronous call settles: fulfilled with a value, or rejected with an error. */
  datatype Outcome<+T> = Returned(value: T) | Threw(err: Err)

  function FailureOf<T>(o: Outcome<T>): (r: Option<Err>)
    ensures r.Some? <==> o.Threw?
    ensures r.Some? ==> r.value == o.err
  {
    match o
    case Returned(_) => None
    case Threw(e) => Some(e)
  }

  const DisconnectionName := "NotFoundError"
  const DisconnectionText := "The device was disconnected"

  /** `sub` occurs in `s` starting at position `i`. */
  ghost predicate OccursAt(s: string, sub: string, i: int) {
    0 <= i && i + |sub| <= |s| && s[i..i + |sub|] == sub
  }

  /** An occurrence at `i + 1` in `s` is an occurrence at `i` in its tail. */
  lemma ShiftOccurrence(s: string, sub: string)
    requires |s| > 0
    ensures forall i :: 0 <= i ==> (OccursAt(s, sub, i + 1) <==> OccursAt(s[1..], sub, i))
  {
  }

  /** `s.includes(sub)`. */
  function Contains(s: string, sub: string): (r: bool)
    ensures r <==> exists i :: OccursAt(s, sub, i)
    decreases |s|
  {
    if |sub| > |s| then
      false
    else if s[..|sub|] == sub then
      assert OccursAt(s, sub, 0);
      true
    else
      ShiftOccurrence(s, sub);
      assert forall i :: OccursAt(s, sub, i) ==> i == 0 || OccursAt(s[1..], sub, i - 1);
      Contains(s[1..], sub)
  }

  /** rethrowIfCritical: every value whose constructor is not exactly `Error` is
      rethrown unchanged; a plain `Error` makes it return `false`. It never
      returns `true`. */
  function RethrowIfCritical(err: Err): (r: Outcome<bool>)
    ensures r.Threw? <==> !err.PlainError?
    ensures r.Threw? ==> r.err == err
    ensures r != Returned(true)
  {
    if !err.PlainError? then Threw(err) else Returned(false)
  }

  /** isDisconnectionError: a DOMException named NotFoundError whose message
      contains "The device was disconnected". */
  function IsDisconnectionError(err: Err): (r: bool)
    ensures r <==> err.DomException? && err.name == DisconnectionName
                   && exists i :: OccursAt(err.msg, DisconnectionText, i)
    ensures r ==> RethrowIfCritical(err) == Threw(err)
  {
    err.DomException? && err.name == DisconnectionName && Contains(err.msg, DisconnectionText)
  }
}
