/** Values that may be absent, and evaluations that may throw, as the webhook bot's
    JavaScript sees them. */
module Common {

  /** A JSON value that may be missing (`undefined` in JavaScript). */
  datatype Option<+T> = None | Some(value: T)

  /** The outcome of evaluating JavaScript code that may throw: it either completes with
      a value, or it throws (a TypeError from reading a property of `undefined`, a
      RangeError from a library call). Failure-compatible, so `:-` propagates a throw. */
  datatype Attempt<+T> = Done(value: T) | Throws {

    predicate IsFailure() {
      Throws?
    }

    function PropagateFailure<U>(): Attempt<U>
      requires Throws?
    {
      Throws
    }

    function Extract(): T
      requires Done?
    {
      value
    }
  }

  /** Reading a property of an object that may be `undefined`: the read throws when it is. */
  function Read<T>(o: Option<T>): (r: Attempt<T>)
    ensures r.Done? <==> o.Some?
    ensures r.Done? ==> r.value == o.value
  {
    match o
    case Some(v) => Done(v)
    case None => Throws
  }

  /** JavaScript truthiness of an optional string: `undefined` and `""` are falsy. */
  predicate Truthy(o: Option<string>) {
    o.Some? && o.value != ""
  }

  /** `o || fallback` on an optional string. */
  function OrElse(o: Option<string>, fallback: string): (r: string)
    ensures Truthy(o) ==> r == o.value
    ensures !Truthy(o) ==> r == fallback
  {
    if Truthy(o) then o.value else fallback
  }

  /** How a template literal renders a string that may be `undefined`. */
  function Interpolate(o: Option<string>): string {
    match o
    case Some(s) => s
    case None => "undefined"
  }
}
