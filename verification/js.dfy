/** The few JavaScript runtime notions the front-end relies on: a nullable
    value, a thrown value, and the settled state of a promise. */
module Js {

  /** `T | null` (or `undefined`). */
  datatype Option<+T> = None | Some(value: T)

  /** A value passed to `throw` or to a promise's `reject`. An `Error`
      instance carries a message; anything else (a DOM `Event`, say) does not. */
  datatype Thrown = ErrorObject(message: string) | NonError

  /** A settled promise. */
  datatype Outcome<+T> = Resolved(value: T) | Rejected(reason: Thrown)

  /** `e instanceof Error ? e.message : fallback` */
  function MessageOr(e: Thrown, fallback: string): (m: string)
    ensures e.ErrorObject? ==> m == e.message
    ensures e.NonError? ==> m == fallback
  {
    match e
    case ErrorObject(msg) => msg
    case NonError => fallback
  }

  /** True when every promise of the list resolved. */
  predicate AllResolved<T>(outcomes: seq<Outcome<T>>) {
    forall i :: 0 <= i < |outcomes| ==> outcomes[i].Resolved?
  }
}
