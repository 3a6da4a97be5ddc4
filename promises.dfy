/** An externally settled promise (the promise-controller library the request
    table builds on), reduced to its observable status. */
module Promises {
  import opened JsValues

  /** Why a promise was rejected: an `Error` with its message, a socket event
      passed straight to `reject`, or a value thrown by a foreign call. */
  datatype Reason =
    | Error(message: string)
    | Event(event: Value)
    | Thrown(thrown: Value)

  datatype Settlement = Pending | Fulfilled(value: Value) | Rejected(reason: Reason)

  /** Settling a promise: the first settlement wins, later ones are ignored. */
  function Settle(current: Settlement, outcome: Settlement): (r: Settlement)
    requires !outcome.Pending?
    ensures !r.Pending?
  {
    if current.Pending? then outcome else current
  }

  /** A pending promise takes the first outcome it is given, and once settled
      it keeps that outcome whatever later settlements say. */
  lemma FirstSettlementWins(a: Settlement, b: Settlement)
    requires !a.Pending? && !b.Pending?
    ensures Settle(Pending, a) == a
    ensures Settle(Settle(Pending, a), b) == a && Settle(a, b) == a
  {
  }
}
