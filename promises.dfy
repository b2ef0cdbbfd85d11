/** JavaScript values the queue hands out: optional values, a thrown-or-returned
    result, and the observable state of a promise. */
module Promises {

  datatype Option<T> = None | Some(value: T)

  datatype Result<T, E> = Success(value: T) | Failure(error: E)

  /** The state of one JavaScript promise as its holder observes it.
      `Fulfilled(None)` is a promise resolved with `null`; `Rejected(None)` one
      rejected with no reason at all (`reject()`). */
  datatype Settlement<V, E> = Pending | Fulfilled(value: Option<V>) | Rejected(reason: Option<E>)

  /** Calling `resolve` or `reject` on a promise in state `p`: a promise settles
      once, and every later call of either function is ignored. */
  function Settle<V, E>(p: Settlement<V, E>, next: Settlement<V, E>): (r: Settlement<V, E>)
    requires !next.Pending?
    ensures !r.Pending?
    ensures p.Pending? ==> r == next
    ensures !p.Pending? ==> r == p
  {
    if p.Pending? then next else p
  }
}
