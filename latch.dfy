/**
 * The one-shot settlement cell that the mutation coordinator is built on
 * (web/js/util/Latch is not part of this model; its behaviour is assumed):
 * a latch starts pending and is settled at most once, either fulfilled with
 * a value or rejected with an error. The first settlement wins; every later
 * resolve or reject is a no-op, and every observer sees the same outcome.
 */
module Latch {

  /** The error a rejection carries (the thrown value, by its message). */
  type Error = string

  /** The terminal outcome of an asynchronous step. */
  datatype Outcome<+T> = Fulfilled(value: T) | Rejected(error: Error)

  /** What a latch holds: nothing yet, or its one terminal outcome. */
  datatype LatchState<+T> = Pending | Settled(outcome: Outcome<T>)
  {
    predicate IsFulfilled() {
      Settled? && outcome.Fulfilled?
    }

    predicate IsRejected() {
      Settled? && outcome.Rejected?
    }
  }

  /** `resolve`/`reject` on a latch: settles a pending latch, and is a no-op on a settled one. */
  function Settle<T>(l: LatchState<T>, o: Outcome<T>): LatchState<T>
  {
    if l.Pending? then Settled(o) else l
  }

  /** A sequence of settlement attempts, from whatever code holds the latch, in the order they happen. */
  function SettleAll<T>(l: LatchState<T>, attempts: seq<Outcome<T>>): LatchState<T>
    decreases |attempts|
  {
    if attempts == [] then l else SettleAll(Settle(l, attempts[0]), attempts[1..])
  }

  /** The same outcome with its value forgotten, as a `Promise<void>` that follows it sees it. */
  function Erase<T>(o: Outcome<T>): Outcome<()>
  {
    match o
    case Fulfilled(_) => Fulfilled(())
    case Rejected(e) => Rejected(e)
  }

  /** Once settled, a latch never changes again, whatever is attempted afterwards. */
  lemma {:induction false} SettledIsFinal<T>(l: LatchState<T>, attempts: seq<Outcome<T>>)
    requires l.Settled?
    ensures SettleAll(l, attempts) == l
    decreases |attempts|
  {
    if attempts != [] {
      SettledIsFinal(Settle(l, attempts[0]), attempts[1..]);
    }
  }

  /** Racing producers: a fresh latch ends up with the first attempted outcome, or stays pending if there is none. */
  lemma {:induction false} FirstSettlementWins<T>(attempts: seq<Outcome<T>>)
    ensures attempts == [] ==> SettleAll(Pending, attempts) == Pending
    ensures attempts != [] ==> SettleAll(Pending, attempts) == Settled(attempts[0])
  {
    if attempts != [] {
      SettledIsFinal(Settled(attempts[0]), attempts[1..]);
    }
  }

  /** A latch object, settled in place by whoever holds it. */
  class Latch<T> {
    var state: LatchState<T>

    constructor ()
      ensures state == Pending
    {
      state := Pending;
    }

    method Resolve(v: T)
      modifies this
      ensures state == Settle(old(state), Fulfilled(v))
    {
      if state.Pending? {
        state := Settled(Fulfilled(v));
      }
    }

    method Reject(e: Error)
      modifies this
      ensures state == Settle(old(state), Rejected(e))
    {
      if state.Pending? {
        state := Settled(Rejected(e));
      }
    }
  }
}
