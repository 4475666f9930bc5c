/**
 * The two-checkpoint mutation record (web/js/datastore/DatastoreMutation is
 * not part of this model; it is assumed to be a pair of latches, `written`
 * and `committed`, and `DefaultDatastoreMutation` a pair of fresh ones), and
 * the consistency level (`DatastoreConsistency`, 'written' | 'committed').
 */
module DatastoreMutation {
  import opened Latch

  /** A consistency level; it also names the checkpoint of a record that the level is about. */
  datatype Consistency = Written | Committed

  /** The value of a mutation record: the states of its two latches. */
  datatype Record<T> = Record(written: LatchState<T>, committed: LatchState<T>)
  {
    function At(cp: Consistency): LatchState<T> {
      if cp == Written then written else committed
    }

    /** The record with the latch of checkpoint `cp` replaced by `l`. */
    function Update(cp: Consistency, l: LatchState<T>): Record<T> {
      if cp == Written then this.(written := l) else this.(committed := l)
    }
  }

  /** A record whose latches are both pending. */
  function Fresh<T>(): Record<T> {
    Record(Pending, Pending)
  }

  /** A mutation record object: two latches, settled in place. */
  class Mutation<T> {
    const written: Latch<T>
    const committed: Latch<T>

    ghost predicate Valid() {
      written != committed
    }

    function Model(): Record<T>
      reads written, committed
    {
      Record(written.state, committed.state)
    }

    function Checkpoint(cp: Consistency): Latch<T> {
      if cp == Written then written else committed
    }

    /** `new DefaultDatastoreMutation()`: two fresh pending latches. */
    constructor ()
      ensures Valid() && fresh(written) && fresh(committed)
      ensures Model() == Fresh()
    {
      written := new Latch();
      committed := new Latch();
    }
  }
}
