/**
 * The mutation coordinator of web/js/datastore/DatastoreMutations.ts.
 *
 * Every `.then`/`.catch` callback of the source is a reaction that fires when
 * the latch it waits on settles. The environment (the injected `remoteSync`
 * and `localSync` procedures, and whoever else holds the records) delivers
 * settlement events in any order; a reaction runs as soon as its input
 * settles. The pure part below gives the state after each event as a
 * function of the state before it; the classes at the end settle latch
 * objects in place and are proved to follow those functions.
 */
module DatastoreMutations {
  import opened Latch
  import opened DatastoreMutation

  /** The two backends whose writes are coordinated. */
  datatype Side = Remote | Local

  /**
   * A settlement delivered by the environment: a checkpoint of the remote or
   * local record is settled, or the promise returned by `remoteSync` or
   * `localSync` settles.
   */
  datatype Event<T> =
    | CheckpointSettled(side: Side, checkpoint: Consistency, outcome: Outcome<T>)
    | SyncSettled(sync: Side, result: Outcome<()>)

  /** What the promise returned by `executeBatchedWrite` sees of an event when it settles because of it. */
  function Observed<T>(ev: Event<T>): Outcome<()> {
    match ev
    case CheckpointSettled(_, _, o) => Erase(o)
    case SyncSettled(_, o) => o
  }

  // ---------------------------------------------------------------------------
  // batched / batchPromises: the two-of-two join
  // ---------------------------------------------------------------------------

  /** `batched` joins the written checkpoints always, the committed ones only under 'committed'. */
  predicate Joins(c: Consistency, cp: Consistency) {
    cp == Written || c == Committed
  }

  /**
   * The reaction of `Promise.all([remote, local])` in `batchPromises` when one
   * input has just settled with `o` and the inputs now stand at `remote` and
   * `local`: a rejection rejects the target with that error, and the second
   * fulfilment resolves it with the remote value.
   */
  function JoinReaction<T>(remote: LatchState<T>, local: LatchState<T>, o: Outcome<T>, target: LatchState<T>): LatchState<T>
  {
    match o
    case Rejected(e) => Settle(target, Rejected(e))
    case Fulfilled(_) =>
      if remote.IsFulfilled() && local.IsFulfilled() then Settle(target, Fulfilled(remote.outcome.value)) else target
  }

  /** The records `batched` wires together, and the consistency level of the coordinator. */
  datatype Batch<T> = Batch(consistency: Consistency, remote: Record<T>, local: Record<T>, target: Record<T>)
  {
    function Input(side: Side): Record<T> {
      if side == Remote then remote else local
    }
  }

  /**
   * Checkpoint `cp` of the `side` record is settled with `o`. A latch that is
   * already settled ignores the attempt, and then no reaction fires.
   */
  function BatchStep<T>(b: Batch<T>, side: Side, cp: Consistency, o: Outcome<T>): Batch<T>
  {
    if !b.Input(side).At(cp).Pending? then b
    else
      var remote := if side == Remote then b.remote.Update(cp, Settled(o)) else b.remote;
      var local := if side == Local then b.local.Update(cp, Settled(o)) else b.local;
      var target :=
        if Joins(b.consistency, cp) then b.target.Update(cp, JoinReaction(remote.At(cp), local.At(cp), o, b.target.At(cp)))
        else b.target;
      Batch(b.consistency, remote, local, target)
  }

  /** The wiring of `batched` under a sequence of events (promise settlements of the sync procedures do not reach it). */
  function BatchRun<T>(b: Batch<T>, events: seq<Event<T>>): Batch<T>
    decreases |events|
  {
    if events == [] then b
    else
      var next := match events[0]
        case CheckpointSettled(side, cp, o) => BatchStep(b, side, cp, o)
        case SyncSettled(_, _) => b;
      BatchRun(next, events[1..])
  }

  /**
   * The join rule for one checkpoint, with `t0` the target latch when the
   * wiring was attached: a target settled beforehand keeps its outcome;
   * otherwise the target settles exactly when an input rejects or both
   * fulfil, it is fulfilled only with the remote value of two fulfilled
   * inputs, and it is rejected only with the error of a rejected input.
   */
  ghost predicate JoinInv<T>(remote: LatchState<T>, local: LatchState<T>, target: LatchState<T>, t0: LatchState<T>) {
    if t0.Settled? then target == t0
    else
      && (target.Pending? <==> !remote.IsRejected() && !local.IsRejected() && !(remote.IsFulfilled() && local.IsFulfilled()))
      && (target.IsFulfilled() ==> remote.IsFulfilled() && local.IsFulfilled() && target.outcome.value == remote.outcome.value)
      && (target.IsRejected() ==> remote == target || local == target)
  }

  /** The join rule on every checkpoint `batched` wires; the committed target is left alone under 'written'. */
  ghost predicate BatchInv<T>(b: Batch<T>, t0: Record<T>) {
    && JoinInv(b.remote.written, b.local.written, b.target.written, t0.written)
    && (if b.consistency == Committed then JoinInv(b.remote.committed, b.local.committed, b.target.committed, t0.committed)
        else b.target.committed == t0.committed)
  }

  lemma BatchStepKeepsInv<T>(b: Batch<T>, t0: Record<T>, side: Side, cp: Consistency, o: Outcome<T>)
    requires BatchInv(b, t0)
    ensures BatchInv(BatchStep(b, side, cp, o), t0)
    ensures BatchStep(b, side, cp, o).consistency == b.consistency
  {
    var b' := BatchStep(b, side, cp, o);
    if b.Input(side).At(cp).Pending? && Joins(b.consistency, cp) {
      var r, l, t, t0cp := b'.remote.At(cp), b'.local.At(cp), b.target.At(cp), t0.At(cp);
      assert JoinInv(b.remote.At(cp), b.local.At(cp), t, t0cp);
      assert b'.target.At(cp) == JoinReaction(r, l, o, t);
      assert JoinInv(r, l, b'.target.At(cp), t0cp);
    }
  }

  /** `batched` under any order of settlements, from pending inputs: the join rule holds throughout. */
  lemma {:induction false} BatchRunKeepsInv<T>(b: Batch<T>, t0: Record<T>, events: seq<Event<T>>)
    requires BatchInv(b, t0)
    ensures BatchInv(BatchRun(b, events), t0)
    ensures BatchRun(b, events).consistency == b.consistency
    decreases |events|
  {
    if events != [] {
      match events[0]
      case CheckpointSettled(side, cp, o) =>
        BatchStepKeepsInv(b, t0, side, cp, o);
        BatchRunKeepsInv(BatchStep(b, side, cp, o), t0, events[1..]);
      case SyncSettled(_, _) =>
        BatchRunKeepsInv(b, t0, events[1..]);
    }
  }

  /**
   * The two-of-two join of `batched`, from fresh inputs and a pending target
   * checkpoint that it wires: the target is fulfilled with `v` exactly when
   * both inputs are fulfilled and `v` is the remote value; it is rejected
   * whenever an input is, and only with the error of a rejected input; it is
   * pending otherwise.
   */
  lemma JoinedCheckpoint<T>(c: Consistency, t0: Record<T>, events: seq<Event<T>>, cp: Consistency)
    requires Joins(c, cp) && t0.At(cp).Pending?
    ensures var b := BatchRun(Batch(c, Fresh(), Fresh(), t0), events);
            && (forall v :: b.target.At(cp) == Settled(Fulfilled(v)) <==>
                  b.remote.At(cp) == Settled(Fulfilled(v)) && b.local.At(cp).IsFulfilled())
            && (b.remote.At(cp).IsRejected() || b.local.At(cp).IsRejected() ==> b.target.At(cp).IsRejected())
            && (b.target.At(cp).IsRejected() ==> b.target.At(cp) == b.remote.At(cp) || b.target.At(cp) == b.local.At(cp))
            && (b.target.At(cp).Pending? <==> !b.remote.At(cp).IsRejected() && !b.local.At(cp).IsRejected() &&
                                              !(b.remote.At(cp).IsFulfilled() && b.local.At(cp).IsFulfilled()))
  {
    BatchRunKeepsInv(Batch(c, Fresh(), Fresh(), t0), t0, events);
  }

  /** Under 'written', `batched` never touches the target's committed latch. */
  lemma WrittenLeavesCommitted<T>(t0: Record<T>, events: seq<Event<T>>)
    ensures BatchRun(Batch(Written, Fresh(), Fresh(), t0), events).target.committed == t0.committed
  {
    BatchRunKeepsInv(Batch(Written, Fresh(), Fresh(), t0), t0, events);
  }

  /** The first rejection to reach a pending joined target decides its error. */
  lemma JoinFirstRejectionWins<T>(b: Batch<T>, side: Side, cp: Consistency, e: Error)
    requires Joins(b.consistency, cp) && b.Input(side).At(cp).Pending? && b.target.At(cp).Pending?
    ensures BatchStep(b, side, cp, Rejected(e)).target.At(cp) == Settled(Rejected(e))
  {
  }

  // ---------------------------------------------------------------------------
  // executeBatchedWrite
  // ---------------------------------------------------------------------------

  /**
   * The state of one `executeBatchedWrite` call: the three records (inside
   * `batch`), the `Promise.race` over the remote checkpoints, the returned
   * promise, the promises returned by the two sync procedures, and the
   * invocations of the sync procedures in the order they happened.
   */
  datatype Write<T> = Write(
    batch: Batch<T>,
    race: LatchState<T>,
    result: LatchState<()>,
    remoteSync: LatchState<()>,
    localSync: LatchState<()>,
    calls: seq<Side>)

  /** The latch of the target that the returned promise waits on, by consistency level. */
  function Awaited<T>(w: Write<T>): LatchState<T> {
    w.batch.target.At(w.batch.consistency)
  }

  /**
   * The synchronous part of the call, with fresh default remote and local
   * records: `remoteSync` is invoked, the race, the join and the wait on the
   * target are attached; a target checkpoint settled beforehand is seen at once.
   */
  function Init<T>(c: Consistency, target: Record<T>): Write<T> {
    var awaited := target.At(c);
    Write(Batch(c, Fresh(), Fresh(), target), Pending,
          if awaited.Settled? then Settled(Erase(awaited.outcome)) else Pending,
          Pending, Pending, [Remote])
  }

  /** Whether the environment can settle checkpoint `cp` of the `side` record: the default local record is reachable only through `localSync`. */
  predicate Delivered<T>(w: Write<T>, side: Side, cp: Consistency) {
    (side == Remote || Local in w.calls) && w.batch.Input(side).At(cp).Pending?
  }

  /**
   * One event and the reactions it triggers. The fresh local record is handed
   * to `localSync` only, so before that call nothing can settle it, and an
   * event on it is not delivered.
   */
  function Step<T>(w: Write<T>, ev: Event<T>): Write<T> {
    match ev
    case CheckpointSettled(side, cp, o) =>
      if !Delivered(w, side, cp) then w
      else
        var batch := BatchStep(w.batch, side, cp, o);
        // Promise.race([remote.written, remote.committed]): the first remote settlement decides it
        var first := side == Remote && w.race.Pending?;
        var race := if first then Settled(o) else w.race;
        var calls := if first && o.Fulfilled? then w.calls + [Local] else w.calls;
        var result := if first && o.Rejected? then Settle(w.result, Rejected(o.error)) else w.result;
        // the wait on the target checkpoint chosen by the consistency level
        var awaited := batch.target.At(w.batch.consistency);
        var result' :=
          if Awaited(w).Pending? && awaited.Settled? then Settle(result, Erase(awaited.outcome)) else result;
        Write(batch, race, result', w.remoteSync, w.localSync, calls)
    case SyncSettled(Remote, o) =>
      if !w.remoteSync.Pending? then w
      else Write(w.batch, w.race, if o.Rejected? then Settle(w.result, Rejected(o.error)) else w.result,
                 Settled(o), w.localSync, w.calls)
    case SyncSettled(Local, o) =>
      if Local !in w.calls || !w.localSync.Pending? then w
      else Write(w.batch, w.race, if o.Rejected? then Settle(w.result, Rejected(o.error)) else w.result,
                 w.remoteSync, Settled(o), w.calls)
  }

  function Run<T>(w: Write<T>, events: seq<Event<T>>): Write<T>
    decreases |events|
  {
    if events == [] then w else Run(Step(w, events[0]), events[1..])
  }

  predicate RejectedWith<T>(l: LatchState<T>, e: Error) {
    l == Settled(Rejected(e))
  }

  /** What makes the returned promise settle: the awaited target checkpoint, a failed race, a failed sync procedure. */
  predicate Triggered<T>(w: Write<T>) {
    Awaited(w).Settled? || w.race.IsRejected() || w.remoteSync.IsRejected() || w.localSync.IsRejected()
  }

  /** The invariant of an `executeBatchedWrite` call whose target was `t0` when it started. */
  ghost predicate WriteInv<T>(w: Write<T>, t0: Record<T>) {
    // the join rule of batched
    && BatchInv(w.batch, t0)
    // remoteSync is invoked once, first; localSync at most once, after it
    && (w.calls == [Remote] || w.calls == [Remote, Local])
    // the race is decided by a remote checkpoint, as soon as one settles
    && (w.race.Pending? <==> w.batch.remote.written.Pending? && w.batch.remote.committed.Pending?)
    && (w.race.Settled? ==> w.race == w.batch.remote.written || w.race == w.batch.remote.committed)
    // localSync is invoked exactly when the race succeeded
    && (Local in w.calls <==> w.race.IsFulfilled())
    && (w.localSync.Settled? ==> Local in w.calls)
    // nothing settles the local record before localSync has it
    && (w.batch.local.written.Settled? || w.batch.local.committed.Settled? ==> Local in w.calls)
    // the returned promise
    && (w.result.Settled? <==> Triggered(w))
    && (w.result.IsFulfilled() ==> Awaited(w).IsFulfilled())
    && (w.result.IsRejected() ==>
          var e := w.result.outcome.error;
          RejectedWith(Awaited(w), e) || RejectedWith(w.race, e) || RejectedWith(w.remoteSync, e) || RejectedWith(w.localSync, e))
  }

  lemma InitEstablishesInv<T>(c: Consistency, t0: Record<T>)
    ensures WriteInv(Init(c, t0), t0)
  {
  }

  lemma StepKeepsInv<T>(w: Write<T>, t0: Record<T>, ev: Event<T>)
    requires WriteInv(w, t0)
    ensures WriteInv(Step(w, ev), t0)
    ensures Step(w, ev).batch.consistency == w.batch.consistency
  {
    match ev
    case CheckpointSettled(side, cp, o) =>
      if Delivered(w, side, cp) {
        BatchStepKeepsInv(w.batch, t0, side, cp, o);
        var w' := Step(w, ev);
        assert w'.batch == BatchStep(w.batch, side, cp, o);
        AwaitedEdge(w, side, cp, o);
      }
    case SyncSettled(_, _) =>
  }

  /** The awaited target checkpoint settles in a step only with the outcome of the event's rejection or of a completed join. */
  lemma AwaitedEdge<T>(w: Write<T>, side: Side, cp: Consistency, o: Outcome<T>)
    requires w.batch.Input(side).At(cp).Pending?
    ensures var a' := BatchStep(w.batch, side, cp, o).target.At(w.batch.consistency);
            Awaited(w).Pending? && a'.Settled? ==> Erase(a'.outcome) == Erase(o)
  {
  }

  /** The invariant holds after any sequence of events. */
  lemma {:induction false} RunKeepsInv<T>(w: Write<T>, t0: Record<T>, events: seq<Event<T>>)
    requires WriteInv(w, t0)
    ensures WriteInv(Run(w, events), t0)
    ensures Run(w, events).batch.consistency == w.batch.consistency
    decreases |events|
  {
    if events != [] {
      StepKeepsInv(w, t0, events[0]);
      RunKeepsInv(Step(w, events[0]), t0, events[1..]);
    }
  }

  lemma {:induction false} RunAppend<T>(w: Write<T>, a: seq<Event<T>>, b: seq<Event<T>>)
    ensures Run(w, a + b) == Run(Run(w, a), b)
    decreases |a|
  {
    if a == [] {
      assert a + b == b;
    } else {
      assert (a + b)[0] == a[0] && (a + b)[1..] == a[1..] + b;
      RunAppend(Step(w, a[0]), a[1..], b);
    }
  }

  /** The outcome of the first settlement of a remote checkpoint among `events`, if any. */
  function FirstRemote<T>(events: seq<Event<T>>): LatchState<T>
    decreases |events|
  {
    if events == [] then Pending
    else match events[0]
      case CheckpointSettled(Remote, _, o) => Settled(o)
      case _ => FirstRemote(events[1..])
  }

  /** Nothing settled ever changes again: latches keep their outcome and invocations are only ever added. */
  ghost predicate Extends<T>(w: Write<T>, w': Write<T>) {
    && (w.race.Settled? ==> w'.race == w.race)
    && (w.result.Settled? ==> w'.result == w.result)
    && (w.remoteSync.Settled? ==> w'.remoteSync == w.remoteSync)
    && (w.localSync.Settled? ==> w'.localSync == w.localSync)
    && (forall cp :: w.batch.remote.At(cp).Settled? ==> w'.batch.remote.At(cp) == w.batch.remote.At(cp))
    && (forall cp :: w.batch.local.At(cp).Settled? ==> w'.batch.local.At(cp) == w.batch.local.At(cp))
    && (forall cp :: w.batch.target.At(cp).Settled? ==> w'.batch.target.At(cp) == w.batch.target.At(cp))
    && w.calls <= w'.calls
  }

  lemma StepExtends<T>(w: Write<T>, ev: Event<T>)
    ensures Extends(w, Step(w, ev))
  {
  }

  /** Settlement is final across any run: only the first outcome of each latch is ever observable. */
  lemma {:induction false} RunExtends<T>(w: Write<T>, events: seq<Event<T>>)
    ensures Extends(w, Run(w, events))
    decreases |events|
  {
    if events != [] {
      StepExtends(w, events[0]);
      RunExtends(Step(w, events[0]), events[1..]);
    }
  }

  lemma {:induction false} RaceFollowsFirstRemote<T>(w: Write<T>, t0: Record<T>, events: seq<Event<T>>)
    requires WriteInv(w, t0) && w.race.Pending?
    ensures Run(w, events).race == FirstRemote(events)
    decreases |events|
  {
    if events != [] {
      var w' := Step(w, events[0]);
      StepKeepsInv(w, t0, events[0]);
      match events[0]
      case CheckpointSettled(Remote, _, o) =>
        RunExtends(w', events[1..]);
      case _ =>
        RaceFollowsFirstRemote(w', t0, events[1..]);
    }
  }

  /**
   * The race of `executeBatchedWrite` is decided by the first remote checkpoint
   * to settle, whichever of `written` and `committed` it is, and with its outcome.
   */
  lemma RaceIsFirstRemoteSettlement<T>(c: Consistency, t0: Record<T>, events: seq<Event<T>>)
    ensures Run(Init(c, t0), events).race == FirstRemote(events)
  {
    InitEstablishesInv(c, t0);
    RaceFollowsFirstRemote(Init(c, t0), t0, events);
  }

  /**
   * `remoteSync` is invoked exactly once and first; `localSync` is invoked at
   * most once, and exactly when the first remote checkpoint to settle is
   * fulfilled.
   */
  lemma SyncInvocations<T>(c: Consistency, t0: Record<T>, events: seq<Event<T>>)
    ensures var w := Run(Init(c, t0), events);
            && (w.calls == [Remote] || w.calls == [Remote, Local])
            && (Local in w.calls <==> FirstRemote(events).IsFulfilled())
  {
    InitEstablishesInv(c, t0);
    RunKeepsInv(Init(c, t0), t0, events);
    RaceIsFirstRemoteSettlement(c, t0, events);
  }

  /**
   * Nothing succeeds before `localSync` runs: the local record settles only
   * after `localSync` is invoked, so a joined target checkpoint that was pending
   * at the start is fulfilled only if `localSync` was invoked, and so is a call
   * whose awaited checkpoint was pending at the start.
   */
  lemma FulfilmentNeedsLocalSync<T>(c: Consistency, t0: Record<T>, events: seq<Event<T>>)
    ensures var w := Run(Init(c, t0), events);
            && (w.batch.local.written.Settled? || w.batch.local.committed.Settled? ==> Local in w.calls)
            && (forall cp :: Joins(c, cp) && t0.At(cp).Pending? && w.batch.target.At(cp).IsFulfilled() ==> Local in w.calls)
            && (t0.At(c).Pending? && w.result.IsFulfilled() ==> Local in w.calls)
  {
    InitEstablishesInv(c, t0);
    RunKeepsInv(Init(c, t0), t0, events);
  }

  /**
   * When the first remote checkpoint to settle is rejected with `e` while the
   * returned promise is still pending, the promise rejects with `e` and
   * `localSync` is never invoked, whatever happens afterwards.
   */
  lemma FirstRemoteRejectionFailsWrite<T>(c: Consistency, t0: Record<T>, before: seq<Event<T>>,
                                          cp: Consistency, e: Error, after: seq<Event<T>>)
    requires FirstRemote(before).Pending? && Run(Init(c, t0), before).result.Pending?
    ensures var w := Run(Init(c, t0), before + [CheckpointSettled(Remote, cp, Rejected(e))] + after);
            w.result == Settled(Rejected(e)) && w.calls == [Remote]
  {
    var ev := CheckpointSettled(Remote, cp, Rejected(e));
    var w0 := Run(Init(c, t0), before);
    InitEstablishesInv(c, t0);
    RunKeepsInv(Init(c, t0), t0, before);
    RaceIsFirstRemoteSettlement(c, t0, before);
    var w1 := Step(w0, ev);
    assert w1.result == Settled(Rejected(e)) && w1.calls == [Remote];
    StepKeepsInv(w0, t0, ev);
    RunExtends(w1, after);
    RunKeepsInv(w1, t0, after);
    RaceFollowsFirstRemote(w0, t0, [ev] + after);
    RunAppend(Init(c, t0), before, [ev] + after);
    assert before + [ev] + after == before + ([ev] + after);
  }

  /**
   * The returned promise settles with the outcome of the event that makes it
   * settle (its value forgotten): only the first error on its path is observable.
   */
  lemma ResultTakesTriggeringOutcome<T>(w: Write<T>, ev: Event<T>)
    requires w.result.Pending? && Step(w, ev).result.Settled?
    ensures Step(w, ev).result == Settled(Observed(ev))
  {
    match ev
    case CheckpointSettled(side, cp, o) =>
      AwaitedEdge(w, side, cp, o);
    case SyncSettled(_, _) =>
  }

  /**
   * The returned promise waits on `target.committed` under 'committed' and on
   * `target.written` under 'written': it is fulfilled only when that latch is;
   * it settles exactly when that latch settles, the race fails or a sync
   * procedure fails; and a rejection carries the error of one of those.
   */
  lemma ResultFollowsAwaitedCheckpoint<T>(c: Consistency, t0: Record<T>, events: seq<Event<T>>)
    ensures var w := Run(Init(c, t0), events);
            && (w.result.IsFulfilled() ==> w.batch.target.At(c).IsFulfilled())
            && (w.result.Settled? <==>
                  w.batch.target.At(c).Settled? || w.race.IsRejected() || w.remoteSync.IsRejected() || w.localSync.IsRejected())
            && (forall e :: RejectedWith(w.result, e) ==>
                  RejectedWith(w.batch.target.At(c), e) || RejectedWith(w.race, e) ||
                  RejectedWith(w.remoteSync, e) || RejectedWith(w.localSync, e))
  {
    InitEstablishesInv(c, t0);
    RunKeepsInv(Init(c, t0), t0, events);
  }

  /**
   * The target of `executeBatchedWrite` obeys the join rule of `batched`: the
   * written checkpoint always, the committed one under 'committed'; under
   * 'written' the committed checkpoint is never touched.
   */
  lemma WriteTargetIsJoined<T>(c: Consistency, t0: Record<T>, events: seq<Event<T>>)
    ensures var b := Run(Init(c, t0), events).batch;
            && JoinInv(b.remote.written, b.local.written, b.target.written, t0.written)
            && (c == Committed ==> JoinInv(b.remote.committed, b.local.committed, b.target.committed, t0.committed))
            && (c == Written ==> b.target.committed == t0.committed)
  {
    InitEstablishesInv(c, t0);
    RunKeepsInv(Init(c, t0), t0, events);
  }

  /** Three events in a row are three steps. */
  lemma RunThree<T>(w: Write<T>, e1: Event<T>, e2: Event<T>, e3: Event<T>)
    ensures Run(w, [e1, e2, e3]) == Step(Step(Step(w, e1), e2), e3)
  {
    var evs := [e1, e2, e3];
    var w1, w2 := Step(w, e1), Step(Step(w, e1), e2);
    assert Run(w2, [e3]) == Run(Step(w2, e3), []) by {
      assert [e3][1..] == [];
    }
    assert Run(w1, [e2, e3]) == Run(w2, [e3]) by {
      assert [e2, e3][1..] == [e3];
    }
    assert Run(w, evs) == Run(w1, [e2, e3]) by {
      assert evs[1..] == [e2, e3];
    }
  }

  /**
   * Under 'written': the remote record is written with `a`, then the local one
   * with `b`; the call succeeds and the target is written with the remote
   * value, while its committed latch stays untouched even after the remote
   * record commits.
   */
  lemma WrittenScenario<T>(a: T, b: T)
    ensures var w := Run(Init(Written, Fresh()), [CheckpointSettled(Remote, Written, Fulfilled(a)),
                                                  CheckpointSettled(Local, Written, Fulfilled(b)),
                                                  CheckpointSettled(Remote, Committed, Fulfilled(a))]);
            && w.result == Settled(Fulfilled(()))
            && w.calls == [Remote, Local]
            && w.batch.target == Record(Settled(Fulfilled(a)), Pending)
  {
    var w0 := Init(Written, Fresh<T>());
    var w1 := Step(w0, CheckpointSettled(Remote, Written, Fulfilled(a)));
    var w2 := Step(w1, CheckpointSettled(Local, Written, Fulfilled(b)));
    var w3 := Step(w2, CheckpointSettled(Remote, Committed, Fulfilled(a)));
    assert w1.calls == [Remote, Local] && w1.result.Pending?;
    assert w2.batch.target.written == Settled(Fulfilled(a)) && w2.result == Settled(Fulfilled(()));
    assert w3.batch.target == w2.batch.target;
    RunThree(w0, CheckpointSettled(Remote, Written, Fulfilled(a)), CheckpointSettled(Local, Written, Fulfilled(b)),
             CheckpointSettled(Remote, Committed, Fulfilled(a)));
  }

  /**
   * `remoteSync` fails at once and then both remote checkpoints fail: the call
   * rejects with that error, `localSync` is never invoked, and the target is
   * rejected only on the checkpoints `batched` joins.
   */
  lemma RemoteFailureScenario<T>(c: Consistency, e: Error)
    ensures var w := Run(Init(c, Fresh<T>()), [SyncSettled(Remote, Rejected(e)),
                                               CheckpointSettled(Remote, Written, Rejected(e)),
                                               CheckpointSettled(Remote, Committed, Rejected(e))]);
            && w.result == Settled(Rejected(e))
            && w.calls == [Remote]
            && w.batch.target.written == Settled(Rejected(e))
            && w.batch.target.committed == if c == Committed then Settled(Rejected(e)) else Pending
  {
    var w0 := Init(c, Fresh<T>());
    var w1 := Step(w0, SyncSettled(Remote, Rejected(e)));
    var w2 := Step(w1, CheckpointSettled(Remote, Written, Rejected(e)));
    var w3 := Step(w2, CheckpointSettled(Remote, Committed, Rejected(e)));
    assert w1.result == Settled(Rejected(e));
    assert w2.calls == [Remote] && w2.batch.target.written == Settled(Rejected(e));
    RunThree(w0, SyncSettled(Remote, Rejected(e)), CheckpointSettled(Remote, Written, Rejected(e)),
             CheckpointSettled(Remote, Committed, Rejected(e)));
  }

  // ---------------------------------------------------------------------------
  // handle and pipe
  // ---------------------------------------------------------------------------

  /**
   * The callback of `handle` when the source promise settles with `o`; a
   * converter returns a value or throws (a rejected outcome). On success both
   * checkpoints are resolved with the converted value; a converter that
   * throws is caught and logged and nothing is settled; on failure both are
   * rejected with the source error.
   */
  function HandleReaction<V, T>(o: Outcome<V>, converter: V -> Outcome<T>, target: Record<T>): Record<T> {
    match o
    case Fulfilled(v) =>
      (match converter(v)
       case Fulfilled(t) => Record(Settle(target.written, Fulfilled(t)), Settle(target.committed, Fulfilled(t)))
       case Rejected(_) => target)
    case Rejected(e) => Record(Settle(target.written, Rejected(e)), Settle(target.committed, Rejected(e)))
  }

  /**
   * `handle` on a pending target: both checkpoints settle together and alike,
   * with the converted value on success and the source error on failure; a
   * throwing converter leaves both pending and nothing escapes.
   */
  lemma HandleSettlesBothAlike<V, T>(o: Outcome<V>, converter: V -> Outcome<T>)
    ensures var r := HandleReaction(o, converter, Fresh());
            && r.written == r.committed
            && (o.Fulfilled? && converter(o.value).Fulfilled? ==> r.written == Settled(converter(o.value)))
            && (o.Fulfilled? && converter(o.value).Rejected? ==> r.written.Pending?)
            && (o.Rejected? ==> r.written == Settled(Rejected(o.error)))
  {
  }

  /** A converted success value passes a failure through unchanged. */
  function Forward<T, V>(o: Outcome<T>, converter: T -> Outcome<V>): Outcome<V> {
    match o
    case Fulfilled(v) => converter(v)
    case Rejected(e) => Rejected(e)
  }

  /**
   * The callbacks of `pipeLatch` when the source latch settles with `o`: the
   * converted value resolves the target; a rejection, or a converter that
   * throws (seen by the trailing `.catch`), rejects it.
   */
  function PipeLatchReaction<T, V>(o: Outcome<T>, converter: T -> Outcome<V>, target: LatchState<V>): LatchState<V> {
    Settle(target, Forward(o, converter))
  }

  /** The records `pipe` wires together. */
  datatype Pipe<T, V> = Pipe(source: Record<T>, target: Record<V>)

  /** Checkpoint `cp` of the source is settled with `o`; only that checkpoint of the target reacts. */
  function PipeStep<T, V>(p: Pipe<T, V>, converter: T -> Outcome<V>, cp: Consistency, o: Outcome<T>): Pipe<T, V> {
    if !p.source.At(cp).Pending? then p
    else Pipe(p.source.Update(cp, Settled(o)), p.target.Update(cp, PipeLatchReaction(o, converter, p.target.At(cp))))
  }

  function PipeRun<T, V>(p: Pipe<T, V>, converter: T -> Outcome<V>, settlements: seq<(Consistency, Outcome<T>)>): Pipe<T, V>
    decreases |settlements|
  {
    if settlements == [] then p
    else PipeRun(PipeStep(p, converter, settlements[0].0, settlements[0].1), converter, settlements[1..])
  }

  /** A source latch as the piped target sees it. */
  function Mirror<T, V>(l: LatchState<T>, converter: T -> Outcome<V>): LatchState<V> {
    match l
    case Pending => Pending
    case Settled(o) => Settled(Forward(o, converter))
  }

  /** The mirror relation of `pipe`, checkpoint by checkpoint; a target latch settled beforehand keeps its outcome. */
  ghost predicate PipeInv<T, V>(p: Pipe<T, V>, converter: T -> Outcome<V>, t0: Record<V>) {
    forall cp :: p.target.At(cp) == if t0.At(cp).Settled? then t0.At(cp) else Mirror(p.source.At(cp), converter)
  }

  lemma {:induction false} PipeRunKeepsInv<T, V>(p: Pipe<T, V>, converter: T -> Outcome<V>, t0: Record<V>,
                                                  settlements: seq<(Consistency, Outcome<T>)>)
    requires PipeInv(p, converter, t0)
    ensures PipeInv(PipeRun(p, converter, settlements), converter, t0)
    decreases |settlements|
  {
    if settlements != [] {
      var (cp, o) := settlements[0];
      var p' := PipeStep(p, converter, cp, o);
      forall c ensures p'.target.At(c) == if t0.At(c).Settled? then t0.At(c) else Mirror(p'.source.At(c), converter) {
        assert p.target.At(c) == if t0.At(c).Settled? then t0.At(c) else Mirror(p.source.At(c), converter);
      }
      PipeRunKeepsInv(p', converter, t0, settlements[1..]);
    }
  }

  /**
   * `pipe` from a pending source, in any order of settlements: each target
   * checkpoint mirrors the matching source checkpoint on its own, a value `v`
   * becoming `converter(v)` and a rejection passing through; a target
   * checkpoint settled beforehand is left as it was.
   */
  lemma PipeMirrorsSource<T, V>(converter: T -> Outcome<V>, t0: Record<V>, settlements: seq<(Consistency, Outcome<T>)>)
    ensures var p := PipeRun(Pipe(Fresh(), t0), converter, settlements);
            forall cp :: p.target.At(cp) == if t0.At(cp).Settled? then t0.At(cp) else Mirror(p.source.At(cp), converter)
  {
    PipeRunKeepsInv(Pipe(Fresh(), t0), converter, t0, settlements);
  }

  /**
   * `handle` and `pipe` agree when the converter succeeds (an atomic result is
   * both written and committed); when it throws, `pipe` rejects both
   * checkpoints while `handle` leaves them pending.
   */
  lemma HandleVersusPipe<V, T>(o: Outcome<V>, converter: V -> Outcome<T>)
    ensures var h := HandleReaction(o, converter, Fresh());
            var p := Record(PipeLatchReaction(o, converter, Pending), PipeLatchReaction(o, converter, Pending));
            && (Forward(o, converter).Fulfilled? || o.Rejected? ==> h == p)
            && (o.Fulfilled? && converter(o.value).Rejected? ==> h == Fresh() && p.written.IsRejected() && p.committed.IsRejected())
  {
  }

  // ---------------------------------------------------------------------------
  // The coordinator and one in-flight executeBatchedWrite, as objects
  // ---------------------------------------------------------------------------

  /** The callbacks of `batchPromises` after an input has settled with `o`, the inputs now standing at `remote` and `local`. */
  method JoinSettled<T>(remote: LatchState<T>, local: LatchState<T>, o: Outcome<T>, target: Latch<T>)
    modifies target
    ensures target.state == JoinReaction(remote, local, o, old(target.state))
  {
    match o
    case Rejected(e) =>
      target.Reject(e);
    case Fulfilled(_) =>
      if remote.IsFulfilled() && local.IsFulfilled() {
        target.Resolve(remote.outcome.value);
      }
  }

  /** The coordinator, fixed to one consistency level. */
  class DatastoreMutations {
    const consistency: Consistency

    /** `DatastoreMutations.create(consistency)`. */
    constructor Create(consistency: Consistency)
      ensures this.consistency == consistency
    {
      this.consistency := consistency;
    }

    /**
     * `executeBatchedWrite(target, remoteSync, localSync)` with the default
     * fresh remote and local records: the returned object is the call in
     * flight, to which the environment delivers its settlement events.
     */
    method ExecuteBatchedWrite<T>(target: Mutation<T>) returns (call: BatchedWrite<T>)
      requires target.Valid()
      ensures fresh(call) && call.Valid() && call.consistency == consistency && call.target == target
      ensures fresh(call.remote) && fresh(call.local)
      ensures call.Model() == Init(consistency, target.Model())
    {
      call := new BatchedWrite(consistency, target);
    }

    /** The callbacks of `handle` when the source promise settles with `o`. */
    method HandleSettled<V, T>(o: Outcome<V>, target: Mutation<T>, converter: V -> Outcome<T>)
      requires target.Valid()
      modifies target.written, target.committed
      ensures target.Model() == HandleReaction(o, converter, old(target.Model()))
    {
      match o
      case Fulfilled(v) =>
        var forWritten := converter(v);
        if forWritten.Fulfilled? {
          target.written.Resolve(forWritten.value);
          var forCommitted := converter(v);
          target.committed.Resolve(forCommitted.value);
        }
        // else: the converter threw; the error is logged and goes no further
      case Rejected(e) =>
        target.written.Reject(e);
        target.committed.Reject(e);
    }

    /** The callbacks of `pipeLatch` when the source latch settles with `o`. */
    method PipeLatchSettled<T, V>(o: Outcome<T>, target: Latch<V>, converter: T -> Outcome<V>)
      modifies target
      ensures target.state == PipeLatchReaction(o, converter, old(target.state))
    {
      var forwarded := Forward(o, converter);
      match forwarded
      case Fulfilled(v) => target.Resolve(v);
      case Rejected(e) => target.Reject(e);
    }
  }

  /** One `executeBatchedWrite` call in flight. */
  class BatchedWrite<T> {
    const consistency: Consistency
    const target: Mutation<T>
    const remote: Mutation<T>
    const local: Mutation<T>
    /** `Promise.race([remote.written.get(), remote.committed.get()])` */
    var race: LatchState<T>
    /** the promise returned by `executeBatchedWrite` */
    var result: LatchState<()>
    /** the promises returned by `remoteSync` and `localSync` */
    var remoteSync: LatchState<()>
    var localSync: LatchState<()>
    /** the invocations of the sync procedures, in order */
    var calls: seq<Side>

    ghost function Latches(): set<object> {
      {remote.written, remote.committed, local.written, local.committed, target.written, target.committed}
    }

    /** The three records use six distinct latches. */
    ghost predicate Valid() {
      && remote.written != remote.committed && local.written != local.committed && target.written != target.committed
      && remote.written != local.written && remote.written != local.committed
      && remote.committed != local.written && remote.committed != local.committed
      && target.written != remote.written && target.written != remote.committed
      && target.written != local.written && target.written != local.committed
      && target.committed != remote.written && target.committed != remote.committed
      && target.committed != local.written && target.committed != local.committed
    }

    ghost function Model(): Write<T>
      reads this, Latches()
    {
      Write(Batch(consistency, remote.Model(), local.Model(), target.Model()), race, result, remoteSync, localSync, calls)
    }

    function Record(side: Side): Mutation<T> {
      if side == Remote then remote else local
    }

    /** The synchronous part of the call: fresh records, `remoteSync` invoked, the wait on the target attached. */
    constructor (consistency: Consistency, target: Mutation<T>)
      requires target.Valid()
      ensures Valid() && this.consistency == consistency && this.target == target
      ensures fresh(remote) && fresh(local) && fresh(remote.written) && fresh(remote.committed)
      ensures fresh(local.written) && fresh(local.committed)
      ensures Model() == Init(consistency, target.Model())
    {
      this.consistency := consistency;
      this.target := target;
      remote := new Mutation();
      local := new Mutation();
      race := Pending;
      var awaited := target.Checkpoint(consistency).state;
      result := if awaited.Settled? then Settled(Erase(awaited.outcome)) else Pending;
      remoteSync, localSync := Pending, Pending;
      calls := [Remote];
    }

    /** Checkpoint `cp` of the `side` record is settled with `o`, and the callbacks that wait on it run. */
    method SettleCheckpoint(side: Side, cp: Consistency, o: Outcome<T>)
      requires Valid()
      modifies this, Latches()
      ensures Model() == Step(old(Model()), CheckpointSettled(side, cp, o))
    {
      var input := Record(side).Checkpoint(cp);
      // before localSync is invoked, nothing holds the local record
      if (side == Remote || Local in calls) && input.state.Pending? {
        ghost var w := Model();
        match o {
          case Fulfilled(v) => input.Resolve(v);
          case Rejected(e) => input.Reject(e);
        }
        // Promise.race over the remote checkpoints
        if side == Remote && race.Pending? {
          race := Settled(o);
          match o {
            case Fulfilled(_) =>
              calls := calls + [Local];
            case Rejected(e) =>
              result := Settle(result, Rejected(e));
          }
        }
        // batchPromises for this checkpoint, and the wait on the target
        if Joins(consistency, cp) {
          var t := target.Checkpoint(cp);
          var before := t.state;
          JoinSettled(remote.Checkpoint(cp).state, local.Checkpoint(cp).state, o, t);
          if cp == consistency && before.Pending? && t.state.Settled? {
            result := Settle(result, Erase(t.state.outcome));
          }
        }
        assert Model().batch == BatchStep(w.batch, side, cp, o);
      }
    }

    /** The promise returned by a sync procedure settles with `o`. */
    method SettleSync(sync: Side, o: Outcome<()>)
      requires Valid()
      modifies this
      ensures Model() == Step(old(Model()), SyncSettled(sync, o))
    {
      if sync == Remote && remoteSync.Pending? {
        remoteSync := Settled(o);
        if o.Rejected? {
          result := Settle(result, Rejected(o.error));
        }
      } else if sync == Local && Local in calls && localSync.Pending? {
        localSync := Settled(o);
        if o.Rejected? {
          result := Settle(result, Rejected(o.error));
        }
      }
    }
  }
}
