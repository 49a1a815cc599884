/** When a message has a single handle, and when "done" is final. */
module Finality {
  import opened Errors
  import opened Messages
  import opened Engine
  import opened EngineInvariants
  import opened Lives
  import opened Guarantees

  /** The step is not an admin retry that takes effect while something still acts on m. */
  ghost predicate RetryGuarded(s: State, a: Action, m: MsgId) {
    a.AdminRetry? && a.id == m && a.db == Applied && CanRequeue(s.table, m) ==> Handles(s, m) == 0
  }

  /** One handle at most, and none for a row that is done. */
  predicate Exclusive(v: Life) {
    v.Handles() <= 1 && (v.HasStatus(Done) ==> v.Handles() == 0)
  }

  predicate MoveGuarded(v: Life, mv: Move) {
    mv == Reopen(true) ==> v.Handles() == 0
  }

  lemma HandlerMoveKeepsExclusive(v: Life, mv: Move, v': Life)
    requires Sound(v) && Exclusive(v) && Moves(v, mv, v')
    requires mv.Shift? || mv.Send? || mv.GiveUp? || mv.Settle?
    ensures Exclusive(v')
  {
  }

  lemma WorkerMoveKeepsExclusive(v: Life, mv: Move, v': Life)
    requires Sound(v) && Exclusive(v) && Moves(v, mv, v')
    requires mv.Take? || mv.Tally? || mv.Answer?
    ensures Exclusive(v')
  {
  }

  lemma RestartKeepsExclusive(v: Life, recovered: bool, cause: Cause, v': Life)
    requires Sound(v) && Exclusive(v) && Restarts(v, recovered, cause, v')
    ensures Exclusive(v')
  {
  }

  lemma ArrivalKeepsExclusive(v: Life, row: Row, acked: bool, v': Life)
    requires Sound(v) && Arrives(v, row, acked, v')
    ensures Exclusive(v')
  {
  }

  lemma CrashKeepsExclusive(v: Life, v': Life)
    requires Exclusive(v) && GoesDown(v, v')
    ensures Exclusive(v')
  {
  }

  lemma RetryKeepsExclusive(v: Life, mv: Move, v': Life)
    requires Exclusive(v) && Moves(v, mv, v') && MoveGuarded(v, mv) && (mv.Reopen? || mv.WebReopen?)
    ensures Exclusive(v')
  {
  }

  lemma OtherMoveKeepsExclusive(v: Life, mv: Move, v': Life)
    requires Exclusive(v) && Moves(v, mv, v') && (mv.Stay? || mv.Janitor?)
    ensures Exclusive(v')
  {
  }

  lemma MoveKeepsExclusive(v: Life, mv: Move, v': Life)
    requires Sound(v) && Exclusive(v) && Moves(v, mv, v') && MoveGuarded(v, mv)
    ensures Exclusive(v')
  {
    match mv
    case Shift(_, _) | Send(_) | GiveUp(_, _) | Settle(_, _, _) => HandlerMoveKeepsExclusive(v, mv, v');
    case Take | Tally(_, _) | Answer(_, _) => WorkerMoveKeepsExclusive(v, mv, v');
    case Arrive(row, acked) => ArrivalKeepsExclusive(v, row, acked, v');
    case Down => CrashKeepsExclusive(v, v');
    case Restart(recovered, cause) => RestartKeepsExclusive(v, recovered, cause, v');
    case Reopen(_) | WebReopen => RetryKeepsExclusive(v, mv, v');
    case _ => OtherMoveKeepsExclusive(v, mv, v');
  }

  /** An unguarded retry makes a second handle there and then. */
  lemma UnguardedMove(v: Life, mv: Move, v': Life)
    requires Moves(v, mv, v') && !MoveGuarded(v, mv)
    ensures v'.Handles() > 1
  {
  }

  lemma GuardIsTheMoves(s: State, a: Action, m: MsgId)
    requires Enabled(s, a)
    ensures RetryGuarded(s, a, m) <==> MoveGuarded(LifeOf(s, m), MoveOf(s, a, m))
  {
  }

  /** No admin retry takes effect on m in the first n steps while something still acts on it. */
  ghost predicate GuardedUntil(r: Run, n: nat, m: MsgId)
    requires Linked(r) && n <= |r.steps|
  {
    forall k {:trigger r.steps[k]} | 0 <= k < n :: RetryGuarded(r.states[k], r.steps[k], m)
  }

  lemma GuardedStep(r: Run, configured: int, k: nat, m: MsgId)
    requires IsRun(r, configured) && k < |r.steps| && GuardedUntil(r, k + 1, m)
    requires Exclusive(LifeOf(r.states[k], m))
    ensures Exclusive(LifeOf(r.states[k + 1], m))
  {
    LivesAreSound(r, configured, k, m);
    RunMoves(r, configured, k, m);
    GuardIsTheMoves(r.states[k], r.steps[k], m);
    MoveKeepsExclusive(LifeOf(r.states[k], m), MoveOf(r.states[k], r.steps[k], m), LifeOf(r.states[k + 1], m));
  }

  lemma {:induction false} GuardedIsExclusive(r: Run, configured: int, n: nat, m: MsgId)
    requires IsRun(r, configured) && n <= |r.steps| && GuardedUntil(r, n, m)
    ensures Exclusive(LifeOf(r.states[n], m))
  {
    if n > 0 {
      GuardedIsExclusive(r, configured, n - 1, m);
      GuardedStep(r, configured, n - 1, m);
    }
  }

  lemma UnguardedStep(r: Run, configured: int, k: nat, m: MsgId)
    requires IsRun(r, configured) && k < |r.steps| && !RetryGuarded(r.states[k], r.steps[k], m)
    ensures Handles(r.states[k + 1], m) > 1
  {
    RunMoves(r, configured, k, m);
    GuardIsTheMoves(r.states[k], r.steps[k], m);
    UnguardedMove(LifeOf(r.states[k], m), MoveOf(r.states[k], r.steps[k], m), LifeOf(r.states[k + 1], m));
  }

  /** A message has at most one handle throughout a run exactly when no admin
      retry of it takes effect while it still has one. */
  lemma OneHandleIffGuarded(r: Run, configured: int, m: MsgId)
    requires IsRun(r, configured)
    ensures (forall k | 0 <= k <= |r.steps| :: Handles(r.states[k], m) <= 1)
       <==> GuardedUntil(r, |r.steps|, m)
  {
    if GuardedUntil(r, |r.steps|, m) {
      forall k | 0 <= k <= |r.steps|
        ensures Handles(r.states[k], m) <= 1
      {
        GuardedIsExclusive(r, configured, k, m);
      }
    } else {
      var k :| 0 <= k < |r.steps| && !RetryGuarded(r.states[k], r.steps[k], m);
      UnguardedStep(r, configured, k, m);
    }
  }

  // ---- when "done" is overwritten ----

  ghost predicate IsDone(s: State, m: MsgId) {
    m in s.table && s.table[m].status == Done
  }

  /** The two steps that overwrite whatever status m has: the mark of a job of m that
      failed for good, and the mark of a handler that found the channel full. */
  ghost predicate MarksFailed(s: State, a: Action, m: MsgId)
    requires Enabled(s, a)
  {
    match a
    case Finish(p, db) =>
      && s.procs[p].job.msg == m && db != Refused
      && s.procs[p].pc.result.Failure? && !IsContextError(s.procs[p].pc.result.err)
    case IntakeReject(p, db) => s.procs[p].job.msg == m && db != Refused
    case _ => false
  }

  lemma MarkOfDone(s: State, a: Action, m: MsgId)
    requires Enabled(s, a) && (a.Finish? || a.IntakeReject?) && IsDone(s, m)
    ensures IsDone(Apply(s, a), m) <==> !MarksFailed(s, a, m)
  {
  }

  lemma StatementOnDone(s: State, a: Action, m: MsgId)
    requires Enabled(s, a) && IsDone(s, m)
    requires a.Receive? || a.Count? || a.SweepStale? || a.AdminRetry? || a.WebRetry?
    ensures IsDone(Apply(s, a), m)
  {
  }

  /** A done row stays done in a step exactly when the step is none of the two. */
  lemma DoneStep(s: State, a: Action, m: MsgId)
    requires Enabled(s, a) && IsDone(s, m)
    ensures IsDone(Apply(s, a), m) <==> !MarksFailed(s, a, m)
  {
    if a.Finish? || a.IntakeReject? {
      MarkOfDone(s, a, m);
    } else if a.Receive? || a.Count? || a.SweepStale? || a.AdminRetry? || a.WebRetry? {
      StatementOnDone(s, a, m);
    } else {
      TableStays(s, a);
    }
  }

  /** Over any stretch of any run a done row stays done exactly when no such step is
      taken in it, through any number of sweeps, retries, crashes and recoveries. */
  lemma {:induction false} DoneStaysIffNeverMarkedFailed(r: Run, i: nat, j: nat, m: MsgId)
    requires Linked(r) && i <= j <= |r.steps| && IsDone(r.states[i], m)
    ensures (forall k | i <= k <= j :: IsDone(r.states[k], m))
       <==> (forall k {:trigger r.steps[k]} | i <= k < j :: !MarksFailed(r.states[k], r.steps[k], m))
    decreases j
  {
    if i < j {
      DoneStaysIffNeverMarkedFailed(r, i, j - 1, m);
      assert Step(r.states[j - 1], r.steps[j - 1], r.states[j]);
      if IsDone(r.states[j - 1], m) {
        DoneStep(r.states[j - 1], r.steps[j - 1], m);
      }
    }
  }

  /** Who marks m failed holds a handle of it. */
  lemma MarkerIsAHandle(s: State, a: Action, m: MsgId)
    requires Enabled(s, a) && MarksFailed(s, a, m)
    ensures Handles(s, m) > 0
  {
    LoadExit(s, a.p, m);
  }

  lemma GuardedStepMarksNothingFailed(r: Run, configured: int, k: nat, m: MsgId)
    requires IsRun(r, configured) && k < |r.steps| && GuardedUntil(r, k, m) && IsDone(r.states[k], m)
    ensures Enabled(r.states[k], r.steps[k]) && !MarksFailed(r.states[k], r.steps[k], m)
  {
    GuardedIsExclusive(r, configured, k, m);
    assert Step(r.states[k], r.steps[k], r.states[k + 1]);
    if MarksFailed(r.states[k], r.steps[k], m) {
      MarkerIsAHandle(r.states[k], r.steps[k], m);
      assert false;
    }
  }

  lemma {:induction false} GuardedNeverMarksFailed(r: Run, configured: int, i: nat, j: nat, m: MsgId)
    requires IsRun(r, configured) && i <= j <= |r.steps| && GuardedUntil(r, j, m) && IsDone(r.states[i], m)
    ensures forall k {:trigger r.steps[k]} | i <= k < j :: !MarksFailed(r.states[k], r.steps[k], m)
    decreases j
  {
    if i < j {
      GuardedNeverMarksFailed(r, configured, i, j - 1, m);
      DoneStaysIffNeverMarkedFailed(r, i, j - 1, m);
      GuardedStepMarksNothingFailed(r, configured, j - 1, m);
    }
  }

  /** Where retries are guarded nothing acts on a done row any more, so it stays done. */
  lemma DoneIsFinal(r: Run, configured: int, i: nat, j: nat, m: MsgId)
    requires IsRun(r, configured) && i <= j <= |r.steps| && GuardedUntil(r, j, m)
    requires IsDone(r.states[i], m)
    ensures IsDone(r.states[j], m) && Handles(r.states[j], m) == 0
  {
    GuardedNeverMarksFailed(r, configured, i, j, m);
    DoneStaysIffNeverMarkedFailed(r, i, j, m);
    GuardedIsExclusive(r, configured, j, m);
  }
}
