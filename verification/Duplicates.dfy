/** Two live jobs of one message: exactly which steps make the second. */
module Duplicates {
  import opened Messages
  import opened Engine
  import opened Lives
  import opened Guarantees
  import opened Finality
  import opened Sequences

  /** A handler sends a job of m into a channel with room while another job of m is queued or running. */
  ghost predicate Duplicates(s: State, a: Action, m: MsgId)
    requires Enabled(s, a)
  {
    match a
    case IntakeSend(p) => s.procs[p].job.msg == m && HasRoom(s, s.procs[p].job.dir) && LiveJobs(s, m) > 0
    case AdminSend(p) => s.procs[p].job.msg == m && HasRoom(s, s.procs[p].job.dir) && LiveJobs(s, m) > 0
    case _ => false
  }

  predicate MoveDuplicates(v: Life, mv: Move) {
    mv.Send? && v.LiveJobs() > 0
  }

  predicate DuplicatesExactly(v: Life, mv: Move, v': Life) {
    v'.LiveJobs() <= 1 <==> !MoveDuplicates(v, mv)
  }

  lemma HandlerMoveDuplicates(v: Life, mv: Move, v': Life)
    requires Moves(v, mv, v') && v.LiveJobs() <= 1
    requires mv.Shift? || mv.Send? || mv.GiveUp? || mv.Settle?
    ensures DuplicatesExactly(v, mv, v')
  {
  }

  lemma WorkerMoveDuplicates(v: Life, mv: Move, v': Life)
    requires Moves(v, mv, v') && v.LiveJobs() <= 1
    requires mv.Take? || mv.Tally? || mv.Answer?
    ensures DuplicatesExactly(v, mv, v')
  {
  }

  lemma RetryMoveDuplicates(v: Life, mv: Move, v': Life)
    requires Moves(v, mv, v') && v.LiveJobs() <= 1
    requires mv.Arrive? || mv.Reopen? || mv.WebReopen?
    ensures DuplicatesExactly(v, mv, v')
  {
  }

  lemma ProcessMoveDuplicates(v: Life, mv: Move, v': Life)
    requires Moves(v, mv, v') && v.LiveJobs() <= 1
    requires mv.Stay? || mv.Janitor? || mv.Down? || mv.Restart?
    ensures DuplicatesExactly(v, mv, v')
  {
  }

  lemma EveryMoveDuplicatesExactly(v: Life, mv: Move, v': Life)
    requires Moves(v, mv, v') && v.LiveJobs() <= 1
    ensures DuplicatesExactly(v, mv, v')
  {
    match mv
    case Shift(_, _) | Send(_) | GiveUp(_, _) | Settle(_, _, _) => HandlerMoveDuplicates(v, mv, v');
    case Take | Tally(_, _) | Answer(_, _) => WorkerMoveDuplicates(v, mv, v');
    case Arrive(_, _) | Reopen(_) | WebReopen => RetryMoveDuplicates(v, mv, v');
    case _ => ProcessMoveDuplicates(v, mv, v');
  }

  lemma DuplicatingIsTheMoves(s: State, a: Action, m: MsgId)
    requires Enabled(s, a)
    ensures Duplicates(s, a, m) <==> MoveDuplicates(LifeOf(s, m), MoveOf(s, a, m))
  {
  }

  /** A step from at most one live job leads to more than one exactly when it is such a send. */
  lemma LiveJobStep(r: Run, configured: int, k: nat, m: MsgId)
    requires IsRun(r, configured) && k < |r.steps| && LiveJobs(r.states[k], m) <= 1
    ensures Enabled(r.states[k], r.steps[k])
    ensures LiveJobs(r.states[k + 1], m) <= 1 <==> !Duplicates(r.states[k], r.steps[k], m)
  {
    RunMoves(r, configured, k, m);
    DuplicatingIsTheMoves(r.states[k], r.steps[k], m);
    EveryMoveDuplicatesExactly(LifeOf(r.states[k], m), MoveOf(r.states[k], r.steps[k], m), LifeOf(r.states[k + 1], m));
  }

  /** Is m without a second live job, state by state? */
  ghost function Single(r: Run, m: MsgId): (holds: seq<bool>)
    ensures |holds| == |r.states|
    ensures forall k | 0 <= k < |holds| :: holds[k] <==> LiveJobs(r.states[k], m) <= 1
  {
    seq(|r.states|, k requires 0 <= k < |r.states| => LiveJobs(r.states[k], m) <= 1)
  }

  ghost predicate DuplicatesAt(r: Run, k: nat, m: MsgId)
    requires Linked(r) && k < |r.steps|
  {
    assert Step(r.states[k], r.steps[k], r.states[k + 1]);
    Duplicates(r.states[k], r.steps[k], m)
  }

  /** Does a step duplicate m? */
  ghost function Doubling(r: Run, m: MsgId): (breaks: seq<bool>)
    requires Linked(r)
    ensures |breaks| == |r.steps|
    ensures forall k | 0 <= k < |breaks| :: breaks[k] <==> DuplicatesAt(r, k, m)
  {
    seq(|r.steps|, k requires 0 <= k < |r.steps| && Linked(r) => DuplicatesAt(r, k, m))
  }

  lemma NoneAtFirst(configured: int, m: MsgId)
    ensures LiveJobs(Init(configured), m) <= 1
  {
    NobodyHolds(m);
  }

  /** No such send in the first n steps. */
  ghost predicate NeverDuplicates(r: Run, n: nat, m: MsgId)
    requires Linked(r) && n <= |r.steps|
  {
    forall k | 0 <= k < n :: !DuplicatesAt(r, k, m)
  }

  lemma OneLiveJobUntil(r: Run, configured: int, n: nat, m: MsgId)
    requires IsRun(r, configured) && n <= |r.steps|
    ensures (forall k | 0 <= k <= n :: LiveJobs(r.states[k], m) <= 1) <==> NeverDuplicates(r, n, m)
  {
    var holds, breaks := Single(r, m), Doubling(r, m);
    NoneAtFirst(configured, m);
    forall k | 0 <= k < |breaks| && holds[k]
      ensures holds[k + 1] <==> !breaks[k]
    {
      LiveJobStep(r, configured, k, m);
    }
    HoldsUntilBroken(holds, breaks, n);
    assert forall k | 0 <= k <= n :: holds[k] <==> LiveJobs(r.states[k], m) <= 1;
    assert forall k | 0 <= k < n :: breaks[k] <==> DuplicatesAt(r, k, m);
  }

  /** Over a run a message never has two live jobs exactly when no handler sends a job of
      it while another is queued or running. */
  lemma OneLiveJobIffNeverDuplicated(r: Run, configured: int, m: MsgId)
    requires IsRun(r, configured)
    ensures (forall k | 0 <= k <= |r.steps| :: LiveJobs(r.states[k], m) <= 1) <==> NeverDuplicates(r, |r.steps|, m)
  {
    OneLiveJobUntil(r, configured, |r.steps|, m);
  }

  /** The sender is one more handle beside the live jobs. */
  lemma SenderIsAHandle(s: State, a: Action, m: MsgId)
    requires Enabled(s, a) && Duplicates(s, a, m)
    ensures Handles(s, m) > 1
  {
    LoadExit(s, a.p, m);
  }

  lemma GuardedStepDuplicatesNothing(r: Run, configured: int, k: nat, m: MsgId)
    requires IsRun(r, configured) && k < |r.steps| && GuardedUntil(r, k, m)
    ensures !DuplicatesAt(r, k, m)
  {
    GuardedIsExclusive(r, configured, k, m);
    assert Step(r.states[k], r.steps[k], r.states[k + 1]);
    if Duplicates(r.states[k], r.steps[k], m) {
      SenderIsAHandle(r.states[k], r.steps[k], m);
      assert false;
    }
  }

  /** Where admin retries wait for the message's last handle, it never has two live jobs. */
  lemma GuardedHasOneLiveJob(r: Run, configured: int, n: nat, m: MsgId)
    requires IsRun(r, configured) && n <= |r.steps| && GuardedUntil(r, n, m)
    ensures NeverDuplicates(r, n, m) && forall k | 0 <= k <= n :: LiveJobs(r.states[k], m) <= 1
  {
    forall k | 0 <= k < n
      ensures !DuplicatesAt(r, k, m)
    {
      GuardedStepDuplicatesNothing(r, configured, k, m);
    }
    OneLiveJobUntil(r, configured, n, m);
  }
}
