/** Pending rows that nobody works on: exactly which steps strand a row, which
    release it, and that there are no others. */
module Stranding {
  import opened Wrappers
  import opened Errors
  import opened Messages
  import opened Engine
  import opened Lives
  import opened Guarantees

  /** The row is pending and nothing is left that would act on it. */
  ghost predicate Stranded(s: State, m: MsgId) {
    IsPending(s.table, m) && Handles(s, m) == 0
  }

  /** The row is pending and one handle is left, which the step may be about to give up. */
  ghost predicate HangsOnOne(s: State, m: MsgId) {
    IsPending(s.table, m) && Handles(s, m) == 1
  }

  /** Why the step strands m, if it does: by the state it is taken in and its own outcome. */
  ghost function StrandedBy(s: State, a: Action, m: MsgId): Option<Cause>
    requires Enabled(s, a)
  {
    match a
    case Receive(id, key, _, db) =>
      if id == m && db == Unacked && !HasKey(s.table, key) then Some(ReplyLost) else None
    case IntakeReject(p, db) =>
      if s.procs[p].job.msg == m && HangsOnOne(s, m) && db == Refused then Some(MarkLost) else None
    case Finish(p, db) =>
      var result := s.procs[p].pc.result;
      if s.procs[p].job.msg != m || !HangsOnOne(s, m) then None
      else if result.Failure? && IsContextError(result.err) then Some(ContextReturn)
      else if db == Refused then Some(MarkLost) else None
    case AdminRetry(id, db) =>
      if id == m && db == Unacked && CanRequeue(s.table, m) && Handles(s, m) == 0 then Some(ReplyLost) else None
    case AdminSend(p) =>
      if s.procs[p].job.msg == m && HangsOnOne(s, m) && !HasRoom(s, s.procs[p].job.dir)
      then Some(AdminRefused) else None
    case WebRetry(id, db) =>
      if id == m && db != Refused && CanRequeue(s.table, m) && Handles(s, m) == 0 then Some(WebRetried) else None
    case Crash => if IsPending(s.table, m) then Some(Crashed) else None
    case Boot(ids, db) =>
      if !IsPending(s.table, m) then None
      else if db != Applied then Some(RecoveryFailed)
      else if IsRecovered(s, ids, m) then None else Some(BootCause(s, ids, m))
    case _ => None
  }

  /** The two steps that end a stranding: a sweep once the row is over an hour old, and a
      boot recovery that queues it. */
  ghost predicate Releases(s: State, a: Action, m: MsgId)
    requires Enabled(s, a)
  {
    match a
    case SweepStale(db) => db != Refused && m in s.table && IsStale(s.table[m], s.clock)
    case Boot(ids, db) => db == Applied && IsRecovered(s, ids, m)
    case _ => false
  }

  // ---- the same, on one message's life ----

  predicate IsStranded(v: Life) {
    v.HasStatus(Pending) && v.Unattended()
  }

  function MoveStrands(v: Life, mv: Move): Option<Cause> {
    match mv
    case Arrive(_, acked) => if acked then None else Some(ReplyLost)
    case GiveUp(_, cause) => if v.HasStatus(Pending) && v.Handles() == 1 then Some(cause) else None
    case Reopen(acked) => if !acked && v.Unattended() then Some(ReplyLost) else None
    case WebReopen => if v.Unattended() then Some(WebRetried) else None
    case Down => if v.HasStatus(Pending) then Some(Crashed) else None
    case Restart(recovered, cause) => if v.HasStatus(Pending) && !recovered then Some(cause) else None
    case _ => None
  }

  predicate MoveReleases(v: Life, mv: Move) {
    match mv
    case Janitor(now) => v.row.Some? && IsStale(v.row.value, now)
    case Restart(recovered, _) => recovered
    case _ => false
  }

  /** The move strands, or leaves stranded, exactly what it should, and records why. */
  predicate StrandsExactly(v: Life, mv: Move, v': Life) {
    && (IsStranded(v') <==> MoveStrands(v, mv).Some? || (IsStranded(v) && !MoveReleases(v, mv)))
    && (MoveStrands(v, mv).Some? ==> v'.cause == MoveStrands(v, mv))
    && (IsStranded(v') && MoveStrands(v, mv).None? ==> v'.cause == v.cause)
  }

  lemma HandlerMoveStrands(v: Life, mv: Move, v': Life)
    requires Moves(v, mv, v') && (mv.Shift? || mv.Send? || mv.Settle?)
    ensures StrandsExactly(v, mv, v')
  {
  }

  lemma GiveUpStrands(v: Life, from: Pc, cause: Cause, v': Life)
    requires GivesUp(v, from, cause, v')
    ensures StrandsExactly(v, GiveUp(from, cause), v')
  {
  }

  lemma WorkerMoveStrands(v: Life, mv: Move, v': Life)
    requires Moves(v, mv, v') && (mv.Take? || mv.Tally? || mv.Answer?)
    ensures StrandsExactly(v, mv, v')
  {
  }

  lemma ArrivalStrands(v: Life, row: Row, acked: bool, v': Life)
    requires Sound(v) && Arrives(v, row, acked, v')
    ensures StrandsExactly(v, Arrive(row, acked), v')
  {
  }

  lemma ReopenStrands(v: Life, mv: Move, v': Life)
    requires Moves(v, mv, v') && (mv.Reopen? || mv.WebReopen?)
    ensures StrandsExactly(v, mv, v')
  {
  }

  lemma DownStrands(v: Life, v': Life)
    requires GoesDown(v, v')
    ensures StrandsExactly(v, Down, v')
  {
  }

  lemma RestartStrands(v: Life, recovered: bool, cause: Cause, v': Life)
    requires Restarts(v, recovered, cause, v')
    ensures StrandsExactly(v, Restart(recovered, cause), v')
  {
  }

  lemma QuietMoveStrands(v: Life, mv: Move, v': Life)
    requires Moves(v, mv, v') && (mv.Stay? || mv.Janitor?)
    ensures StrandsExactly(v, mv, v')
  {
  }

  lemma EveryMoveStrandsExactly(v: Life, mv: Move, v': Life)
    requires Sound(v) && Moves(v, mv, v')
    ensures StrandsExactly(v, mv, v')
  {
    match mv
    case Shift(_, _) | Send(_) | Settle(_, _, _) => HandlerMoveStrands(v, mv, v');
    case GiveUp(from, cause) => GiveUpStrands(v, from, cause, v');
    case Take | Tally(_, _) | Answer(_, _) => WorkerMoveStrands(v, mv, v');
    case Arrive(row, acked) => ArrivalStrands(v, row, acked, v');
    case Reopen(_) | WebReopen => ReopenStrands(v, mv, v');
    case Down => DownStrands(v, v');
    case Restart(recovered, cause) => RestartStrands(v, recovered, cause, v');
    case _ => QuietMoveStrands(v, mv, v');
  }

  lemma HandlersStrandingIsTheMoves(s: State, a: Action, m: MsgId)
    requires Enabled(s, a) && (a.Receive? || a.IntakeReject? || a.AdminRetry? || a.AdminSend? || a.WebRetry?)
    ensures StrandedBy(s, a, m) == MoveStrands(LifeOf(s, m), MoveOf(s, a, m))
    ensures Releases(s, a, m) <==> MoveReleases(LifeOf(s, m), MoveOf(s, a, m))
  {
  }

  lemma FinishStrandingIsTheMoves(s: State, a: Action, m: MsgId)
    requires Enabled(s, a) && a.Finish?
    ensures StrandedBy(s, a, m) == MoveStrands(LifeOf(s, m), MoveOf(s, a, m))
    ensures Releases(s, a, m) <==> MoveReleases(LifeOf(s, m), MoveOf(s, a, m))
  {
  }

  lemma ProcessStrandingIsTheMoves(s: State, a: Action, m: MsgId)
    requires Enabled(s, a) && (a.Crash? || a.Boot? || a.SweepStale?)
    ensures StrandedBy(s, a, m) == MoveStrands(LifeOf(s, m), MoveOf(s, a, m))
    ensures Releases(s, a, m) <==> MoveReleases(LifeOf(s, m), MoveOf(s, a, m))
  {
  }

  lemma StrandingIsTheMoves(s: State, a: Action, m: MsgId)
    requires Enabled(s, a)
    ensures StrandedBy(s, a, m) == MoveStrands(LifeOf(s, m), MoveOf(s, a, m))
    ensures Releases(s, a, m) <==> MoveReleases(LifeOf(s, m), MoveOf(s, a, m))
  {
    if a.Receive? || a.IntakeReject? || a.AdminRetry? || a.AdminSend? || a.WebRetry? {
      HandlersStrandingIsTheMoves(s, a, m);
    } else if a.Finish? {
      FinishStrandingIsTheMoves(s, a, m);
    } else if a.Crash? || a.Boot? || a.SweepStale? {
      ProcessStrandingIsTheMoves(s, a, m);
    }
  }

  // ---- a message's chronicle ----

  /** A state: is m stranded, and what cause is on record? */
  datatype View = View(stranded: bool, record: Option<Cause>)

  /** A step: does it strand m, and does it release it? */
  datatype Verdict = Verdict(cause: Option<Cause>, releases: bool)

  ghost function ViewOf(s: State, m: MsgId): View {
    View(Stranded(s, m), if m in s.causes then Some(s.causes[m]) else None)
  }

  ghost function VerdictOf(s: State, a: Action, m: MsgId): Verdict
    requires Enabled(s, a)
  {
    Verdict(StrandedBy(s, a, m), Releases(s, a, m))
  }

  /** m is stranded after the step exactly when the step strands it, or finds it stranded
      and does not release it; and the record is of what stranded it last. */
  predicate Follows(before: View, step: Verdict, after: View) {
    && (after.stranded <==> step.cause.Some? || (before.stranded && !step.releases))
    && (step.cause.Some? ==> after.record == step.cause)
    && (step.cause.None? && after.stranded ==> after.record == before.record)
  }

  predicate Chronicle(views: seq<View>, steps: seq<Verdict>) {
    && |views| == |steps| + 1 && !views[0].stranded
    && forall k {:trigger steps[k]} | 0 <= k < |steps| :: Follows(views[k], steps[k], views[k + 1])
  }

  /** Step k strands m, and no step from there to n releases it. */
  predicate Since(steps: seq<Verdict>, k: nat, n: nat) {
    && k < n <= |steps| && steps[k].cause.Some?
    && forall j | k < j < n :: !steps[j].releases
  }

  lemma {:induction false} SinceMeansStranded(views: seq<View>, steps: seq<Verdict>, k: nat, n: nat)
    requires Chronicle(views, steps) && Since(steps, k, n)
    ensures forall j | k < j <= n :: views[j].stranded
  {
    assert Follows(views[n - 1], steps[n - 1], views[n]);
    if k < n - 1 {
      SinceMeansStranded(views, steps, k, n - 1);
    }
  }

  lemma {:induction false} LastStrander(views: seq<View>, steps: seq<Verdict>, n: nat) returns (k: nat)
    requires Chronicle(views, steps) && n <= |steps| && views[n].stranded
    ensures Since(steps, k, n) && views[n].record == steps[k].cause
  {
    k := n - 1;
    assert Follows(views[n - 1], steps[n - 1], views[n]);
    if steps[n - 1].cause.None? {
      k := LastStrander(views, steps, n - 1);
    }
  }

  // ---- over every run ----

  lemma StrandedIsTheLifes(s: State, m: MsgId)
    ensures Stranded(s, m) <==> IsStranded(LifeOf(s, m))
  {
  }

  /** Every step of every run strands and releases exactly what it should. */
  lemma StrandedStep(r: Run, configured: int, k: nat, m: MsgId)
    requires IsRun(r, configured) && k < |r.steps|
    ensures Enabled(r.states[k], r.steps[k])
    ensures Follows(ViewOf(r.states[k], m), VerdictOf(r.states[k], r.steps[k], m), ViewOf(r.states[k + 1], m))
  {
    var v, v' := LifeOf(r.states[k], m), LifeOf(r.states[k + 1], m);
    RunMoves(r, configured, k, m);
    LivesAreSound(r, configured, k, m);
    StrandingIsTheMoves(r.states[k], r.steps[k], m);
    EveryMoveStrandsExactly(v, MoveOf(r.states[k], r.steps[k], m), v');
    StrandedIsTheLifes(r.states[k], m);
    StrandedIsTheLifes(r.states[k + 1], m);
  }

  ghost function Views(r: Run, m: MsgId): (views: seq<View>)
    ensures |views| == |r.states| && forall k | 0 <= k < |views| :: views[k] == ViewOf(r.states[k], m)
  {
    seq(|r.states|, k requires 0 <= k < |r.states| => ViewOf(r.states[k], m))
  }

  ghost function Verdicts(r: Run, m: MsgId): (steps: seq<Verdict>)
    requires Linked(r)
    ensures |steps| == |r.steps|
    ensures forall k {:trigger steps[k]} | 0 <= k < |steps| ::
              Enabled(r.states[k], r.steps[k]) && steps[k] == VerdictOf(r.states[k], r.steps[k], m)
  {
    var steps := seq(|r.steps|, k requires 0 <= k < |r.steps| && Linked(r) =>
                       assert Step(r.states[k], r.steps[k], r.states[k + 1]);
                       VerdictOf(r.states[k], r.steps[k], m));
    assert forall k {:trigger steps[k]} | 0 <= k < |steps| :: Step(r.states[k], r.steps[k], r.states[k + 1]);
    steps
  }

  lemma NobodyAtFirst(configured: int, m: MsgId)
    ensures !Stranded(Init(configured), m)
  {
  }

  lemma RunIsAChronicle(r: Run, configured: int, m: MsgId)
    requires IsRun(r, configured)
    ensures Chronicle(Views(r, m), Verdicts(r, m))
  {
    var views, steps := Views(r, m), Verdicts(r, m);
    NobodyAtFirst(configured, m);
    forall k {:trigger steps[k]} | 0 <= k < |steps|
      ensures Follows(views[k], steps[k], views[k + 1])
    {
      StrandedStep(r, configured, k, m);
    }
  }

  /** No silent stranding: a pending row without a handle was stranded by one step, for
      the cause on record, and has been stranded without release ever since. */
  lemma NoSilentStranding(r: Run, configured: int, n: nat, m: MsgId) returns (k: nat, cause: Cause)
    requires IsRun(r, configured) && n <= |r.steps| && Stranded(r.states[n], m)
    ensures k < n && Enabled(r.states[k], r.steps[k]) && Since(Verdicts(r, m), k, n)
    ensures StrandedBy(r.states[k], r.steps[k], m) == Some(cause)
    ensures m in r.states[n].causes && r.states[n].causes[m] == cause
    ensures forall j | k < j <= n :: Stranded(r.states[j], m)
  {
    var views, steps := Views(r, m), Verdicts(r, m);
    RunIsAChronicle(r, configured, m);
    k := LastStrander(views, steps, n);
    cause := steps[k].cause.value;
    SinceMeansStranded(views, steps, k, n);
    forall j | k < j <= n
      ensures Stranded(r.states[j], m)
    {
      assert views[j].stranded;
    }
  }

  /** A row is stranded exactly when some step of the run stranded it and none has released it since. */
  lemma StrandedIff(r: Run, configured: int, n: nat, m: MsgId)
    requires IsRun(r, configured) && n <= |r.steps|
    ensures Stranded(r.states[n], m) <==> exists k: nat :: Since(Verdicts(r, m), k, n)
  {
    var views, steps := Views(r, m), Verdicts(r, m);
    RunIsAChronicle(r, configured, m);
    if views[n].stranded {
      var k := LastStrander(views, steps, n);
    }
    forall k: nat | Since(steps, k, n)
      ensures views[n].stranded
    {
      SinceMeansStranded(views, steps, k, n);
    }
  }

  /** Up to any point of a run, pending implied that something would still act on the
      row, exactly when no step so far stranded it. */
  lemma PendingIsHandled(r: Run, configured: int, n: nat, m: MsgId)
    requires IsRun(r, configured) && n <= |r.steps|
    ensures (forall j | 0 <= j <= n :: IsPending(r.states[j].table, m) ==> Handles(r.states[j], m) > 0)
       <==> (forall k | 0 <= k < n :: Verdicts(r, m)[k].cause.None?)
  {
    var views, steps := Views(r, m), Verdicts(r, m);
    RunIsAChronicle(r, configured, m);
    forall k | 0 <= k < n && steps[k].cause.Some?
      ensures views[k + 1].stranded
    {
      assert Follows(views[k], steps[k], views[k + 1]);
    }
    forall j | 0 <= j <= n && views[j].stranded
      ensures exists k :: 0 <= k < n && steps[k].cause.Some?
    {
      var k := LastStrander(views, steps, j);
    }
    assert forall j | 0 <= j <= n :: views[j].stranded <==> Stranded(r.states[j], m);
  }
}
