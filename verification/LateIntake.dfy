/** A second way to two live jobs: an enqueue handler is slow to send its job, and does so
    after the row was swept, retried and queued by the operator's retry. */
module LateIntake {
  import opened Wrappers
  import opened Messages
  import opened Engine
  import opened Lives
  import opened Guarantees
  import opened HandlerRuns
  import opened Counterexample

  const SLOW := Proc(JOB, Intake)
  const STALLED := Snap(LATE, 0, FRESH, [], [SLOW], LOG1)
  const SWEPT_AWAY := Snap(LATE, LATE, RowWith(Failed, 0, Some(Stale)), [], [SLOW], LOG1 + [Swept])
  const RETRIED_LOG := LOG1 + [Swept] + [Retried(0)]
  const RETRIED := Snap(LATE, LATE, FRESH, [], [SLOW, Proc(JOB, Requeued)], RETRIED_LOG)
  const PUSHED_LOG := RETRIED_LOG + [AdminPushed(0)]
  const PUSHED := Snap(LATE, LATE, FRESH, [JOB], [SLOW], PUSHED_LOG)
  const SENT := Snap(LATE, LATE, FRESH, [JOB, JOB], [], PUSHED_LOG + [ReplyQueued(0)])

  lemma Stalls()
    ensures Step(ARRIVED, Tick(LATE), STALLED)
    ensures Step(STALLED, SweepStale(Applied), SWEPT_AWAY)
    ensures Step(SWEPT_AWAY, AdminRetry(0, Applied), RETRIED)
  {
  }

  lemma Sends()
    ensures Step(RETRIED, AdminSend(1), PUSHED)
    ensures Step(PUSHED, IntakeSend(0), SENT)
  {
  }

  lemma TwoQueued()
    ensures LiveJobs(SENT, 0) == 2
  {
    assert Ids([JOB, JOB]) == [0, 0];
  }

  lemma UntilSwept() returns (r: Run)
    ensures IsRun(r, 10) && |r.steps| == 4 && Last(r) == SWEPT_AWAY
  {
    Intakes();
    Stalls();
    r := OneMore(Start(Init(10)), Boot([], Applied), BOOTED);
    r := OneMore(r, Receive(0, KEY, "{}", Applied), ARRIVED);
    r := OneMore(r, Tick(LATE), STALLED);
    r := OneMore(r, SweepStale(Applied), SWEPT_AWAY);
  }

  lemma UntilSent() returns (r: Run)
    ensures IsRun(r, 10) && |r.steps| == 7 && r.states[4] == SWEPT_AWAY && Last(r) == SENT
    ensures r.steps[4] == AdminRetry(0, Applied) && r.steps[6] == IntakeSend(0)
  {
    r := UntilSwept();
    Stalls();
    Sends();
    r := OneMore(r, AdminRetry(0, Applied), RETRIED);
    r := OneMore(r, AdminSend(1), PUSHED);
    r := OneMore(r, IntakeSend(0), SENT);
  }

  /** Seven steps: the operator's retry finds no job queued or running, and yet there are two in the end. */
  lemma SlowHandlerDoubles() returns (r: Run)
    ensures IsRun(r, 10) && |r.steps| == 7
    ensures r.states[4] == SWEPT_AWAY && r.steps[4] == AdminRetry(0, Applied)
    ensures r.steps[6] == IntakeSend(0) && LiveJobs(r.states[7], 0) == 2
  {
    r := UntilSent();
    TwoQueued();
  }
}
