/** A second way to lose "done", with no failed delivery at all: a handler that found
    the channel full is slow to mark its row, and does so after the row was swept,
    retried, delivered and marked done. */
module LateRejection {
  import opened Wrappers
  import opened Errors
  import opened Messages
  import opened Engine
  import opened HandlerRuns
  import opened Finality

  const FIRST := Job(0, 0, In, "{}")
  const SECOND := Job(1, 0, In, "{}")
  const LATE: nat := STALE_AGE + 1

  function KeyOf(job: Job): Key {
    Key(0, In, if job.msg == 0 then "a" else "b")
  }

  function RowOf(job: Job, status: Status, attempts: nat, why: Option<Reason>): Row {
    Row(KeyOf(job), "{}", 0, status, attempts, why)
  }

  const OLD := RowOf(FIRST, Failed, 0, Some(Stale))
  const STUCK := Proc(SECOND, Rejecting)
  const WORKER := Proc(FIRST, Counting(0))

  /** The second row's state while the first row is swept and its job is with a worker. */
  function Late(second: Row, inbox: seq<Job>, procs: seq<Proc>, log: seq<Event>): State {
    State(1, true, LATE, LATE, map[0 := OLD, 1 := second], inbox, [], procs, map[], log)
  }

  const BOOTED := State(1, true, 0, 0, map[], [], [], [], map[], [Booted])
  const TABLE1 := map[0 := RowOf(FIRST, Pending, 0, None)]
  const TABLE2 := TABLE1[1 := RowOf(SECOND, Pending, 0, None)]
  const LOGA := [Booted, Inserted(0)]
  const LOGB := LOGA + [ReplyQueued(0)]
  const LOGC := LOGB + [Inserted(1)]
  const ARRIVED := BOOTED.(table := TABLE1, procs := [Proc(FIRST, Intake)], log := LOGA)
  const FILLED := BOOTED.(table := TABLE1, inbox := [FIRST], log := LOGB)
  const NEXT := FILLED.(table := TABLE2, procs := [Proc(SECOND, Intake)], log := LOGC)
  const REJECTING := NEXT.(procs := [STUCK])
  const WAITED := REJECTING.(clock := LATE)

  /** The first message takes the channel's only place, so the second one's handler must reject. */
  lemma Rejects()
    ensures Step(Init(1), Boot([], Applied), BOOTED)
    ensures Step(BOOTED, Receive(0, KeyOf(FIRST), "{}", Applied), ARRIVED)
    ensures Step(ARRIVED, IntakeSend(0), FILLED)
  {
  }

  lemma RejectsNext()
    ensures Step(FILLED, Receive(1, KeyOf(SECOND), "{}", Applied), NEXT)
    ensures Step(NEXT, IntakeSend(0), REJECTING)
    ensures Step(REJECTING, Tick(LATE), WAITED)
  {
    assert KeyOf(FIRST).ext[0] != KeyOf(SECOND).ext[0];
  }

  const LOG1 := LOGC + [Swept]
  const LOG2 := LOG1 + [Dequeued(0)]
  const LOG3 := LOG2 + [Retried(1)]
  const LOG4 := LOG3 + [AdminPushed(1)]
  const LOG5 := LOG4 + [Dequeued(1)]
  const LOG6 := LOG5 + [Succeeded(1)]

  const SWEPT := Late(RowOf(SECOND, Failed, 0, Some(Stale)), [FIRST], [STUCK], LOG1)
  const FREED := Late(RowOf(SECOND, Failed, 0, Some(Stale)), [], [STUCK, WORKER], LOG2)
  const RETRIED := Late(RowOf(SECOND, Pending, 0, None), [], [STUCK, WORKER, Proc(SECOND, Requeued)], LOG3)
  const QUEUED := Late(RowOf(SECOND, Pending, 0, None), [SECOND], [STUCK, WORKER], LOG4)
  const TAKEN := Late(RowOf(SECOND, Pending, 0, None), [], [STUCK, WORKER, Proc(SECOND, Counting(0))], LOG5)
  const CALLED := Late(RowOf(SECOND, Pending, 1, None), [], [STUCK, WORKER, Proc(SECOND, Calling(0))], LOG5)
  const ANSWERED := Late(RowOf(SECOND, Pending, 1, None), [], [STUCK, WORKER, Proc(SECOND, Returned(Nil))], LOG6)
  const DELIVERED := Late(RowOf(SECOND, Done, 1, None), [], [STUCK, WORKER], LOG6)
  const OVERWRITTEN := Late(RowOf(SECOND, Failed, 1, Some(QueueFull)), [], [WORKER], LOG6)

  /** An hour later both rows are swept and the first job is taken. */
  lemma Sweeps()
    ensures Step(WAITED, SweepStale(Applied), SWEPT)
    ensures Step(SWEPT, Dequeue(In), FREED)
  {
  }

  lemma Retries()
    ensures Step(FREED, AdminRetry(1, Applied), RETRIED)
    ensures Step(RETRIED, AdminSend(2), QUEUED)
  {
  }

  lemma Delivers()
    ensures Step(QUEUED, Dequeue(In), TAKEN)
    ensures Step(TAKEN, Count(2, Applied), CALLED)
    ensures Step(CALLED, Return(2, Nil), ANSWERED)
  {
  }

  lemma Marks()
    ensures Step(ANSWERED, Finish(2, Applied), DELIVERED)
    ensures Step(DELIVERED, IntakeReject(0, Applied), OVERWRITTEN)
  {
  }

  lemma UntilRejecting() returns (r: Run)
    ensures IsRun(r, 1) && |r.steps| == 6 && Last(r) == WAITED
  {
    Rejects();
    RejectsNext();
    r := OneMore(Start(Init(1)), Boot([], Applied), BOOTED);
    r := OneMore(r, Receive(0, KeyOf(FIRST), "{}", Applied), ARRIVED);
    r := OneMore(r, IntakeSend(0), FILLED);
    r := OneMore(r, Receive(1, KeyOf(SECOND), "{}", Applied), NEXT);
    r := OneMore(r, IntakeSend(0), REJECTING);
    r := OneMore(r, Tick(LATE), WAITED);
  }

  lemma UntilDelivered() returns (r: Run)
    ensures IsRun(r, 1) && |r.steps| == 13 && Last(r) == ANSWERED
  {
    r := UntilRejecting();
    Sweeps();
    Retries();
    Delivers();
    r := OneMore(r, SweepStale(Applied), SWEPT);
    r := OneMore(r, Dequeue(In), FREED);
    r := OneMore(r, AdminRetry(1, Applied), RETRIED);
    r := OneMore(r, AdminSend(2), QUEUED);
    r := OneMore(r, Dequeue(In), TAKEN);
    r := OneMore(r, Count(2, Applied), CALLED);
    r := OneMore(r, Return(2, Nil), ANSWERED);
  }

  /** The second message is delivered and done, and then the handler of its own first
      delivery marks it failed. */
  lemma DoneCanBeRejected() returns (r: Run)
    ensures IsRun(r, 1) && |r.steps| == 15
    ensures IsDone(r.states[14], 1) && r.steps[14] == IntakeReject(0, Applied)
    ensures 1 in r.states[15].table && r.states[15].table[1] == RowOf(SECOND, Failed, 1, Some(QueueFull))
  {
    r := UntilDelivered();
    Marks();
    r := OneMore(r, Finish(2, Applied), DELIVERED);
    r := OneMore(r, IntakeReject(0, Applied), OVERWRITTEN);
  }
}
