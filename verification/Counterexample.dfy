/** What the engine does not promise: one concrete run in which a message has two
    live jobs, is delivered and marked done, and is then marked failed. */
module Counterexample {
  import opened Wrappers
  import opened Errors
  import opened Messages
  import opened Engine
  import opened Lives
  import opened Guarantees
  import opened HandlerRuns
  import opened Finality

  const KEY := Key(0, In, "id")
  const JOB := Job(0, 0, In, "{}")
  const REFUSAL := Fatal(Base(Plain, "400"))
  const LATE: nat := STALE_AGE + 1

  function RowWith(status: Status, attempts: nat, why: Option<Reason>): Row {
    Row(KEY, "{}", 0, status, attempts, why)
  }

  function Snap(clock: nat, swept: nat, row: Row, inbox: seq<Job>, procs: seq<Proc>, log: seq<Event>): State {
    State(10, true, clock, swept, map[0 := row], inbox, [], procs, map[], log)
  }

  const LOG1 := [Booted, Inserted(0)]
  const LOG2 := LOG1 + [ReplyQueued(0)]
  const LOG3 := LOG2 + [Swept]
  const LOG4 := LOG3 + [Retried(0)]
  const LOG5 := LOG4 + [AdminPushed(0)]
  const LOG6 := LOG5 + [Dequeued(0)]
  const LOG7 := LOG6 + [Succeeded(0)]
  const LOG8 := LOG7 + [Dequeued(0)]

  const FRESH := RowWith(Pending, 0, None)
  const BOOTED := State(10, true, 0, 0, map[], [], [], [], map[], [Booted])
  const ARRIVED := Snap(0, 0, FRESH, [], [Proc(JOB, Intake)], LOG1)
  const QUEUED := Snap(0, 0, FRESH, [JOB], [], LOG2)
  const WAITED := Snap(LATE, 0, FRESH, [JOB], [], LOG2)
  const SWEPT := Snap(LATE, LATE, RowWith(Failed, 0, Some(Stale)), [JOB], [], LOG3)
  const REOPENED := Snap(LATE, LATE, FRESH, [JOB], [Proc(JOB, Requeued)], LOG4)
  const DOUBLED := Snap(LATE, LATE, FRESH, [JOB, JOB], [], LOG5)
  const TAKEN := Snap(LATE, LATE, FRESH, [JOB], [Proc(JOB, Counting(0))], LOG6)
  const CALLED := Snap(LATE, LATE, RowWith(Pending, 1, None), [JOB], [Proc(JOB, Calling(0))], LOG6)
  const ANSWERED := Snap(LATE, LATE, RowWith(Pending, 1, None), [JOB], [Proc(JOB, Returned(Nil))], LOG7)
  const DELIVERED := Snap(LATE, LATE, RowWith(Done, 1, None), [JOB], [], LOG7)
  const RETAKEN := Snap(LATE, LATE, RowWith(Done, 1, None), [], [Proc(JOB, Counting(0))], LOG8)
  const RECALLED := Snap(LATE, LATE, RowWith(Done, 2, None), [], [Proc(JOB, Calling(0))], LOG8)
  const REFUSED := Snap(LATE, LATE, RowWith(Done, 2, None), [], [Proc(JOB, Returned(Failure(REFUSAL)))], LOG8)
  const OVERWRITTEN := Snap(LATE, LATE, RowWith(Failed, 2, Some(Reported("400"))), [], [], LOG8)

  lemma Intakes()
    ensures Step(Init(10), Boot([], Applied), BOOTED)
    ensures Step(BOOTED, Receive(0, KEY, "{}", Applied), ARRIVED)
    ensures Step(ARRIVED, IntakeSend(0), QUEUED)
  {
  }

  lemma Doubles()
    ensures Step(QUEUED, Tick(LATE), WAITED)
    ensures Step(WAITED, SweepStale(Applied), SWEPT)
    ensures Step(SWEPT, AdminRetry(0, Applied), REOPENED)
    ensures Step(REOPENED, AdminSend(0), DOUBLED)
  {
  }

  lemma Delivers()
    ensures Step(DOUBLED, Dequeue(In), TAKEN)
    ensures Step(TAKEN, Count(0, Applied), CALLED)
    ensures Step(CALLED, Return(0, Nil), ANSWERED)
    ensures Step(ANSWERED, Finish(0, Applied), DELIVERED)
  {
  }

  lemma Overwrites()
    ensures Step(DELIVERED, Dequeue(In), RETAKEN)
    ensures Step(RETAKEN, Count(0, Applied), RECALLED)
    ensures Step(RECALLED, Return(0, Failure(REFUSAL)), REFUSED)
    ensures Step(REFUSED, Finish(0, Applied), OVERWRITTEN)
  {
  }

  lemma TwoLiveJobs()
    ensures LiveJobs(DOUBLED, 0) == 2
  {
    assert Ids([JOB, JOB]) == [0, 0];
  }

  lemma UntilDoubled() returns (r: Run)
    ensures IsRun(r, 10) && |r.steps| == 7 && Last(r) == DOUBLED
  {
    Intakes();
    Doubles();
    r := OneMore(Start(Init(10)), Boot([], Applied), BOOTED);
    r := OneMore(r, Receive(0, KEY, "{}", Applied), ARRIVED);
    r := OneMore(r, IntakeSend(0), QUEUED);
    r := OneMore(r, Tick(LATE), WAITED);
    r := OneMore(r, SweepStale(Applied), SWEPT);
    r := OneMore(r, AdminRetry(0, Applied), REOPENED);
    r := OneMore(r, AdminSend(0), DOUBLED);
  }

  lemma UntilDelivered() returns (r: Run)
    ensures IsRun(r, 10) && |r.steps| == 11 && r.states[7] == DOUBLED && Last(r) == DELIVERED
  {
    r := UntilDoubled();
    Delivers();
    r := OneMore(r, Dequeue(In), TAKEN);
    r := OneMore(r, Count(0, Applied), CALLED);
    r := OneMore(r, Return(0, Nil), ANSWERED);
    r := OneMore(r, Finish(0, Applied), DELIVERED);
  }

  lemma UntilOverwritten() returns (r: Run)
    ensures IsRun(r, 10) && |r.steps| == 15
    ensures r.states[7] == DOUBLED && r.states[11] == DELIVERED && Last(r) == OVERWRITTEN
  {
    r := UntilDelivered();
    Overwrites();
    r := OneMore(r, Dequeue(In), RETAKEN);
    r := OneMore(r, Count(0, Applied), RECALLED);
    r := OneMore(r, Return(0, Failure(REFUSAL)), REFUSED);
    r := OneMore(r, Finish(0, Applied), OVERWRITTEN);
  }

  /** Two live jobs of one message, and a done row that does not stay done: the
      guard of Finality.DoneIsFinal cannot be dropped. */
  lemma DoneCanBeOverwritten() returns (r: Run)
    ensures IsRun(r, 10) && |r.steps| == 15
    ensures LiveJobs(r.states[7], 0) == 2
    ensures IsDone(r.states[11], 0) && !IsDone(r.states[15], 0)
  {
    r := UntilOverwritten();
    TwoLiveJobs();
  }
}
