/** A run to a stranded row: the operator's retry from the web page sets a failed row
    back to pending and queues nothing. */
module StrandedRow {
  import opened Wrappers
  import opened Errors
  import opened Messages
  import opened Engine
  import opened Lives
  import opened HandlerRuns
  import opened Stranding
  import opened Counterexample

  const TAKEN_UP := LOG2 + [Dequeued(0)]
  const TAKEN0 := Snap(0, 0, FRESH, [], [Proc(JOB, Counting(0))], TAKEN_UP)
  const CALLED0 := Snap(0, 0, RowWith(Pending, 1, None), [], [Proc(JOB, Calling(0))], TAKEN_UP)
  const REFUSED0 := Snap(0, 0, RowWith(Pending, 1, None), [], [Proc(JOB, Returned(Failure(REFUSAL)))], TAKEN_UP)
  const FAILED0 := Snap(0, 0, RowWith(Failed, 1, Some(Reported("400"))), [], [], TAKEN_UP)
  const STRANDED := Snap(0, 0, FRESH, [], [], TAKEN_UP + [Retried(0)]).(causes := map[0 := WebRetried])

  lemma Fails()
    ensures Step(QUEUED, Dequeue(In), TAKEN0)
    ensures Step(TAKEN0, Count(0, Applied), CALLED0)
    ensures Step(CALLED0, Return(0, Failure(REFUSAL)), REFUSED0)
  {
  }

  lemma IsRetriedFromTheWeb()
    ensures Step(REFUSED0, Finish(0, Applied), FAILED0)
    ensures Step(FAILED0, WebRetry(0, Applied), STRANDED)
  {
  }

  lemma NobodyIsLeft()
    ensures Stranded(STRANDED, 0)
  {
    assert Shares(STRANDED.procs, 0) == [];
  }

  lemma UntilRefused() returns (r: Run)
    ensures IsRun(r, 10) && |r.steps| == 6 && Last(r) == REFUSED0
  {
    Intakes();
    Fails();
    r := OneMore(Start(Init(10)), Boot([], Applied), BOOTED);
    r := OneMore(r, Receive(0, KEY, "{}", Applied), ARRIVED);
    r := OneMore(r, IntakeSend(0), QUEUED);
    r := OneMore(r, Dequeue(In), TAKEN0);
    r := OneMore(r, Count(0, Applied), CALLED0);
    r := OneMore(r, Return(0, Failure(REFUSAL)), REFUSED0);
  }

  /** Eight steps: queued, refused by the gateway, marked failed, retried from the web page. */
  lemma PendingWithoutAHandle() returns (r: Run)
    ensures IsRun(r, 10) && |r.steps| == 8 && r.steps[7] == WebRetry(0, Applied)
    ensures Stranded(r.states[8], 0)
  {
    r := UntilRefused();
    IsRetriedFromTheWeb();
    r := OneMore(r, Finish(0, Applied), FAILED0);
    r := OneMore(r, WebRetry(0, Applied), STRANDED);
    NobodyIsLeft();
  }
}
