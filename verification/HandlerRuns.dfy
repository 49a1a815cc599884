/** The handlers as uninterrupted sequences of engine steps. */
module HandlerRuns {
  import opened Wrappers
  import opened Errors
  import opened Messages
  import opened Engine
  import opened Retry

  function Start(s: State): Run {
    Run([s], [])
  }

  // ---- enqueue ----

  predicate IsFresh(s: State, key: Key, db: Db) {
    db == Applied && !HasKey(s.table, key)
  }

  function EnqueueEnd(s: State, id: MsgId, key: Key, payload: string, dbInsert: Db, dbMark: Db): State
    requires s.up
  {
    var s1 := ReceiveStep(s, id, key, payload, dbInsert);
    if !IsFresh(s, key, dbInsert) then s1
    else
      var s2 := IntakeSendStep(s1, |s.procs|);
      if HasRoom(s, key.dir) then s2 else IntakeRejectStep(s2, |s.procs|, dbMark)
  }

  /** enqueue is a run of at most three steps. */
  lemma EnqueueRun(s: State, id: MsgId, key: Key, payload: string, dbInsert: Db, dbMark: Db) returns (r: Run)
    requires s.up && (HasKey(s.table, key) || id !in s.table)
    ensures Linked(r) && r.states[0] == s && Last(r) == EnqueueEnd(s, id, key, payload, dbInsert, dbMark)
    ensures 1 <= |r.steps| <= 3
  {
    var p := |s.procs|;
    var s1 := ReceiveStep(s, id, key, payload, dbInsert);
    assert Step(s, Receive(id, key, payload, dbInsert), s1);
    r := Extend(Start(s), Receive(id, key, payload, dbInsert), s1);
    ExtendLinked(Start(s), Receive(id, key, payload, dbInsert), s1);
    if IsFresh(s, key, dbInsert) {
      var s2 := IntakeSendStep(s1, p);
      assert Step(s1, IntakeSend(p), s2);
      ExtendLinked(r, IntakeSend(p), s2);
      r := Extend(r, IntakeSend(p), s2);
      if !HasRoom(s, key.dir) {
        var s3 := IntakeRejectStep(s2, p, dbMark);
        assert Step(s2, IntakeReject(p, dbMark), s3);
        ExtendLinked(r, IntakeReject(p, dbMark), s3);
        r := Extend(r, IntakeReject(p, dbMark), s3);
      }
    }
  }

  /** What enqueue leaves behind, in terms of the table, the channels and the goroutines. */
  lemma EnqueueOutcome(s: State, id: MsgId, key: Key, payload: string, dbInsert: Db, dbMark: Db)
    requires s.up && (HasKey(s.table, key) || id !in s.table)
    ensures var e := EnqueueEnd(s, id, key, payload, dbInsert, dbMark);
      var inserted := s.table[id := NewRow(key, payload, s.clock)];
      var job := Job(id, key.tenant, key.dir, payload);
      && e.procs == s.procs && e.limit == s.limit && e.clock == s.clock
      && (if dbInsert == Refused || HasKey(s.table, key)
          then e.table == s.table && e.inbox == s.inbox && e.outbox == s.outbox
          else if dbInsert == Unacked
          then e.table == inserted && e.inbox == s.inbox && e.outbox == s.outbox
          else if HasRoom(s, key.dir)
          then e.table == inserted && Queue(e, key.dir) == Queue(s, key.dir) + [job]
               && (key.dir == In ==> e.outbox == s.outbox) && (key.dir == Out ==> e.inbox == s.inbox)
          else e.table == (if dbMark == Refused then inserted else Mark(inserted, id, Failed, Some(QueueFull)))
               && e.inbox == s.inbox && e.outbox == s.outbox)
  {
  }

  // ---- handleAdminRetry ----

  function AdminRetryEnd(s: State, id: MsgId, db: Db): State
    requires s.up
  {
    var s1 := AdminRetryStep(s, id, db);
    if db == Applied && CanRequeue(s.table, id) then AdminSendStep(s1, |s.procs|) else s1
  }

  lemma AdminRetryRun(s: State, id: MsgId, db: Db) returns (r: Run)
    requires s.up
    ensures Linked(r) && r.states[0] == s && Last(r) == AdminRetryEnd(s, id, db)
    ensures 1 <= |r.steps| <= 2
  {
    var p := |s.procs|;
    var s1 := AdminRetryStep(s, id, db);
    assert Step(s, AdminRetry(id, db), s1);
    r := Extend(Start(s), AdminRetry(id, db), s1);
    ExtendLinked(Start(s), AdminRetry(id, db), s1);
    if db == Applied && CanRequeue(s.table, id) {
      var s2 := AdminSendStep(s1, p);
      assert Step(s1, AdminSend(p), s2);
      ExtendLinked(r, AdminSend(p), s2);
      r := Extend(r, AdminSend(p), s2);
    }
  }

  lemma AdminRetryOutcome(s: State, id: MsgId, db: Db)
    requires s.up
    ensures var e := AdminRetryEnd(s, id, db);
      && e.procs == s.procs && e.limit == s.limit && e.clock == s.clock
      && e.table == (if db == Refused then s.table else Requeue(s.table, id))
      && (if db == Applied && CanRequeue(s.table, id) && HasRoom(s, s.table[id].key.dir)
          then var dir := s.table[id].key.dir;
               Queue(e, dir) == Queue(s, dir) + [JobOf(s.table, id)]
               && (dir == In ==> e.outbox == s.outbox) && (dir == Out ==> e.inbox == s.inbox)
          else e.inbox == s.inbox && e.outbox == s.outbox)
  {
  }

  // ---- runJob ----

  /** IncrementAttempts, however the database took it. */
  function CountOne(t: Table, id: MsgId, db: Db): Table {
    if db == Refused then t else Bump(t, id)
  }

  /** The table after n attempts were counted, or not, as the database pleased. */
  function Counted(t: Table, id: MsgId, dbs: nat -> Db, i: nat, n: nat): Table
    requires i <= n
  {
    if i == n then t else CountOne(Counted(t, id, dbs, i, n - 1), id, dbs(n - 1))
  }

  lemma {:induction false} CountedFirst(t: Table, id: MsgId, dbs: nat -> Db, i: nat, n: nat)
    requires i < n
    ensures Counted(t, id, dbs, i, n) == Counted(CountOne(t, id, dbs(i)), id, dbs, i + 1, n)
  {
    if i + 1 < n {
      CountedFirst(t, id, dbs, i, n - 1);
    }
  }

  /** The state when the retry loop entered at attempt i has returned. */
  function LoopReturns(s: State, p: nat, i: nat, fn: nat -> Outcome, ctx: nat -> Option<Err>, dbs: nat -> Db): State
    requires p < |s.procs| && i <= RETRIES
  {
    var end := RetryFrom(RETRIES, i, fn, ctx);
    RetryShape(RETRIES, i, fn, ctx);
    s.(procs := s.procs[p := s.procs[p].(pc := Returned(end.result))],
       table := Counted(s.table, s.procs[p].job.msg, dbs, i, end.calls),
       log := s.log + if end.result == Nil then [Succeeded(s.procs[p].job.msg)] else [])
  }

  /** One attempt, from its count to its answer. */
  lemma AttemptRun(s: State, p: nat, i: nat, result: Outcome, db: Db) returns (r: Run)
    requires At(s, p) && s.procs[p].pc == Counting(i)
    ensures Linked(r) && r.states[0] == s
    ensures Last(r) == ReturnStep(CountStep(s, p, db), p, result)
  {
    var s1 := CountStep(s, p, db);
    assert Step(s, Count(p, db), s1);
    r := Extend(Start(s), Count(p, db), s1);
    ExtendLinked(Start(s), Count(p, db), s1);
    var s2 := ReturnStep(s1, p, result);
    assert Step(s1, Return(p, result), s2);
    ExtendLinked(r, Return(p, result), s2);
    r := Extend(r, Return(p, result), s2);
  }

  /** Two runs, the second from where the first ends. */
  function Join(a: Run, b: Run): Run
    requires |b.states| > 0
  {
    Run(a.states + b.states[1..], a.steps + b.steps)
  }

  lemma JoinLinked(a: Run, b: Run)
    requires Linked(a) && Linked(b) && Last(a) == b.states[0]
    ensures Linked(Join(a, b)) && Join(a, b).states[0] == a.states[0] && Last(Join(a, b)) == Last(b)
  {
  }

  function AfterAttemptState(s: State, p: nat, result: Outcome, db: Db): State
    requires At(s, p) && s.procs[p].pc.Counting?
  {
    ReturnStep(CountStep(s, p, db), p, result)
  }

  lemma LoopEndsHere(s: State, p: nat, i: nat, fn: nat -> Outcome, ctx: nat -> Option<Err>, dbs: nat -> Db)
    requires At(s, p) && i <= RETRIES && s.procs[p].pc == Counting(i)
    requires !Again(fn(i)) || i == RETRIES
    ensures LoopReturns(s, p, i, fn, ctx, dbs) == AfterAttemptState(s, p, fn(i), dbs(i))
  {
    assert s.log + [] == s.log;
    assert Counted(s.table, s.procs[p].job.msg, dbs, i, i) == s.table;
  }

  lemma LoopIsCut(s: State, p: nat, i: nat, fn: nat -> Outcome, ctx: nat -> Option<Err>, dbs: nat -> Db)
    requires At(s, p) && i < RETRIES && s.procs[p].pc == Counting(i)
    requires Again(fn(i)) && ctx(i).Some?
    ensures LoopReturns(s, p, i, fn, ctx, dbs)
         == Goto(AfterAttemptState(s, p, fn(i), dbs(i)), p, Returned(Failure(ctx(i).value)))
  {
    assert s.log + [] == s.log;
    assert Counted(s.table, s.procs[p].job.msg, dbs, i, i) == s.table;
  }

  lemma LoopGoesOn(s: State, p: nat, i: nat, fn: nat -> Outcome, ctx: nat -> Option<Err>, dbs: nat -> Db)
    requires At(s, p) && i < RETRIES && s.procs[p].pc == Counting(i)
    requires Again(fn(i)) && ctx(i).None?
    ensures LoopReturns(s, p, i, fn, ctx, dbs)
         == LoopReturns(Goto(AfterAttemptState(s, p, fn(i), dbs(i)), p, Counting(i + 1)), p, i + 1, fn, ctx, dbs)
  {
    RetryShape(RETRIES, i + 1, fn, ctx);
    CountedFirst(s.table, s.procs[p].job.msg, dbs, i, RetryFrom(RETRIES, i, fn, ctx).calls);
  }

  /** The retry loop is a run of the engine, whatever its attempts return. */
  lemma {:induction false} LoopRun(s: State, p: nat, i: nat,
                                   fn: nat -> Outcome, ctx: nat -> Option<Err>, dbs: nat -> Db) returns (r: Run)
    requires At(s, p) && i <= RETRIES && s.procs[p].pc == Counting(i)
    requires forall k: nat :: ctx(k).Some? ==> IsContextError(ctx(k).value)
    ensures Linked(r) && r.states[0] == s && Last(r) == LoopReturns(s, p, i, fn, ctx, dbs)
    decreases RETRIES - i
  {
    r := AttemptRun(s, p, i, fn(i), dbs(i));
    if !Again(fn(i)) || i == RETRIES {
      LoopEndsHere(s, p, i, fn, ctx, dbs);
    } else if ctx(i).Some? {
      LoopIsCut(s, p, i, fn, ctx, dbs);
      r := OneMore(r, Cancel(p, ctx(i).value), Goto(Last(r), p, Returned(Failure(ctx(i).value))));
    } else {
      LoopGoesOn(s, p, i, fn, ctx, dbs);
      r := OneMore(r, Resume(p), Goto(Last(r), p, Counting(i + 1)));
      var rest := LoopRun(Last(r), p, i + 1, fn, ctx, dbs);
      JoinLinked(r, rest);
      r := Join(r, rest);
    }
  }

  lemma OneMore(r: Run, a: Action, s: State) returns (r': Run)
    requires Linked(r) && Step(Last(r), a, s)
    ensures Linked(r') && r'.states[0] == r.states[0] && Last(r') == s
    ensures r'.states == r.states + [s] && r'.steps == r.steps + [a]
  {
    ExtendLinked(r, a, s);
    r' := Extend(r, a, s);
  }

  /** runJob, from the worker's receipt of the job to the mark. */
  function JobEnds(s: State, p: nat, fn: nat -> Outcome, ctx: nat -> Option<Err>, dbs: nat -> Db, dbMark: Db): State
    requires At(s, p)
  {
    FinishStep(LoopReturns(s, p, 0, fn, ctx, dbs), p, dbMark)
  }

  /** The table after runJob: every attempt counted, and the end of the loop marked. */
  function JobTable(t: Table, id: MsgId, fn: nat -> Outcome, ctx: nat -> Option<Err>,
                    dbs: nat -> Db, dbMark: Db): Table
  {
    var end := RetrySpec(fn, ctx);
    Settled(Counted(t, id, dbs, 0, end.calls), id, end.result, dbMark)
  }

  lemma JobRun(s: State, p: nat, fn: nat -> Outcome, ctx: nat -> Option<Err>, dbs: nat -> Db, dbMark: Db)
    returns (r: Run)
    requires At(s, p) && s.procs[p].pc == Counting(0)
    requires forall k: nat :: ctx(k).Some? ==> IsContextError(ctx(k).value)
    ensures Linked(r) && r.states[0] == s && Last(r) == JobEnds(s, p, fn, ctx, dbs, dbMark)
    ensures Last(r).table == JobTable(s.table, s.procs[p].job.msg, fn, ctx, dbs, dbMark)
    ensures Last(r).inbox == s.inbox && Last(r).outbox == s.outbox
    ensures Last(r).procs == s.procs[..p] + s.procs[p + 1..]
  {
    r := LoopRun(s, p, 0, fn, ctx, dbs);
    r := OneMore(r, Finish(p, dbMark), JobEnds(s, p, fn, ctx, dbs, dbMark));
  }

  lemma {:induction false} CountedKeeps(t: Table, id: MsgId, dbs: nat -> Db, n: nat)
    ensures var t' := Counted(t, id, dbs, 0, n);
            && t'.Keys == t.Keys && (forall m <- t | m != id :: t'[m] == t[m])
            && (id in t ==> t'[id] == t[id].(attempts := t'[id].attempts))
  {
    if n > 0 {
      CountedKeeps(t, id, dbs, n - 1);
    }
  }

  /** What runJob leaves of the row, by how its loop ends: a mark with or without an error
      text, or no mark after a context error; attempts apart, nothing else changes. */
  lemma JobMarks(t: Table, id: MsgId, fn: nat -> Outcome, ctx: nat -> Option<Err>, dbs: nat -> Db, dbMark: Db)
    requires id in t && dbMark != Refused
    ensures var t', result := JobTable(t, id, fn, ctx, dbs, dbMark), RetrySpec(fn, ctx).result;
      && t'.Keys == t.Keys && (forall m <- t | m != id :: t'[m] == t[m])
      && (result == Nil ==> t'[id] == t[id].(attempts := t'[id].attempts, status := Done, lastError := None))
      && (result.Failure? && IsContextError(result.err) ==> t'[id] == t[id].(attempts := t'[id].attempts))
      && (result.Failure? && !IsContextError(result.err) ==>
            var why := if Text(result.err) == "" then None else Some(Reported(Text(result.err)));
            t'[id] == t[id].(attempts := t'[id].attempts, status := Failed, lastError := why))
  {
    CountedKeeps(t, id, dbs, RetrySpec(fn, ctx).calls);
  }

  // ---- from gateway answers to the row ----

  lemma {:induction false} CountedRow(t: Table, id: MsgId, dbs: nat -> Db, n: nat)
    requires id in t && t[id].attempts + n <= MAX_SMALLINT
    requires forall j | 0 <= j < n :: dbs(j) != Refused
    ensures Counted(t, id, dbs, 0, n) == t[id := t[id].(attempts := t[id].attempts + n)]
  {
    if n > 0 {
      CountedRow(t, id, dbs, n - 1);
    } else {
      assert t[id := t[id]] == t;
    }
  }

  function StatusAfter(fate: Fate, before: Status): Status {
    match fate
    case MarkedDone => Done
    case MarkedFailed => Failed
    case LeftUnmarked => before
  }

  /** The gateway's answers decide what a job leaves in the table: with answer k the last,
      its row has k more attempts and the status that answer calls for; no other row changes. */
  lemma AnswersDecideTheTable(answers: nat -> Exchange, ctx: nat -> Option<Err>, k: nat,
                              t: Table, id: MsgId, dbs: nat -> Db, dbMark: Db)
    requires forall i: nat :: ctx(i).Some? ==> IsContextError(ctx(i).value)
    requires Decides(answers, ctx, k)
    requires id in t && t[id].attempts + k <= MAX_SMALLINT
    requires (forall j | 0 <= j < k :: dbs(j) != Refused) && dbMark != Refused
    ensures var t' := JobTable(t, id, Attempts(answers), ctx, dbs, dbMark);
            && t'.Keys == t.Keys && (forall m <- t | m != id :: t'[m] == t[m])
            && t'[id].attempts == t[id].attempts + k
            && t'[id].status == StatusAfter(FateAfter(answers(k - 1), k), t[id].status)
  {
    AnswersDecideTheRow(answers, ctx, FateAfter(answers(k - 1), k), k);
    CountedRow(t, id, dbs, k);
  }
}
