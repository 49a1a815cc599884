/** What every reachable state of the engine satisfies: queue bounds, jobs that
    mirror their rows, and one row for each (tenant, direction, external id). */
module EngineInvariants {
  import opened Wrappers
  import opened Errors
  import opened Messages
  import opened Engine

  /** At most four attempts, and a backoff only after the first three. */
  predicate PcInRange(pc: Pc) {
    match pc
    case Counting(i) => i <= RETRIES
    case Calling(i) => i <= RETRIES
    case Waiting(i) => i < RETRIES
    case _ => true
  }

  ghost predicate QueueInv(t: Table, q: seq<Job>, dir: Direction) {
    forall job <- q :: Matches(t, job) && job.dir == dir
  }

  ghost predicate KeysUnique(t: Table) {
    forall a <- t, b <- t | t[a].key == t[b].key :: a == b
  }

  /** What an event says about the log before it and the table after it. */
  ghost predicate EventInv(t: Table, log: seq<Event>, k: nat)
    requires k < |log|
  {
    match log[k]
    case Inserted(id) => id in t
    case ReplyQueued(id) => id in t
    case Succeeded(id) => exists i | 0 <= i < k :: log[i] == Inserted(id)
    case _ => true
  }

  ghost predicate Inv(s: State) {
    && s.limit > 0
    && |s.inbox| <= s.limit && |s.outbox| <= s.limit
    && QueueInv(s.table, s.inbox, In) && QueueInv(s.table, s.outbox, Out)
    && (forall proc <- s.procs :: Matches(s.table, proc.job) && PcInRange(proc.pc))
    && (!s.up ==> s.inbox == [] && s.outbox == [] && s.procs == [])
    && KeysUnique(s.table)
    && (forall id <- s.table :: s.table[id].created <= s.clock && Inserted(id) in s.log)
    && s.sweptAt <= s.clock
    && (forall k | 0 <= k < |s.log| :: EventInv(s.table, s.log, k))
  }

  lemma InitInv(configured: int)
    ensures Inv(Init(configured))
  {
  }

  /** What the three outcomes of a finished job run do to the table. */
  lemma FinishTable(s: State, p: nat, db: Db)
    requires Enabled(s, Finish(p, db))
    ensures var t' := FinishStep(s, p, db).table;
            SameMessages(s.table, t') && t'.Keys == s.table.Keys
  {
    var id := s.procs[p].job.msg;
    match s.procs[p].pc.result
    case Nil => MarkKeeps(s.table, id, Done, None);
    case Failure(err) => MarkKeeps(s.table, id, Failed, ReportedReason(Text(err)));
  }

  lemma ReceiveKeepsMessages(s: State, id: MsgId, key: Key, payload: string, db: Db)
    requires Enabled(s, Receive(id, key, payload, db))
    ensures SameMessages(s.table, ReceiveStep(s, id, key, payload, db).table)
  {
  }

  lemma ChannelStepKeepsTable(s: State, a: Action)
    requires Enabled(s, a) && (a.IntakeSend? || a.AdminSend? || a.Dequeue?)
    ensures Apply(s, a).table == s.table
  {
  }

  lemma LoopStepKeepsTable(s: State, a: Action)
    requires Enabled(s, a) && (a.Return? || a.Resume? || a.Cancel?)
    ensures Apply(s, a).table == s.table
  {
  }

  lemma ProcessStepKeepsTable(s: State, a: Action)
    requires Enabled(s, a) && (a.Tick? || a.Crash? || a.Boot?)
    ensures Apply(s, a).table == s.table
  {
  }

  /** The steps that leave the table alone. */
  lemma TableStays(s: State, a: Action)
    requires Enabled(s, a) && !a.Receive? && !a.IntakeReject? && !a.Count? && !a.Finish?
    requires !a.SweepStale? && !a.AdminRetry? && !a.WebRetry?
    ensures Apply(s, a).table == s.table
  {
    if a.IntakeSend? || a.AdminSend? || a.Dequeue? {
      ChannelStepKeepsTable(s, a);
    } else if a.Return? || a.Resume? || a.Cancel? {
      LoopStepKeepsTable(s, a);
    } else {
      ProcessStepKeepsTable(s, a);
    }
  }

  lemma WorkerKeepsMessages(s: State, a: Action)
    requires Enabled(s, a) && (a.IntakeReject? || a.Count? || a.Finish?)
    ensures SameMessages(s.table, Apply(s, a).table)
  {
    match a
    case IntakeReject(p, _) => MarkKeeps(s.table, s.procs[p].job.msg, Failed, Some(QueueFull));
    case Count(p, _) => BumpKeeps(s.table, s.procs[p].job.msg);
    case Finish(p, db) => FinishTable(s, p, db);
  }

  lemma OperatorKeepsMessages(s: State, a: Action)
    requires Enabled(s, a) && (a.SweepStale? || a.AdminRetry? || a.WebRetry?)
    ensures SameMessages(s.table, Apply(s, a).table)
  {
    match a
    case SweepStale(_) => SweepKeeps(s.table, s.clock);
    case AdminRetry(id, _) => RequeueKeeps(s.table, id);
    case WebRetry(id, _) => RequeueKeeps(s.table, id);
  }

  /** No statement deletes a row or rewrites what identifies a message. */
  lemma StepKeepsMessages(s: State, a: Action)
    requires Enabled(s, a)
    ensures SameMessages(s.table, Apply(s, a).table)
  {
    match a
    case Receive(id, key, payload, db) => ReceiveKeepsMessages(s, id, key, payload, db);
    case IntakeReject(_, _) | Count(_, _) | Finish(_, _) => WorkerKeepsMessages(s, a);
    case SweepStale(_) | AdminRetry(_, _) | WebRetry(_, _) => OperatorKeepsMessages(s, a);
    case _ => TableStays(s, a);
  }

  // ---- the invariant under the pieces every step is made of ----

  lemma ExitInv(s: State, p: nat)
    requires Inv(s) && At(s, p)
    ensures Inv(Exit(s, p))
  {
  }

  lemma GotoInv(s: State, p: nat, pc: Pc)
    requires Inv(s) && At(s, p) && PcInRange(pc)
    ensures Inv(Goto(s, p, pc))
  {
  }

  lemma SpawnInv(s: State, job: Job, pc: Pc)
    requires Inv(s) && s.up && Matches(s.table, job) && PcInRange(pc)
    ensures Inv(Spawn(s, job, pc))
  {
  }

  lemma NoteInv(s: State, e: Event)
    requires Inv(s)
    requires match e
             case Inserted(id) => id in s.table
             case ReplyQueued(id) => id in s.table
             case Succeeded(id) => id in s.table
             case _ => true
    ensures Inv(Note(s, e))
  {
    var log := s.log + [e];
    forall k | 0 <= k < |log|
      ensures EventInv(s.table, log, k)
    {
      if k < |s.log| {
        assert EventInv(s.table, s.log, k);
        if log[k].Succeeded? {
          var i :| 0 <= i < k && s.log[i] == Inserted(log[k].msg);
          assert log[i] == Inserted(log[k].msg);
        }
      } else if e.Succeeded? {
        var i :| 0 <= i < |s.log| && s.log[i] == Inserted(e.msg);
        assert log[i] == Inserted(e.msg);
      }
    }
  }

  /** Changing status, attempts and error of rows, or who is blamed, or the clock. */
  lemma TableInv(s: State, s': State)
    requires Inv(s)
    requires s' == s.(table := s'.table, causes := s'.causes, clock := s'.clock, sweptAt := s'.sweptAt)
    requires SameMessages(s.table, s'.table) && s'.table.Keys == s.table.Keys
    requires s'.clock >= s.clock && s'.sweptAt <= s'.clock
    ensures Inv(s')
  {
    forall k | 0 <= k < |s.log|
      ensures EventInv(s'.table, s.log, k)
    {
      assert EventInv(s.table, s.log, k);
    }
  }

  // ---- the invariant under each step ----

  lemma ReceiveInv(s: State, id: MsgId, key: Key, payload: string, db: Db)
    requires Inv(s) && Enabled(s, Receive(id, key, payload, db))
    ensures Inv(ReceiveStep(s, id, key, payload, db))
  {
    if db != Refused && HasKey(s.table, key) {
      NoteInv(s, ReplyDuplicate(key));
    } else if db != Refused {
      var t := s.table[id := NewRow(key, payload, s.clock)];
      var s1 := Note(s.(table := t), Inserted(id));
      assert Inv(s1) by {
        forall k | 0 <= k < |s1.log|
          ensures EventInv(t, s1.log, k)
        {
          if k < |s.log| {
            assert EventInv(s.table, s.log, k);
            if s.log[k].Succeeded? {
              var i :| 0 <= i < k && s.log[i] == Inserted(s.log[k].msg);
              assert s1.log[i] == Inserted(s.log[k].msg);
            }
          }
        }
        assert s1.log[|s.log|] == Inserted(id);
      }
      SpawnInv(s1, Job(id, key.tenant, key.dir, payload), Intake);
    }
  }

  lemma SendInv(s: State, p: nat)
    requires Inv(s) && At(s, p)
    ensures HasRoom(s, s.procs[p].job.dir) ==> Inv(Push(Exit(s, p), s.procs[p].job))
  {
  }

  lemma DequeueInv(s: State, dir: Direction)
    requires Inv(s) && Enabled(s, Dequeue(dir))
    ensures Inv(DequeueStep(s, dir))
  {
    var q := Queue(s, dir);
    var s1 := WithQueue(s, dir, q[1..]);
    assert Inv(s1) by {
      assert forall job <- q[1..] :: job in q;
    }
    assert q[0] in q;
    SpawnInv(s1, q[0], Counting(0));
    NoteInv(Spawn(s1, q[0], Counting(0)), Dequeued(q[0].msg));
  }

  lemma FinishInv(s: State, p: nat, db: Db)
    requires Inv(s) && Enabled(s, Finish(p, db))
    ensures Inv(FinishStep(s, p, db))
  {
    ExitInv(s, p);
    FinishTable(s, p, db);
    TableInv(Exit(s, p), FinishStep(s, p, db));
  }

  lemma ReturnInv(s: State, p: nat, result: Outcome)
    requires Inv(s) && Enabled(s, Return(p, result))
    ensures Inv(ReturnStep(s, p, result))
  {
    assert s.procs[p] in s.procs;
    var pc := AfterAttempt(s.procs[p].pc.i, result);
    GotoInv(s, p, pc);
    if result == Nil {
      NoteInv(Goto(s, p, pc), Succeeded(s.procs[p].job.msg));
    }
  }

  /** The part both retries share: the row is pending again. */
  lemma RequeueInv(s: State, id: MsgId)
    requires Inv(s) && s.up && CanRequeue(s.table, id)
    ensures Inv(Note(s.(table := Requeue(s.table, id)), Retried(id)))
    ensures Matches(Requeue(s.table, id), JobOf(s.table, id))
  {
    RequeueKeeps(s.table, id);
    TableInv(s, s.(table := Requeue(s.table, id)));
    NoteInv(s.(table := Requeue(s.table, id)), Retried(id));
  }

  lemma AdminRetryInv(s: State, id: MsgId, db: Db)
    requires Inv(s) && s.up
    ensures Inv(AdminRetryStep(s, id, db))
  {
    if db != Refused && CanRequeue(s.table, id) {
      RequeueInv(s, id);
      SpawnInv(Note(s.(table := Requeue(s.table, id)), Retried(id)), JobOf(s.table, id), Requeued);
    }
  }

  lemma WebRetryInv(s: State, id: MsgId, db: Db)
    requires Inv(s) && s.up
    ensures Inv(WebRetryStep(s, id, db))
  {
    if db != Refused && CanRequeue(s.table, id) {
      RequeueInv(s, id);
    }
  }

  lemma RecoveredQueue(t: Table, ids: seq<MsgId>, dir: Direction, bound: nat)
    requires forall id <- ids :: id in t
    ensures var some := Recovered(t, ids, dir, bound);
            (forall id <- some :: id in t) && |some| <= bound && QueueInv(t, JobsOf(t, some), dir)
  {
    OfDirectionMembers(t, ids, dir);
    assert forall id <- Recovered(t, ids, dir, bound) :: id in OfDirection(t, ids, dir);
  }

  lemma BootInv(s: State, ids: seq<MsgId>, db: Db)
    requires Inv(s) && Enabled(s, Boot(ids, db))
    ensures Inv(BootStep(s, ids, db))
  {
    RecoveredQueue(s.table, ids, In, s.limit);
    RecoveredQueue(s.table, ids, Out, s.limit);
    if db == Applied {
      var s1 := s.(up := true, inbox := RecoveredStep(s, ids).inbox, outbox := RecoveredStep(s, ids).outbox);
      assert Inv(s1);
      TableInv(s1, s1.(causes := RecoveredStep(s, ids).causes));
      NoteInv(s1.(causes := RecoveredStep(s, ids).causes), Booted);
    } else {
      var s1 := s.(up := true, causes := UnrecoveredStep(s).causes);
      assert Inv(s1);
      NoteInv(s1, Booted);
    }
  }

  lemma IntakeInv(s: State, a: Action)
    requires Inv(s) && Enabled(s, a) && (a.IntakeSend? || a.IntakeReject?)
    ensures Inv(Apply(s, a))
  {
    var job := s.procs[a.p].job;
    assert s.procs[a.p] in s.procs;
    if a.IntakeReject? {
      ExitInv(s, a.p);
      MarkKeeps(s.table, job.msg, Failed, Some(QueueFull));
      TableInv(Exit(s, a.p), Apply(s, a));
    } else if HasRoom(s, job.dir) {
      SendInv(s, a.p);
      NoteInv(Push(Exit(s, a.p), job), ReplyQueued(job.msg));
    } else {
      GotoInv(s, a.p, Rejecting);
    }
  }

  lemma CountInv(s: State, p: nat, db: Db)
    requires Inv(s) && Enabled(s, Count(p, db))
    ensures Inv(CountStep(s, p, db))
  {
    assert s.procs[p] in s.procs;
    GotoInv(s, p, Calling(s.procs[p].pc.i));
    BumpKeeps(s.table, s.procs[p].job.msg);
    TableInv(Goto(s, p, Calling(s.procs[p].pc.i)), CountStep(s, p, db));
  }

  lemma SweepInv(s: State, db: Db)
    requires Inv(s)
    ensures Inv(SweepStep(s, db))
  {
    var s1 := s.(table := Sweep(s.table, s.clock), sweptAt := s.clock);
    SweepKeeps(s.table, s.clock);
    TableInv(s, s1);
    NoteInv(s1, Swept);
  }

  lemma AdminSendInv(s: State, p: nat)
    requires Inv(s) && Enabled(s, AdminSend(p))
    ensures Inv(AdminSendStep(s, p))
  {
    SendInv(s, p);
    ExitInv(s, p);
    if HasRoom(s, s.procs[p].job.dir) {
      NoteInv(Push(Exit(s, p), s.procs[p].job), AdminPushed(s.procs[p].job.msg));
    } else {
      TableInv(Exit(s, p), AdminSendStep(s, p));
    }
  }

  lemma WaitInv(s: State, a: Action)
    requires Inv(s) && Enabled(s, a) && (a.Resume? || a.Cancel?)
    ensures Inv(Apply(s, a))
  {
    assert s.procs[a.p] in s.procs;
    GotoInv(s, a.p, if a.Resume? then Counting(s.procs[a.p].pc.i + 1) else Returned(Failure(a.err)));
  }

  /** Every step keeps the structural invariant. */
  lemma InvStep(s: State, a: Action)
    requires Inv(s) && Enabled(s, a)
    ensures Inv(Apply(s, a))
  {
    match a
    case Receive(id, key, payload, db) => ReceiveInv(s, id, key, payload, db);
    case IntakeSend(_) => IntakeInv(s, a);
    case IntakeReject(_, _) => IntakeInv(s, a);
    case Dequeue(dir) => DequeueInv(s, dir);
    case Count(p, db) => CountInv(s, p, db);
    case Return(p, result) => ReturnInv(s, p, result);
    case Resume(_) => WaitInv(s, a);
    case Cancel(_, _) => WaitInv(s, a);
    case Finish(p, db) => FinishInv(s, p, db);
    case SweepStale(db) => SweepInv(s, db);
    case AdminRetry(id, db) => AdminRetryInv(s, id, db);
    case AdminSend(p) => AdminSendInv(s, p);
    case WebRetry(id, db) => WebRetryInv(s, id, db);
    case Tick(_) => TableInv(s, Apply(s, a));
    case Crash => TableInv(s.(up := false, inbox := [], outbox := [], procs := []), Apply(s, a));
    case Boot(ids, db) => BootInv(s, ids, db);
  }

  /** Every state of every run satisfies the structural invariant. */
  lemma {:induction false} Reachable(r: Run, configured: int, k: nat)
    requires IsRun(r, configured) && k <= |r.steps|
    ensures Inv(r.states[k])
  {
    if k == 0 {
      InitInv(configured);
    } else {
      Reachable(r, configured, k - 1);
      assert Step(r.states[k - 1], r.steps[k - 1], r.states[k]);
      InvStep(r.states[k - 1], r.steps[k - 1]);
    }
  }
}
