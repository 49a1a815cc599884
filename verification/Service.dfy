/** The bridge's handlers as they run: each is proved against the engine, whose steps
    it takes one after the other when nothing interleaves. */
module Service {
  import opened Wrappers
  import opened Errors
  import opened Messages
  import opened Engine
  import opened Retry
  import opened Store
  import opened HandlerRuns
  import opened Recovery

  /** What the caller of a handler is told. */
  datatype Reply = Queued | Duplicate | ChannelFull | DbError | NotFailed | Accepted

  function EnqueueReply(s: State, key: Key, db: Db): Reply {
    if db != Applied then DbError
    else if HasKey(s.table, key) then Duplicate
    else if HasRoom(s, key.dir) then Queued else ChannelFull
  }

  function AdminReply(s: State, id: MsgId, db: Db): Reply {
    if db != Applied then DbError
    else if !CanRequeue(s.table, id) then NotFailed
    else if HasRoom(s, s.table[id].key.dir) then Queued else ChannelFull
  }

  /** The webhook caller is told what the log has: "queued" or "duplicate", or neither. */
  lemma RepliesAreLogged(s: State, id: MsgId, key: Key, payload: string, dbInsert: Db, dbMark: Db)
    requires s.up && (HasKey(s.table, key) || id !in s.table)
    ensures var e := EnqueueEnd(s, id, key, payload, dbInsert, dbMark);
      var reply := EnqueueReply(s, key, dbInsert);
      && s.log <= e.log
      && (reply == Queued <==> ReplyQueued(id) in e.log[|s.log|..])
      && (reply == Duplicate <==> ReplyDuplicate(key) in e.log[|s.log|..])
  {
    var e := EnqueueEnd(s, id, key, payload, dbInsert, dbMark);
    var news := if dbInsert == Refused then []
                else if HasKey(s.table, key) then (if dbInsert == Applied then [ReplyDuplicate(key)] else [])
                else if dbInsert == Applied && HasRoom(s, key.dir) then [Inserted(id), ReplyQueued(id)]
                else [Inserted(id)];
    assert e.log == s.log + news;
  }

  // ---- recovery, one id at a time ----

  /** What one more id adds to what recovery has queued in a direction. */
  lemma RecoveredNext(t: Table, ids: seq<MsgId>, k: nat, dir: Direction, bound: nat)
    requires k < |ids| && forall id <- ids :: id in t
    ensures forall id <- ids[..k] :: id in t
    ensures var before, after := Recovered(t, ids[..k], dir, bound), Recovered(t, ids[..k + 1], dir, bound);
            (forall id <- before :: id in t) && (forall id <- after :: id in t)
            && |before| <= bound
            && JobsOf(t, after) == JobsOf(t, before)
                 + if t[ids[k]].key.dir == dir && |before| < bound then [JobOf(t, ids[k])] else []
  {
    assert ids[..k + 1][..k] == ids[..k];
    OfDirectionMembers(t, ids[..k], dir);
    OfDirectionMembers(t, ids[..k + 1], dir);
    var before, after := Recovered(t, ids[..k], dir, bound), Recovered(t, ids[..k + 1], dir, bound);
    if t[ids[k]].key.dir == dir && |before| < bound {
      assert after == before + [ids[k]];
    } else {
      assert after == before;
    }
  }

  /** The server's view of the database and its two channels. */
  class Server {
    const limit: nat
    const store: MessageStore
    const inbox: Channel
    const outbox: Channel

    ghost predicate Valid() {
      limit > 0 && inbox != outbox && inbox.capacity == limit && outbox.capacity == limit
    }

    /** The server's fields are those of the engine state. */
    ghost predicate Shows(s: State)
      reads store, inbox, outbox
    {
      && s.limit == limit && s.table == store.rows && s.clock == store.clock
      && s.inbox == inbox.items && s.outbox == outbox.items
    }

    /** NewServer. */
    constructor (configured: int, store: MessageStore)
      ensures Valid() && this.store == store
      ensures limit == if configured <= 0 then 1000 else configured
      ensures inbox.items == [] && outbox.items == []
      ensures fresh(inbox) && fresh(outbox)
    {
      var bound := EffectiveLimit(configured);
      this.limit := bound;
      this.store := store;
      this.inbox := new Channel(bound);
      this.outbox := new Channel(bound);
    }

    ghost function RecoveredJobs(ids: seq<MsgId>, dir: Direction): seq<Job>
      reads store
      requires forall id <- ids :: id in store.rows
    {
      OfDirectionMembers(store.rows, ids, dir);
      JobsOf(store.rows, Recovered(store.rows, ids, dir, limit))
    }

    /** The loop of RecoverPending: non-blocking sends, in order; a full channel skips the row. */
    method Refill(msgs: seq<MsgId>)
      requires Valid() && inbox.items == [] && outbox.items == []
      requires forall id <- msgs :: id in store.rows
      modifies inbox, outbox
      ensures inbox.items == RecoveredJobs(msgs, In) && outbox.items == RecoveredJobs(msgs, Out)
    {
      for k := 0 to |msgs|
        invariant forall id <- msgs[..k] :: id in store.rows
        invariant inbox.items == RecoveredJobs(msgs[..k], In)
        invariant outbox.items == RecoveredJobs(msgs[..k], Out)
      {
        RecoveredNext(store.rows, msgs, k, In, limit);
        RecoveredNext(store.rows, msgs, k, Out, limit);
        var ch := inbox;
        if store.rows[msgs[k]].key.dir == Out {
          ch := outbox;
        }
        var _ := ch.TrySend(JobOf(store.rows, msgs[k]));
      }
      assert msgs[..|msgs|] == msgs;
    }

    /** RecoverPending: afterwards the server is the engine after its boot step. */
    method RecoverPending(db: Db, ghost s: State) returns (failed: bool, ghost ids: seq<MsgId>)
      requires Valid() && Shows(s) && !s.up && s.inbox == [] && s.outbox == []
      modifies inbox, outbox
      ensures failed <==> db != Applied
      ensures Enabled(s, Boot(ids, db)) && Shows(BootStep(s, ids, db))
      ensures !failed ==> RecoversOldest(store.rows, inbox.items, outbox.items, limit)
      ensures failed ==> inbox.items == [] && outbox.items == []
    {
      var msgs := store.NextPending(2 * limit);
      ids := msgs;
      failed := db != Applied;
      if !failed {
        RecoveryQueuesOldest(store.rows, msgs, limit);
        Refill(msgs);
      }
    }

    /** runPool's receive: the worker has the oldest job of its channel, and starts counting. */
    method ReceiveJob(dir: Direction, ghost s: State) returns (job: Job)
      requires Valid() && Shows(s) && s.up && ChannelFor(dir).items != []
      modifies ChannelFor(dir)
      ensures Enabled(s, Dequeue(dir)) && Shows(DequeueStep(s, dir))
      ensures old(ChannelFor(dir).items) == [job] + ChannelFor(dir).items
      ensures DequeueStep(s, dir).procs == s.procs + [Proc(job, Counting(0))]
    {
      var ch := inbox;
      if dir == Out {
        ch := outbox;
      }
      job := ch.Receive();
    }

    /** The channel of a direction. */
    function ChannelFor(dir: Direction): Channel {
      if dir == Out then outbox else inbox
    }

    /** enqueue: insert, then a non-blocking send, then the mark if the channel was full. */
    method Enqueue(id: MsgId, key: Key, payload: string, dbInsert: Db, dbMark: Db, ghost s: State)
      returns (reply: Reply)
      requires Valid() && Shows(s) && s.up && (HasKey(store.rows, key) || id !in store.rows)
      modifies store, inbox, outbox
      ensures Shows(EnqueueEnd(s, id, key, payload, dbInsert, dbMark))
      ensures reply == EnqueueReply(s, key, dbInsert)
      ensures reply in {Queued, Duplicate, ChannelFull, DbError} && (reply == DbError <==> dbInsert != Applied)
      ensures reply == Queued ==>
                && (forall other <- old(store.rows) :: old(store.rows)[other].key != key)
                && id in store.rows && store.rows[id] == Row(key, payload, store.clock, Pending, 0, None)
                && ChannelFor(key.dir).items
                   == old(ChannelFor(key.dir).items) + [Job(id, key.tenant, key.dir, payload)]
      ensures reply == Duplicate ==>
                (exists other <- store.rows :: store.rows[other].key == key) && store.rows == old(store.rows)
      ensures reply == ChannelFull ==>
                && (forall other <- old(store.rows) :: old(store.rows)[other].key != key)
                && |old(ChannelFor(key.dir).items)| >= limit
                && id in store.rows && store.rows[id].key == key && store.rows[id].payload == payload
                && (if dbMark == Refused then store.rows[id].status == Pending
                    else store.rows[id].status == Failed && store.rows[id].lastError == Some(QueueFull))
      ensures reply != Queued ==> inbox.items == old(inbox.items) && outbox.items == old(outbox.items)
    {
      EnqueueOutcome(s, id, key, payload, dbInsert, dbMark);
      var created, failed := store.InsertMessage(id, key, payload, dbInsert);
      if failed {
        return DbError;
      }
      if !created {
        return Duplicate;
      }
      var ch := inbox;
      if key.dir == Out {
        ch := outbox;
      }
      var sent := ch.TrySend(Job(id, key.tenant, key.dir, payload));
      if sent {
        return Queued;
      }
      var _ := store.MarkStatus(id, Failed, Some(QueueFull), dbMark);
      return ChannelFull;
    }

    /** requeueJob. */
    method RequeueJob(job: Job) returns (sent: bool)
      requires Valid()
      modifies inbox, outbox
      ensures sent <==> |old(if job.dir == Out then outbox.items else inbox.items)| < limit
      ensures inbox.items == if sent && job.dir == In then old(inbox.items) + [job] else old(inbox.items)
      ensures outbox.items == if sent && job.dir == Out then old(outbox.items) + [job] else old(outbox.items)
    {
      var ch := inbox;
      if job.dir == Out {
        ch := outbox;
      }
      sent := ch.TrySend(job);
    }

    /** handleAdminRetry: the row is pending again before its job is sent, and stays so if the channel is full. */
    method HandleAdminRetry(id: MsgId, db: Db, ghost s: State) returns (reply: Reply)
      requires Valid() && Shows(s) && s.up
      modifies store, inbox, outbox
      ensures Shows(AdminRetryEnd(s, id, db))
      ensures reply == AdminReply(s, id, db)
      ensures reply in {Queued, NotFailed, ChannelFull, DbError} && (reply == DbError <==> db != Applied)
      ensures reply == NotFailed ==>
                (id in store.rows ==> store.rows[id].status != Failed) && store.rows == old(store.rows)
      ensures reply == Queued || reply == ChannelFull ==>
                && id in old(store.rows) && old(store.rows)[id].status == Failed
                && var row := old(store.rows)[id];
                   store.rows == old(store.rows)[id := row.(status := Pending, attempts := 0, lastError := None)]
      ensures reply == Queued ==>
                var row := old(store.rows)[id];
                ChannelFor(row.key.dir).items
                == old(ChannelFor(row.key.dir).items) + [Job(id, row.key.tenant, row.key.dir, row.payload)]
      ensures reply == ChannelFull ==>
                var dir := store.rows[id].key.dir;
                |old(ChannelFor(dir).items)| >= limit
      ensures reply != Queued ==> inbox.items == old(inbox.items) && outbox.items == old(outbox.items)
    {
      AdminRetryOutcome(s, id, db);
      var job, failed := store.RequeueMessage(id, db);
      if failed {
        return DbError;
      }
      if job.None? {
        return NotFailed;
      }
      var sent := RequeueJob(job.value);
      if !sent {
        return ChannelFull;
      }
      return Queued;
    }

    /** handleDLQRetry: the row is pending again and no channel is touched. */
    method HandleDLQRetry(id: MsgId, db: Db, ghost s: State) returns (reply: Reply)
      requires Valid() && Shows(s) && s.up
      modifies store
      ensures Shows(WebRetryStep(s, id, db))
      ensures reply in {Accepted, NotFailed, DbError} && (reply == DbError <==> db != Applied)
      ensures reply == NotFailed ==>
                (id in store.rows ==> store.rows[id].status != Failed) && store.rows == old(store.rows)
      ensures reply == Accepted ==>
                && id in old(store.rows) && old(store.rows)[id].status == Failed
                && var row := old(store.rows)[id];
                   store.rows == old(store.rows)[id := row.(status := Pending, attempts := 0, lastError := None)]
    {
      var job, failed := store.RequeueMessage(id, db);
      if failed {
        return DbError;
      }
      return if job.None? then NotFailed else Accepted;
    }

    /** One tick of RunStaleJanitor. */
    method Janitor(db: Db, ghost s: State) returns (changed: nat)
      requires Valid() && Shows(s) && s.up
      modifies store
      ensures Shows(SweepStep(s, db))
      ensures store.rows.Keys == old(store.rows).Keys
      ensures db != Refused ==> forall id <- old(store.rows) ::
                var row := old(store.rows)[id];
                store.rows[id] == if row.status == Pending && row.created + 3600 < store.clock
                                  then row.(status := Failed, lastError := Some(Stale)) else row
    {
      var failed;
      changed, failed := store.SweepStale(db);
    }
  }

  /** One run of a job: the closure runJob hands to the retry loop, with what it closes over. */
  class JobRunner {
    const store: MessageStore
    const job: Job
    const fn: nat -> Outcome   // what processInbound or processOutbound returns on attempt i
    const dbs: nat -> Db       // how the count of attempt i ends
    var calls: nat

    constructor (store: MessageStore, job: Job, fn: nat -> Outcome, dbs: nat -> Db)
      ensures this.store == store && this.job == job && this.fn == fn && this.dbs == dbs && calls == 0
    {
      this.store := store;
      this.job := job;
      this.fn := fn;
      this.dbs := dbs;
      calls := 0;
    }

    /** IncrementAttempts, whose error is ignored, then the processing function. */
    method Attempt() returns (result: Outcome)
      modifies this`calls, store`rows
      ensures calls == old(calls) + 1 && result == fn(old(calls))
      ensures store.rows == CountOne(old(store.rows), job.msg, dbs(old(calls)))
    {
      store.IncrementAttempts(job.msg, dbs(calls));
      result := fn(calls);
      calls := calls + 1;
    }

    /** runRetryLoop: `ctx(i)` is ctx.Err() if the context ends during backoff i, `waits` the jittered backoffs. */
    method RetryLoop(backoffs: seq<nat>, ctx: nat -> Option<Err>, waits: seq<nat>)
      returns (result: Outcome, waited: nat)
      requires calls == 0 && |waits| == |backoffs|
      modifies this`calls, store`rows
      ensures LoopEnd(result, calls) == RetryFrom(|backoffs|, 0, fn, ctx)
      ensures store.rows == Counted(old(store.rows), job.msg, dbs, 0, calls)
      ensures 1 <= calls <= |backoffs| + 1 && waited == Total(waits, calls - 1)
    {
      waited := 0;
      result := Nil;
      for i := 0 to |backoffs| + 1
        invariant calls == i
        invariant store.rows == Counted(old(store.rows), job.msg, dbs, 0, i)
        invariant waited == Total(waits, if i == 0 then 0 else i - 1)
        invariant i > 0 ==> Again(result) && result == fn(i - 1)
        invariant RetryFrom(|backoffs|, 0, fn, ctx) == RetryHead(|backoffs|, i, fn, ctx)
      {
        if i > 0 {
          if ctx(i - 1).Some? {
            return Failure(ctx(i - 1).value), waited;
          }
          waited := waited + waits[i - 1];
        }
        assert waited == Total(waits, i);
        RetryHeadNext(|backoffs|, i, fn, ctx);
        result := Attempt();
        if result == Nil || !IsRetriable(result.err) {
          return;
        }
      }
    }

    /** runJob: the row afterwards is the one the engine's job run leaves. */
    method RunJob(backoffs: seq<nat>, ctx: nat -> Option<Err>, waits: seq<nat>, dbMark: Db)
      requires calls == 0 && |backoffs| == RETRIES && |waits| == |backoffs|
      modifies this`calls, store`rows
      ensures store.rows == JobTable(old(store.rows), job.msg, fn, ctx, dbs, dbMark)
    {
      var result, waited := RetryLoop(backoffs, ctx, waits);
      if result == Nil {
        var _ := store.MarkStatus(job.msg, Done, None, dbMark);
        return;
      }
      if IsContextError(result.err) {
        return;
      }
      var _ := store.MarkStatus(job.msg, Failed, ReportedReason(Text(result.err)), dbMark);
    }
  }
}
