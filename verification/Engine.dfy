/** The delivery engine as a step machine: every database statement and every
    channel operation of every goroutine is one step, and steps interleave freely. */
module Engine {
  import opened Wrappers
  import opened Errors
  import opened Messages

  const RETRIES: nat := 3   // len(retryBackoff)

  /** Where a goroutine that holds a job stands. */
  datatype Pc =
    | Intake               // enqueue: row inserted, channel send next
    | Rejecting            // enqueue: channel was full, MarkStatus "failed" next
    | Requeued             // handleAdminRetry: row pending again, channel send next
    | Counting(i: nat)     // runJob: IncrementAttempts for attempt i next
    | Calling(i: nat)      // attempt i is running
    | Waiting(i: nat)      // attempt i failed, its backoff is running
    | Returned(result: Outcome)  // the retry loop ended, MarkStatus next

  datatype Proc = Proc(job: Job, pc: Pc)

  /** Why a pending row may have nobody working on it. */
  datatype Cause =
    | Crashed | RecoverySkipped | RecoveryLimit | RecoveryFailed
    | ContextReturn | MarkLost | AdminRefused | WebRetried | ReplyLost

  datatype Event =
    | Inserted(msg: MsgId)
    | ReplyQueued(msg: MsgId)    // the webhook caller was told "queued"
    | ReplyDuplicate(key: Key)
    | Dequeued(msg: MsgId)
    | Succeeded(msg: MsgId)      // a processing run of the message returned nil
    | Retried(msg: MsgId)        // an operator set the row back to pending
    | AdminPushed(msg: MsgId)    // ... and its job was sent to the channel
    | Swept                      // the janitor's statement was carried out
    | Booted                     // a process lifetime begins

  datatype State = State(
    limit: nat,                  // BufferLimit
    up: bool,
    clock: nat,                  // the database clock, in seconds
    sweptAt: nat,                // clock of the last sweep
    table: Table,
    inbox: seq<Job>,
    outbox: seq<Job>,
    procs: seq<Proc>,
    causes: map<MsgId, Cause>,   // why a message was last left without a handle; erased when it gets one
    log: seq<Event>)

  datatype Action =
    | Receive(id: MsgId, key: Key, payload: string, db: Db)
    | IntakeSend(p: nat)
    | IntakeReject(p: nat, db: Db)
    | Dequeue(dir: Direction)
    | Count(p: nat, db: Db)
    | Return(p: nat, result: Outcome)
    | Resume(p: nat)
    | Cancel(p: nat, err: Err)
    | Finish(p: nat, db: Db)
    | SweepStale(db: Db)
    | AdminRetry(id: MsgId, db: Db)
    | AdminSend(p: nat)
    | WebRetry(id: MsgId, db: Db)
    | Tick(seconds: nat)
    | Crash
    | Boot(ids: seq<MsgId>, db: Db)

  /** NewServer: a missing or non-positive buffer limit becomes 1000. */
  function EffectiveLimit(configured: int): nat {
    if configured <= 0 then 1000 else configured
  }

  function Init(configured: int): State {
    State(EffectiveLimit(configured), false, 0, 0, map[], [], [], [], map[], [])
  }

  // ---- channels and goroutines ----

  function Queue(s: State, dir: Direction): seq<Job> {
    if dir == Out then s.outbox else s.inbox
  }

  function WithQueue(s: State, dir: Direction, q: seq<Job>): State {
    if dir == Out then s.(outbox := q) else s.(inbox := q)
  }

  predicate HasRoom(s: State, dir: Direction) {
    |Queue(s, dir)| < s.limit
  }

  function Push(s: State, job: Job): State {
    WithQueue(s, job.dir, Queue(s, job.dir) + [job])
  }

  function Exit(s: State, p: nat): State
    requires p < |s.procs|
  {
    s.(procs := s.procs[..p] + s.procs[p + 1..])
  }

  function Goto(s: State, p: nat, pc: Pc): State
    requires p < |s.procs|
  {
    s.(procs := s.procs[p := s.procs[p].(pc := pc)])
  }

  function Spawn(s: State, job: Job, pc: Pc): State {
    s.(procs := s.procs + [Proc(job, pc)])
  }

  function Note(s: State, e: Event): State {
    s.(log := s.log + [e])
  }

  function Blame(s: State, id: MsgId, cause: Cause): State {
    s.(causes := s.causes[id := cause])
  }

  function Absolve(s: State, id: MsgId): State {
    s.(causes := s.causes - {id})
  }

  predicate At(s: State, p: nat) {
    s.up && p < |s.procs|
  }

  // ---- steps ----

  ghost predicate Enabled(s: State, a: Action) {
    match a
    case Receive(id, key, _, _) => s.up && (HasKey(s.table, key) || id !in s.table)
    case IntakeSend(p) => At(s, p) && s.procs[p].pc.Intake?
    case IntakeReject(p, _) => At(s, p) && s.procs[p].pc.Rejecting?
    case Dequeue(dir) => s.up && Queue(s, dir) != []
    case Count(p, _) => At(s, p) && s.procs[p].pc.Counting?
    case Return(p, _) => At(s, p) && s.procs[p].pc.Calling?
    case Resume(p) => At(s, p) && s.procs[p].pc.Waiting?
    case Cancel(p, err) => At(s, p) && s.procs[p].pc.Waiting? && IsContextError(err)
    case Finish(p, _) => At(s, p) && s.procs[p].pc.Returned?
    case SweepStale(_) => s.up
    case AdminRetry(_, _) => s.up
    case AdminSend(p) => At(s, p) && s.procs[p].pc.Requeued?
    case WebRetry(_, _) => s.up
    case Tick(_) => true
    case Crash => s.up
    case Boot(ids, db) => !s.up && IsNextPending(s.table, 2 * s.limit, ids)
  }

  /** enqueue, up to and including InsertMessage. */
  function ReceiveStep(s: State, id: MsgId, key: Key, payload: string, db: Db): State {
    if db == Refused then s
    else if HasKey(s.table, key) then if db == Applied then Note(s, ReplyDuplicate(key)) else s
    else
      var s1 := Note(s.(table := s.table[id := NewRow(key, payload, s.clock)]), Inserted(id));
      if db == Applied then Absolve(Spawn(s1, Job(id, key.tenant, key.dir, payload), Intake), id)
      else Blame(s1, id, ReplyLost)
  }

  /** enqueue: the non-blocking channel send. */
  function IntakeSendStep(s: State, p: nat): State
    requires At(s, p)
  {
    var job := s.procs[p].job;
    if HasRoom(s, job.dir) then Note(Push(Exit(s, p), job), ReplyQueued(job.msg)) else Goto(s, p, Rejecting)
  }

  /** enqueue: MarkStatus(id, "failed", "queue full"), whose error is ignored. */
  function IntakeRejectStep(s: State, p: nat, db: Db): State
    requires At(s, p)
  {
    var id := s.procs[p].job.msg;
    var s1 := Exit(s, p);
    if db == Refused then Blame(s1, id, MarkLost)
    else s1.(table := Mark(s.table, id, Failed, Some(QueueFull)))
  }

  function DequeueStep(s: State, dir: Direction): State
    requires Queue(s, dir) != []
  {
    var job := Queue(s, dir)[0];
    Note(Spawn(WithQueue(s, dir, Queue(s, dir)[1..]), job, Counting(0)), Dequeued(job.msg))
  }

  /** runJob's closure: IncrementAttempts, whose error is ignored. */
  function CountStep(s: State, p: nat, db: Db): State
    requires At(s, p) && s.procs[p].pc.Counting?
  {
    var s1 := Goto(s, p, Calling(s.procs[p].pc.i));
    if db == Refused then s1 else s1.(table := Bump(s.table, s.procs[p].job.msg))
  }

  /** runRetryLoop: what follows the return of attempt i. */
  function AfterAttempt(i: nat, result: Outcome): Pc {
    if result == Nil || !IsRetriable(result.err) || i >= RETRIES then Returned(result) else Waiting(i)
  }

  function ReturnStep(s: State, p: nat, result: Outcome): State
    requires At(s, p) && s.procs[p].pc.Calling?
  {
    var s1 := Goto(s, p, AfterAttempt(s.procs[p].pc.i, result));
    if result == Nil then Note(s1, Succeeded(s.procs[p].job.msg)) else s1
  }

  /** runJob: what the end of the retry loop means for the row. */
  function Settled(t: Table, id: MsgId, result: Outcome, db: Db): Table {
    if db == Refused || (result.Failure? && IsContextError(result.err)) then t
    else match result
      case Nil => Mark(t, id, Done, None)
      case Failure(err) => Mark(t, id, Failed, ReportedReason(Text(err)))
  }

  /** runJob: what follows the retry loop. */
  function FinishStep(s: State, p: nat, db: Db): State
    requires At(s, p) && s.procs[p].pc.Returned?
  {
    var id := s.procs[p].job.msg;
    var result := s.procs[p].pc.result;
    var s1 := Exit(s, p).(table := Settled(s.table, id, result, db));
    if result.Failure? && IsContextError(result.err) then Blame(s1, id, ContextReturn)
    else if db == Refused then Blame(s1, id, MarkLost)
    else s1
  }

  function SweepStep(s: State, db: Db): State {
    if db == Refused then s
    else Note(s.(table := Sweep(s.table, s.clock), sweptAt := s.clock), Swept)
  }

  /** handleAdminRetry, up to and including RequeueMessage. */
  function AdminRetryStep(s: State, id: MsgId, db: Db): State {
    if db == Refused || !CanRequeue(s.table, id) then s
    else
      var s1 := Note(s.(table := Requeue(s.table, id)), Retried(id));
      if db == Applied then Absolve(Spawn(s1, JobOf(s.table, id), Requeued), id)
      else Blame(s1, id, ReplyLost)
  }

  /** requeueJob: the non-blocking channel send. */
  function AdminSendStep(s: State, p: nat): State
    requires At(s, p)
  {
    var job := s.procs[p].job;
    if HasRoom(s, job.dir) then Note(Push(Exit(s, p), job), AdminPushed(job.msg))
    else Blame(Exit(s, p), job.msg, AdminRefused)
  }

  /** handleDLQRetry: the row becomes pending and no channel is touched. */
  function WebRetryStep(s: State, id: MsgId, db: Db): State {
    if db == Refused || !CanRequeue(s.table, id) then s
    else Blame(Note(s.(table := Requeue(s.table, id)), Retried(id)), id, WebRetried)
  }

  /** The channels and goroutines are lost, the table stays. */
  function CrashStep(s: State): State {
    s.(up := false, inbox := [], outbox := [], procs := [],
       causes := map id | id in s.table && IsPending(s.table, id) :: Crashed)
  }

  function BootCause(s: State, ids: seq<MsgId>, id: MsgId): Cause {
    if id in ids then RecoverySkipped else RecoveryLimit
  }

  /** RecoverPending with an empty answer: its failure is only logged and the process serves on. */
  function UnrecoveredStep(s: State): State {
    Note(s.(up := true, causes := map id | id in s.table && IsPending(s.table, id) :: RecoveryFailed), Booted)
  }

  /** RecoverPending, which ends before the workers, the janitor and the HTTP server start. */
  function RecoveredStep(s: State, ids: seq<MsgId>): State
    requires forall id <- ids :: id in s.table
  {
    var ins := Recovered(s.table, ids, In, s.limit);
    var outs := Recovered(s.table, ids, Out, s.limit);
    OfDirectionMembers(s.table, ids, In);
    OfDirectionMembers(s.table, ids, Out);
    Note(s.(up := true,
            inbox := JobsOf(s.table, ins), outbox := JobsOf(s.table, outs),
            causes := map id | id in s.table && IsPending(s.table, id) && id !in ins && id !in outs
                        :: BootCause(s, ids, id)),
         Booted)
  }

  function BootStep(s: State, ids: seq<MsgId>, db: Db): State
    requires forall id <- ids :: id in s.table
  {
    if db == Applied then RecoveredStep(s, ids) else UnrecoveredStep(s)
  }

  ghost function Apply(s: State, a: Action): State
    requires Enabled(s, a)
  {
    match a
    case Receive(id, key, payload, db) => ReceiveStep(s, id, key, payload, db)
    case IntakeSend(p) => IntakeSendStep(s, p)
    case IntakeReject(p, db) => IntakeRejectStep(s, p, db)
    case Dequeue(dir) => DequeueStep(s, dir)
    case Count(p, db) => CountStep(s, p, db)
    case Return(p, result) => ReturnStep(s, p, result)
    case Resume(p) => Goto(s, p, Counting(s.procs[p].pc.i + 1))
    case Cancel(p, err) => Goto(s, p, Returned(Failure(err)))
    case Finish(p, db) => FinishStep(s, p, db)
    case SweepStale(db) => SweepStep(s, db)
    case AdminRetry(id, db) => AdminRetryStep(s, id, db)
    case AdminSend(p) => AdminSendStep(s, p)
    case WebRetry(id, db) => WebRetryStep(s, id, db)
    case Tick(seconds) => s.(clock := s.clock + seconds)
    case Crash => CrashStep(s)
    case Boot(ids, db) => BootStep(s, ids, db)
  }

  // ---- runs ----

  ghost predicate Step(s: State, a: Action, s': State) {
    Enabled(s, a) && s' == Apply(s, a)
  }

  /** States and the steps between them. */
  datatype Run = Run(states: seq<State>, steps: seq<Action>)

  ghost predicate Linked(r: Run) {
    && |r.states| == |r.steps| + 1
    && forall k {:trigger r.steps[k]} | 0 <= k < |r.steps| :: Step(r.states[k], r.steps[k], r.states[k + 1])
  }

  /** A run of the bridge from an empty database, through any number of process lifetimes. */
  ghost predicate IsRun(r: Run, configured: int) {
    Linked(r) && r.states[0] == Init(configured)
  }

  function Last(r: Run): State
    requires |r.states| > 0
  {
    r.states[|r.states| - 1]
  }

  function Extend(r: Run, a: Action, s: State): Run {
    Run(r.states + [s], r.steps + [a])
  }

  /** One more step. */
  lemma ExtendLinked(r: Run, a: Action, s: State)
    requires Linked(r) && Step(Last(r), a, s)
    ensures Linked(Extend(r, a, s)) && Last(Extend(r, a, s)) == s
  {
  }
}
