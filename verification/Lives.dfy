/** One message's share of the engine: what the table, the channels, the goroutines
    and the log say about it, and how each step of the engine moves that share. */
module Lives {
  import opened Wrappers
  import opened Errors
  import opened Messages
  import opened Engine
  import opened EngineInvariants
  import opened Loads

  // ---- goroutines holding a job of one message ----

  /** The attempts a goroutine at `pc` may still add to the attempts column. */
  function AttemptsLeft(pc: Pc): nat {
    match pc
    case Counting(i) => if i <= RETRIES then RETRIES + 1 - i else 0
    case Calling(i) => if i <= RETRIES then RETRIES - i else 0
    case Waiting(i) => if i <= RETRIES then RETRIES - i else 0
    case _ => 0
  }

  function LoadOf(pc: Pc): Load {
    match pc
    case Intake => Load(1, 0, 0, 0, 0, 0)
    case Rejecting => Load(0, 1, 0, 0, 0, 0)
    case Requeued => Load(0, 0, 1, 0, 0, 0)
    case _ => Load(0, 0, 0, 1, AttemptsLeft(pc), if pc == Returned(Nil) then 1 else 0)
  }

  function ProcLoad(proc: Proc, m: MsgId): Load {
    if proc.job.msg == m then LoadOf(proc.pc) else NOBODY
  }

  function Shares(procs: seq<Proc>, m: MsgId): seq<Load> {
    seq(|procs|, i requires 0 <= i < |procs| => ProcLoad(procs[i], m))
  }

  function LoadFor(procs: seq<Proc>, m: MsgId): Load {
    Sum(Shares(procs, m))
  }

  lemma LoadExit(s: State, p: nat, m: MsgId)
    requires At(s, p)
    ensures LoadFor(s.procs, m).Covers(ProcLoad(s.procs[p], m))
    ensures LoadFor(Exit(s, p).procs, m) == LoadFor(s.procs, m).Minus(ProcLoad(s.procs[p], m))
  {
    var shares := Shares(s.procs, m);
    assert Shares(Exit(s, p).procs, m) == shares[..p] + shares[p + 1..];
    SumRemove(shares, p);
  }

  lemma LoadGoto(s: State, p: nat, pc: Pc, m: MsgId)
    requires At(s, p)
    ensures LoadFor(s.procs, m).Covers(ProcLoad(s.procs[p], m))
    ensures LoadFor(Goto(s, p, pc).procs, m)
         == LoadFor(s.procs, m).Minus(ProcLoad(s.procs[p], m)).Plus(ProcLoad(s.procs[p].(pc := pc), m))
  {
    var shares := Shares(s.procs, m);
    assert Shares(Goto(s, p, pc).procs, m) == shares[p := ProcLoad(s.procs[p].(pc := pc), m)];
    SumUpdate(shares, p, ProcLoad(s.procs[p].(pc := pc), m));
  }

  lemma LoadSpawn(s: State, job: Job, pc: Pc, m: MsgId)
    ensures LoadFor(Spawn(s, job, pc).procs, m) == LoadFor(s.procs, m).Plus(ProcLoad(Proc(job, pc), m))
  {
    var shares := Shares(s.procs, m);
    assert Shares(Spawn(s, job, pc).procs, m) == shares + [ProcLoad(Proc(job, pc), m)];
    SumPush(shares, ProcLoad(Proc(job, pc), m));
  }

  // ---- queued jobs of one message ----

  function Ids(q: seq<Job>): seq<MsgId> {
    seq(|q|, i requires 0 <= i < |q| => q[i].msg)
  }

  ghost function QueuedFor(q: seq<Job>, m: MsgId): nat {
    multiset(Ids(q))[m]
  }

  lemma QueuedPush(q: seq<Job>, job: Job, m: MsgId)
    ensures QueuedFor(q + [job], m) == QueuedFor(q, m) + if job.msg == m then 1 else 0
  {
    assert Ids(q + [job]) == Ids(q) + [job.msg];
  }

  lemma QueuedPop(q: seq<Job>, m: MsgId)
    requires q != []
    ensures QueuedFor(q, m) == QueuedFor(q[1..], m) + if q[0].msg == m then 1 else 0
  {
    assert Ids(q) == [q[0].msg] + Ids(q[1..]);
  }

  lemma DistinctOnce(ids: seq<MsgId>, m: MsgId)
    requires forall i, j | 0 <= i < j < |ids| :: ids[i] != ids[j]
    ensures multiset(ids)[m] == if m in ids then 1 else 0
  {
    if m in ids {
      var i :| 0 <= i < |ids| && ids[i] == m;
      assert ids == ids[..i] + [m] + ids[i + 1..];
      assert m !in ids[..i] && m !in ids[i + 1..];
    }
  }

  // ---- what the log says about one message ----

  datatype Past = Past(
    inserted: nat,     // Inserted events
    replies: nat,      // "queued" replies
    dequeues: nat,     // jobs of the message a worker took
    taken: nat,        // those since the process booted
    wins: nat,         // processing runs that returned nil
    pushes: nat,       // admin retries whose job reached the channel since the process booted
    reopened: nat)     // operator retries since the janitor's last sweep
  {
    predicate Blank() {
      inserted <= 0 && replies <= 0 && dequeues <= 0 && taken <= 0 && wins <= 0
    }
  }

  function Record(past: Past, e: Event, m: MsgId): Past {
    match e
    case Inserted(id) => if id == m then past.(inserted := past.inserted + 1) else past
    case ReplyQueued(id) => if id == m then past.(replies := past.replies + 1) else past
    case Dequeued(id) =>
      if id == m then past.(dequeues := past.dequeues + 1, taken := past.taken + 1) else past
    case Succeeded(id) => if id == m then past.(wins := past.wins + 1) else past
    case AdminPushed(id) => if id == m then past.(pushes := past.pushes + 1) else past
    case Retried(id) => if id == m then past.(reopened := past.reopened + 1) else past
    case Swept => past.(reopened := 0)
    case Booted => past.(taken := 0, pushes := 0)
    case ReplyDuplicate(_) => past
  }

  /** What the first n events say. */
  function PastTo(log: seq<Event>, n: nat, m: MsgId): Past
    requires n <= |log|
  {
    if n == 0 then Past(0, 0, 0, 0, 0, 0, 0) else Record(PastTo(log, n - 1, m), log[n - 1], m)
  }

  function PastOf(log: seq<Event>, m: MsgId): Past {
    PastTo(log, |log|, m)
  }

  lemma {:induction false} PastAgrees(log: seq<Event>, log': seq<Event>, n: nat, m: MsgId)
    requires n <= |log| && n <= |log'|
    requires forall k | 0 <= k < n :: log[k] == log'[k]
    ensures PastTo(log, n, m) == PastTo(log', n, m)
  {
    if n > 0 {
      PastAgrees(log, log', n - 1, m);
    }
  }

  lemma LogGrows(log: seq<Event>, e: Event, m: MsgId)
    ensures PastOf(log + [e], m) == Record(PastOf(log, m), e, m)
  {
    PastAgrees(log + [e], log, |log|, m);
  }

  // ---- the share of one message ----

  datatype Life = Life(
    row: Option<Row>,
    queued: nat,
    load: Load,
    cause: Option<Cause>,
    past: Past,
    sweptAt: nat)
  {
    /** Everything that may still act on the message. */
    function Handles(): nat {
      queued + load.Holders()
    }

    predicate Unattended() {
      queued == 0 && load.Unheld()
    }

    /** Jobs queued or being processed. */
    function LiveJobs(): nat {
      queued + load.running
    }

    predicate HasStatus(status: Status) {
      row.Some? && row.value.status == status
    }
  }

  ghost function LifeOf(s: State, m: MsgId): Life {
    Life(
      if m in s.table then Some(s.table[m]) else None,
      QueuedFor(s.inbox, m) + QueuedFor(s.outbox, m),
      LoadFor(s.procs, m),
      if m in s.causes then Some(s.causes[m]) else None,
      PastOf(s.log, m), s.sweptAt)
  }

  /** What a step means to one message. */
  datatype Move =
    | Stay
    | Arrive(row: Row, acked: bool)          // inserted
    | Shift(from: Pc, to: Pc)                  // a goroutine of the message goes on
    | Send(from: Pc)                           // ... sends the job to its channel
    | GiveUp(from: Pc, cause: Cause)           // ... ends without marking the row
    | Settle(from: Pc, status: Status, why: Option<Reason>)   // ... ends and marks the row
    | Take                                     // a worker receives the job
    | Tally(i: nat, counted: bool)             // attempt i is counted
    | Answer(i: nat, result: Outcome)          // attempt i returns
    | Janitor(now: nat)
    | Reopen(acked: bool)                      // admin retry: pending again, a handler holds the job
    | WebReopen                                // web retry: pending again, nobody holds the job
    | Down
    | Restart(recovered: bool, cause: Cause)

  function Marked(row: Row, status: Status, why: Option<Reason>): Row {
    row.(status := status, lastError := why)
  }

  function Reopened(row: Row): Row {
    row.(status := Pending, attempts := 0, lastError := None)
  }

  predicate Arrives(v: Life, row: Row, acked: bool, v': Life) {
    && v.row == None && row.status == Pending && row.attempts == 0 && row.created >= v.sweptAt
    && var v1 := v.(row := Some(row), past := v.past.(inserted := v.past.inserted + 1));
       if acked then v' == v1.(load := v.load.Plus(LoadOf(Intake)), cause := None)
       else v' == v1.(cause := Some(ReplyLost))
  }

  /** The moves that only change where a goroutine stands. */
  predicate CanShift(from: Pc, to: Pc) {
    || (from == Intake && to == Rejecting)
    || (from.Waiting? && from.i < RETRIES && to == Counting(from.i + 1))
    || (from.Waiting? && to.Returned? && to != Returned(Nil))
  }

  predicate Shifts(v: Life, from: Pc, to: Pc, v': Life) {
    && v.row.Some? && CanShift(from, to) && v.load.Covers(LoadOf(from))
    && v' == Become(v, from, to)
  }

  predicate Sends(v: Life, from: Pc, v': Life) {
    && v.row.Some? && v.load.Covers(LoadOf(from)) && (from == Intake || from == Requeued)
    && v' == Leave(v, from).(
               queued := v.queued + 1,
               past := if from == Intake then v.past.(replies := v.past.replies + 1)
                       else v.past.(pushes := v.past.pushes + 1))
  }

  predicate GivesUp(v: Life, from: Pc, cause: Cause, v': Life) {
    && v.row.Some? && v.load.Covers(LoadOf(from)) && from != Intake
    && v' == Leave(v, from).(cause := Some(cause))
  }

  predicate Settles(v: Life, from: Pc, status: Status, why: Option<Reason>, v': Life) {
    && v.row.Some? && v.load.Covers(LoadOf(from)) && (from == Rejecting || from.Returned?)
    && status == (if from == Returned(Nil) then Done else Failed)
    && v' == Leave(v, from).(row := Some(Marked(v.row.value, status, why)))
  }

  predicate Takes(v: Life, v': Life) {
    && v.row.Some? && v.queued > 0
    && v' == v.(queued := v.queued - 1, load := v.load.Plus(LoadOf(Counting(0))),
                past := v.past.(dequeues := v.past.dequeues + 1, taken := v.past.taken + 1))
  }

  function Bumped(row: Row): Row {
    if row.attempts < MAX_SMALLINT then row.(attempts := row.attempts + 1) else row
  }

  predicate Tallies(v: Life, i: nat, counted: bool, v': Life) {
    && v.row.Some? && i <= RETRIES && v.load.Covers(LoadOf(Counting(i)))
    && v' == Become(v, Counting(i), Calling(i)).(row := if counted then Some(Bumped(v.row.value)) else v.row)
  }

  predicate Answers(v: Life, i: nat, result: Outcome, v': Life) {
    && v.row.Some? && i <= RETRIES && v.load.Covers(LoadOf(Calling(i)))
    && v' == Become(v, Calling(i), AfterAttempt(i, result)).(
               past := if result == Nil then v.past.(wins := v.past.wins + 1) else v.past)
  }

  predicate IsSwept(v: Life, now: nat, v': Life) {
    v' == v.(row := if v.row.Some? then Some(SweptRow(v.row.value, now)) else None,
             past := v.past.(reopened := 0), sweptAt := now)
  }

  predicate Reopens(v: Life, acked: bool, v': Life) {
    && v.HasStatus(Failed)
    && var v1 := v.(row := Some(Reopened(v.row.value)), past := v.past.(reopened := v.past.reopened + 1));
       if acked then v' == v1.(load := v.load.Plus(LoadOf(Requeued)), cause := None)
       else v' == v1.(cause := Some(ReplyLost))
  }

  predicate WebReopens(v: Life, v': Life) {
    && v.HasStatus(Failed)
    && v' == v.(row := Some(Reopened(v.row.value)), past := v.past.(reopened := v.past.reopened + 1),
                cause := Some(WebRetried))
  }

  predicate GoesDown(v: Life, v': Life) {
    && v'.load.Idle()
    && v' == v.(queued := 0, load := v'.load, cause := if v.HasStatus(Pending) then Some(Crashed) else None)
  }

  predicate Restarts(v: Life, recovered: bool, cause: Cause, v': Life) {
    && v.queued == 0 && v.load.Idle() && (recovered ==> v.HasStatus(Pending))
    && v' == v.(queued := if recovered then 1 else 0, past := v.past.(taken := 0, pushes := 0),
                cause := if v.HasStatus(Pending) && !recovered then Some(cause) else None)
  }

  function Leave(v: Life, from: Pc): Life
    requires v.load.Covers(LoadOf(from))
  {
    v.(load := v.load.Minus(LoadOf(from)))
  }

  function Become(v: Life, from: Pc, to: Pc): Life
    requires v.load.Covers(LoadOf(from))
  {
    v.(load := v.load.Minus(LoadOf(from)).Plus(LoadOf(to)))
  }

  /** `v` may make the move, and it leads to `v'`. */
  predicate Moves(v: Life, mv: Move, v': Life) {
    match mv
    case Stay => v' == v
    case Arrive(row, acked) => Arrives(v, row, acked, v')
    case Shift(from, to) => Shifts(v, from, to, v')
    case Send(from) => Sends(v, from, v')
    case GiveUp(from, cause) => GivesUp(v, from, cause, v')
    case Settle(from, status, why) => Settles(v, from, status, why, v')
    case Take => Takes(v, v')
    case Tally(i, counted) => Tallies(v, i, counted, v')
    case Answer(i, result) => Answers(v, i, result, v')
    case Janitor(now) => IsSwept(v, now, v')
    case Reopen(acked) => Reopens(v, acked, v')
    case WebReopen => WebReopens(v, v')
    case Down => GoesDown(v, v')
    case Restart(recovered, cause) => Restarts(v, recovered, cause, v')
  }

  // ---- the pieces steps are made of, seen from message m ----

  lemma ExitLife(s: State, p: nat, m: MsgId)
    requires At(s, p)
    ensures s.procs[p].job.msg == m ==>
              && LifeOf(s, m).load.Covers(LoadOf(s.procs[p].pc))
              && LifeOf(Exit(s, p), m) == Leave(LifeOf(s, m), s.procs[p].pc)
    ensures s.procs[p].job.msg != m ==> LifeOf(Exit(s, p), m) == LifeOf(s, m)
  {
    LoadExit(s, p, m);
  }

  lemma GotoLife(s: State, p: nat, pc: Pc, m: MsgId)
    requires At(s, p)
    ensures s.procs[p].job.msg == m ==>
              LifeOf(s, m).load.Covers(LoadOf(s.procs[p].pc))
              && LifeOf(Goto(s, p, pc), m) == Become(LifeOf(s, m), s.procs[p].pc, pc)
    ensures s.procs[p].job.msg != m ==> LifeOf(Goto(s, p, pc), m) == LifeOf(s, m)
  {
    LoadGoto(s, p, pc, m);
  }

  lemma SpawnLife(s: State, job: Job, pc: Pc, m: MsgId)
    ensures LifeOf(Spawn(s, job, pc), m)
         == if job.msg == m then LifeOf(s, m).(load := LifeOf(s, m).load.Plus(LoadOf(pc))) else LifeOf(s, m)
  {
    LoadSpawn(s, job, pc, m);
  }

  lemma PushLife(s: State, job: Job, m: MsgId)
    ensures LifeOf(Push(s, job), m)
         == if job.msg == m then LifeOf(s, m).(queued := LifeOf(s, m).queued + 1) else LifeOf(s, m)
  {
    QueuedPush(Queue(s, job.dir), job, m);
  }

  lemma PopLife(s: State, dir: Direction, m: MsgId)
    requires Queue(s, dir) != []
    ensures var s' := WithQueue(s, dir, Queue(s, dir)[1..]);
      if Queue(s, dir)[0].msg == m
      then LifeOf(s, m).queued > 0 && LifeOf(s', m) == LifeOf(s, m).(queued := LifeOf(s, m).queued - 1)
      else LifeOf(s', m) == LifeOf(s, m)
  {
    QueuedPop(Queue(s, dir), m);
  }

  lemma NoteLife(s: State, e: Event, m: MsgId)
    ensures LifeOf(Note(s, e), m) == LifeOf(s, m).(past := Record(LifeOf(s, m).past, e, m))
  {
    LogGrows(s.log, e, m);
  }

  lemma MarkLife(s: State, id: MsgId, status: Status, why: Option<Reason>, m: MsgId)
    requires id in s.table
    ensures LifeOf(s.(table := Mark(s.table, id, status, why)), m)
         == if id == m then LifeOf(s, m).(row := Some(Marked(s.table[m], status, why))) else LifeOf(s, m)
  {
  }

  lemma RequeueLife(s: State, id: MsgId, m: MsgId)
    requires CanRequeue(s.table, id)
    ensures LifeOf(s.(table := Requeue(s.table, id)), m)
         == if id == m then LifeOf(s, m).(row := Some(Reopened(s.table[m]))) else LifeOf(s, m)
  {
  }

  lemma BlameLife(s: State, id: MsgId, cause: Cause, m: MsgId)
    ensures LifeOf(Blame(s, id, cause), m)
         == if id == m then LifeOf(s, m).(cause := Some(cause)) else LifeOf(s, m)
  {
  }

  lemma AbsolveLife(s: State, id: MsgId, m: MsgId)
    ensures LifeOf(Absolve(s, id), m) == if id == m then LifeOf(s, m).(cause := None) else LifeOf(s, m)
  {
  }

  /** Leaving with the job for the channel. */
  lemma SentLife(s: State, p: nat, e: Event, m: MsgId)
    requires At(s, p)
    ensures var s' := Note(Push(Exit(s, p), s.procs[p].job), e);
      var v := LifeOf(s, m);
      if s.procs[p].job.msg == m
      then v.load.Covers(LoadOf(s.procs[p].pc))
        && LifeOf(s', m) == Leave(v, s.procs[p].pc).(queued := v.queued + 1, past := Record(v.past, e, m))
      else LifeOf(s', m) == v.(past := Record(v.past, e, m))
  {
    var job := s.procs[p].job;
    ExitLife(s, p, m);
    PushLife(Exit(s, p), job, m);
    NoteLife(Push(Exit(s, p), job), e, m);
  }

  // ---- each step of the engine, seen from message m ----

  ghost function ReceiveMove(s: State, id: MsgId, key: Key, payload: string, db: Db, m: MsgId): Move {
    if id != m || db == Refused || HasKey(s.table, key) then Stay
    else Arrive(NewRow(key, payload, s.clock), db == Applied)
  }

  lemma ReceiveLife(s: State, id: MsgId, key: Key, payload: string, db: Db, m: MsgId)
    requires (HasKey(s.table, key) || id !in s.table) && s.sweptAt <= s.clock
    ensures Moves(LifeOf(s, m), ReceiveMove(s, id, key, payload, db, m),
                  LifeOf(ReceiveStep(s, id, key, payload, db), m))
  {
    if HasKey(s.table, key) {
      NoteLife(s, ReplyDuplicate(key), m);
    } else if db != Refused {
      NewRowLife(s, id, key, payload, db, m);
    }
  }

  lemma NewRowLife(s: State, id: MsgId, key: Key, payload: string, db: Db, m: MsgId)
    requires !HasKey(s.table, key) && id !in s.table && s.sweptAt <= s.clock && db != Refused
    ensures Moves(LifeOf(s, m), ReceiveMove(s, id, key, payload, db, m),
                  LifeOf(ReceiveStep(s, id, key, payload, db), m))
  {
    var job := Job(id, key.tenant, key.dir, payload);
    var s0 := s.(table := s.table[id := NewRow(key, payload, s.clock)]);
    var s1 := Note(s0, Inserted(id));
    assert LifeOf(s0, m)
        == if id == m then LifeOf(s, m).(row := Some(NewRow(key, payload, s.clock))) else LifeOf(s, m);
    NoteLife(s0, Inserted(id), m);
    if db == Applied {
      SpawnLife(s1, job, Intake, m);
      AbsolveLife(Spawn(s1, job, Intake), id, m);
    } else {
      BlameLife(s1, id, ReplyLost, m);
    }
  }

  function IntakeSendMove(s: State, p: nat, m: MsgId): Move
    requires At(s, p)
  {
    if s.procs[p].job.msg != m then Stay
    else if HasRoom(s, s.procs[p].job.dir) then Send(Intake) else Shift(Intake, Rejecting)
  }

  lemma IntakeFullLife(s: State, p: nat, m: MsgId)
    requires At(s, p) && s.procs[p].pc.Intake? && s.procs[p].job.msg in s.table
    requires !HasRoom(s, s.procs[p].job.dir)
    ensures Moves(LifeOf(s, m), IntakeSendMove(s, p, m), LifeOf(Goto(s, p, Rejecting), m))
  {
    GotoLife(s, p, Rejecting, m);
  }

  lemma IntakeSendLife(s: State, p: nat, m: MsgId)
    requires At(s, p) && s.procs[p].pc.Intake? && s.procs[p].job.msg in s.table
    ensures Moves(LifeOf(s, m), IntakeSendMove(s, p, m), LifeOf(IntakeSendStep(s, p), m))
  {
    if HasRoom(s, s.procs[p].job.dir) {
      SentLife(s, p, ReplyQueued(s.procs[p].job.msg), m);
    } else {
      IntakeFullLife(s, p, m);
    }
  }

  function IntakeRejectMove(s: State, p: nat, db: Db, m: MsgId): Move
    requires At(s, p)
  {
    if s.procs[p].job.msg != m then Stay
    else if db == Refused then GiveUp(Rejecting, MarkLost) else Settle(Rejecting, Failed, Some(QueueFull))
  }

  lemma IntakeRejectLife(s: State, p: nat, db: Db, m: MsgId)
    requires At(s, p) && s.procs[p].pc.Rejecting? && s.procs[p].job.msg in s.table
    ensures Moves(LifeOf(s, m), IntakeRejectMove(s, p, db, m), LifeOf(IntakeRejectStep(s, p, db), m))
  {
    LoadExit(s, p, m);
  }

  function DequeueMove(s: State, dir: Direction, m: MsgId): Move
    requires Queue(s, dir) != []
  {
    if Queue(s, dir)[0].msg != m then Stay else Take
  }

  lemma DequeueLife(s: State, dir: Direction, m: MsgId)
    requires Queue(s, dir) != [] && Queue(s, dir)[0].msg in s.table
    ensures Moves(LifeOf(s, m), DequeueMove(s, dir, m), LifeOf(DequeueStep(s, dir), m))
  {
    var job := Queue(s, dir)[0];
    var s1 := WithQueue(s, dir, Queue(s, dir)[1..]);
    PopLife(s, dir, m);
    SpawnLife(s1, job, Counting(0), m);
    NoteLife(Spawn(s1, job, Counting(0)), Dequeued(job.msg), m);
  }

  function CountMove(s: State, p: nat, db: Db, m: MsgId): Move
    requires At(s, p) && s.procs[p].pc.Counting?
  {
    if s.procs[p].job.msg != m then Stay else Tally(s.procs[p].pc.i, db != Refused)
  }

  lemma CountLife(s: State, p: nat, db: Db, m: MsgId)
    requires At(s, p) && s.procs[p].pc.Counting? && PcInRange(s.procs[p].pc) && s.procs[p].job.msg in s.table
    ensures Moves(LifeOf(s, m), CountMove(s, p, db, m), LifeOf(CountStep(s, p, db), m))
  {
    GotoLife(s, p, Calling(s.procs[p].pc.i), m);
  }

  function ReturnMove(s: State, p: nat, result: Outcome, m: MsgId): Move
    requires At(s, p) && s.procs[p].pc.Calling?
  {
    if s.procs[p].job.msg != m then Stay else Answer(s.procs[p].pc.i, result)
  }

  lemma ReturnLife(s: State, p: nat, result: Outcome, m: MsgId)
    requires At(s, p) && s.procs[p].pc.Calling? && PcInRange(s.procs[p].pc) && s.procs[p].job.msg in s.table
    ensures Moves(LifeOf(s, m), ReturnMove(s, p, result, m), LifeOf(ReturnStep(s, p, result), m))
  {
    GotoLife(s, p, AfterAttempt(s.procs[p].pc.i, result), m);
    LogGrows(s.log, Succeeded(s.procs[p].job.msg), m);
  }

  function WaitMove(s: State, p: nat, to: Pc, m: MsgId): Move
    requires At(s, p)
  {
    if s.procs[p].job.msg != m then Stay else Shift(s.procs[p].pc, to)
  }

  lemma WaitLife(s: State, p: nat, to: Pc, m: MsgId)
    requires At(s, p) && s.procs[p].pc.Waiting? && PcInRange(s.procs[p].pc) && s.procs[p].job.msg in s.table
    requires to == Counting(s.procs[p].pc.i + 1) || (to.Returned? && to != Returned(Nil))
    ensures Moves(LifeOf(s, m), WaitMove(s, p, to, m), LifeOf(Goto(s, p, to), m))
  {
    GotoLife(s, p, to, m);
  }

  function FinishMove(s: State, p: nat, db: Db, m: MsgId): Move
    requires At(s, p) && s.procs[p].pc.Returned?
  {
    var pc := s.procs[p].pc;
    if s.procs[p].job.msg != m then Stay
    else match pc.result
      case Nil => if db == Refused then GiveUp(pc, MarkLost) else Settle(pc, Done, None)
      case Failure(err) =>
        if IsContextError(err) then GiveUp(pc, ContextReturn)
        else if db == Refused then GiveUp(pc, MarkLost)
        else Settle(pc, Failed, ReportedReason(Text(err)))
  }

  lemma FinishLife(s: State, p: nat, db: Db, m: MsgId)
    requires At(s, p) && s.procs[p].pc.Returned? && s.procs[p].job.msg in s.table
    ensures Moves(LifeOf(s, m), FinishMove(s, p, db, m), LifeOf(FinishStep(s, p, db), m))
  {
    var id := s.procs[p].job.msg;
    ExitLife(s, p, m);
    match s.procs[p].pc.result {
      case Nil =>
        if db == Refused {
          BlameLife(Exit(s, p), id, MarkLost, m);
        } else {
          MarkLife(Exit(s, p), id, Done, None, m);
        }
      case Failure(err) =>
        if IsContextError(err) {
          BlameLife(Exit(s, p), id, ContextReturn, m);
        } else if db == Refused {
          BlameLife(Exit(s, p), id, MarkLost, m);
        } else {
          MarkLife(Exit(s, p), id, Failed, ReportedReason(Text(err)), m);
        }
    }
  }

  function SweepMove(s: State, db: Db): Move {
    if db == Refused then Stay else Janitor(s.clock)
  }

  lemma SweepLife(s: State, db: Db, m: MsgId)
    ensures Moves(LifeOf(s, m), SweepMove(s, db), LifeOf(SweepStep(s, db), m))
  {
    LogGrows(s.log, Swept, m);
  }

  function AdminRetryMove(s: State, id: MsgId, db: Db, m: MsgId): Move {
    if id != m || db == Refused || !CanRequeue(s.table, id) then Stay else Reopen(db == Applied)
  }

  lemma AdminRetryLife(s: State, id: MsgId, db: Db, m: MsgId)
    ensures Moves(LifeOf(s, m), AdminRetryMove(s, id, db, m), LifeOf(AdminRetryStep(s, id, db), m))
  {
    if db != Refused && CanRequeue(s.table, id) {
      var s0 := s.(table := Requeue(s.table, id));
      RequeueLife(s, id, m);
      NoteLife(s0, Retried(id), m);
      if db == Applied {
        SpawnLife(Note(s0, Retried(id)), JobOf(s.table, id), Requeued, m);
      } else {
        BlameLife(Note(s0, Retried(id)), id, ReplyLost, m);
      }
    }
  }

  function AdminSendMove(s: State, p: nat, m: MsgId): Move
    requires At(s, p)
  {
    if s.procs[p].job.msg != m then Stay
    else if HasRoom(s, s.procs[p].job.dir) then Send(Requeued) else GiveUp(Requeued, AdminRefused)
  }

  lemma AdminRefusedLife(s: State, p: nat, m: MsgId)
    requires At(s, p) && s.procs[p].pc.Requeued? && s.procs[p].job.msg in s.table
    requires !HasRoom(s, s.procs[p].job.dir)
    ensures Moves(LifeOf(s, m), AdminSendMove(s, p, m), LifeOf(AdminSendStep(s, p), m))
  {
    ExitLife(s, p, m);
    BlameLife(Exit(s, p), s.procs[p].job.msg, AdminRefused, m);
  }

  lemma AdminPushedLife(s: State, p: nat, m: MsgId)
    requires At(s, p) && s.procs[p].pc.Requeued? && s.procs[p].job.msg in s.table
    requires HasRoom(s, s.procs[p].job.dir)
    ensures Moves(LifeOf(s, m), AdminSendMove(s, p, m), LifeOf(AdminSendStep(s, p), m))
  {
    SentLife(s, p, AdminPushed(s.procs[p].job.msg), m);
  }

  lemma AdminSendLife(s: State, p: nat, m: MsgId)
    requires At(s, p) && s.procs[p].pc.Requeued? && s.procs[p].job.msg in s.table
    ensures Moves(LifeOf(s, m), AdminSendMove(s, p, m), LifeOf(AdminSendStep(s, p), m))
  {
    if HasRoom(s, s.procs[p].job.dir) {
      AdminPushedLife(s, p, m);
    } else {
      AdminRefusedLife(s, p, m);
    }
  }

  function WebRetryMove(s: State, id: MsgId, db: Db, m: MsgId): Move {
    if id != m || db == Refused || !CanRequeue(s.table, id) then Stay else WebReopen
  }

  lemma WebRetryLife(s: State, id: MsgId, db: Db, m: MsgId)
    ensures Moves(LifeOf(s, m), WebRetryMove(s, id, db, m), LifeOf(WebRetryStep(s, id, db), m))
  {
    LogGrows(s.log, Retried(id), m);
  }

  lemma CrashLife(s: State, m: MsgId)
    ensures Moves(LifeOf(s, m), Down, LifeOf(CrashStep(s), m))
  {
  }

  /** Recovery queues m. */
  predicate IsRecovered(s: State, ids: seq<MsgId>, m: MsgId)
    requires forall id <- ids :: id in s.table
  {
    m in Recovered(s.table, ids, In, s.limit) || m in Recovered(s.table, ids, Out, s.limit)
  }

  function BootMove(s: State, ids: seq<MsgId>, db: Db, m: MsgId): Move
    requires forall id <- ids :: id in s.table
  {
    if db != Applied then Restart(false, RecoveryFailed)
    else Restart(IsRecovered(s, ids, m), BootCause(s, ids, m))
  }

  lemma RecoveredFacts(s: State, ids: seq<MsgId>, dir: Direction, m: MsgId)
    requires IsNextPending(s.table, 2 * s.limit, ids)
    ensures var some := Recovered(s.table, ids, dir, s.limit);
            && (forall id <- some :: IsPending(s.table, id) && s.table[id].key.dir == dir)
            && QueuedFor(JobsOf(s.table, some), m) == if m in some then 1 else 0
  {
    var all := OfDirection(s.table, ids, dir);
    OfDirectionMembers(s.table, ids, dir);
    OfDirectionDistinct(s.table, ids, dir);
    var some := AtMost(all, s.limit);
    assert Ids(JobsOf(s.table, some)) == some;
    DistinctOnce(some, m);
  }

  lemma NobodyHolds(m: MsgId)
    ensures LoadFor([], m).Idle() && QueuedFor([], m) <= 0
  {
    assert Shares([], m) == [] && Ids([]) == [];
  }

  lemma RecoveredQueued(s: State, ids: seq<MsgId>, m: MsgId)
    requires IsNextPending(s.table, 2 * s.limit, ids)
    ensures LifeOf(RecoveredStep(s, ids), m).queued == if IsRecovered(s, ids, m) then 1 else 0
    ensures IsRecovered(s, ids, m) ==> IsPending(s.table, m)
  {
    RecoveredFacts(s, ids, In, m);
    RecoveredFacts(s, ids, Out, m);
  }

  lemma RecoveredCause(s: State, ids: seq<MsgId>, m: MsgId)
    requires forall id <- ids :: id in s.table
    ensures LifeOf(RecoveredStep(s, ids), m).cause
         == if IsPending(s.table, m) && !IsRecovered(s, ids, m) then Some(BootCause(s, ids, m)) else None
  {
  }

  lemma UnrecoveredLife(s: State, m: MsgId)
    requires s.inbox == [] && s.outbox == [] && s.procs == []
    ensures Restarts(LifeOf(s, m), false, RecoveryFailed, LifeOf(UnrecoveredStep(s), m))
  {
    LogGrows(s.log, Booted, m);
  }

  lemma RecoveredLife(s: State, ids: seq<MsgId>, m: MsgId)
    requires IsNextPending(s.table, 2 * s.limit, ids)
    requires s.inbox == [] && s.outbox == [] && s.procs == []
    ensures Restarts(LifeOf(s, m), IsRecovered(s, ids, m), BootCause(s, ids, m), LifeOf(RecoveredStep(s, ids), m))
  {
    var v, v' := LifeOf(s, m), LifeOf(RecoveredStep(s, ids), m);
    NobodyHolds(m);
    RecoveredQueued(s, ids, m);
    RecoveredCause(s, ids, m);
    LogGrows(s.log, Booted, m);
    assert v'.row == v.row && v'.load == v.load && v'.past == v.past.(taken := 0, pushes := 0);
  }

  lemma BootLife(s: State, ids: seq<MsgId>, db: Db, m: MsgId)
    requires IsNextPending(s.table, 2 * s.limit, ids)
    requires s.inbox == [] && s.outbox == [] && s.procs == []
    ensures Moves(LifeOf(s, m), BootMove(s, ids, db, m), LifeOf(BootStep(s, ids, db), m))
  {
    if db == Applied {
      RecoveredLife(s, ids, m);
    } else {
      UnrecoveredLife(s, m);
    }
  }

  ghost function MoveOf(s: State, a: Action, m: MsgId): Move
    requires Enabled(s, a)
  {
    match a
    case Receive(id, key, payload, db) => ReceiveMove(s, id, key, payload, db, m)
    case IntakeSend(p) => IntakeSendMove(s, p, m)
    case IntakeReject(p, db) => IntakeRejectMove(s, p, db, m)
    case Dequeue(dir) => DequeueMove(s, dir, m)
    case Count(p, db) => CountMove(s, p, db, m)
    case Return(p, result) => ReturnMove(s, p, result, m)
    case Resume(p) => WaitMove(s, p, Counting(s.procs[p].pc.i + 1), m)
    case Cancel(p, err) => WaitMove(s, p, Returned(Failure(err)), m)
    case Finish(p, db) => FinishMove(s, p, db, m)
    case SweepStale(db) => SweepMove(s, db)
    case AdminRetry(id, db) => AdminRetryMove(s, id, db, m)
    case AdminSend(p) => AdminSendMove(s, p, m)
    case WebRetry(id, db) => WebRetryMove(s, id, db, m)
    case Tick(_) => Stay
    case Crash => Down
    case Boot(ids, db) => BootMove(s, ids, db, m)
  }

  /** What the structural invariant says about the goroutine a step runs. */
  lemma ProcFacts(s: State, p: nat)
    requires Inv(s) && At(s, p)
    ensures s.procs[p].job.msg in s.table && PcInRange(s.procs[p].pc)
  {
  }

  lemma HandlerStepIsAMove(s: State, a: Action, m: MsgId)
    requires Enabled(s, a) && (a.IntakeSend? || a.IntakeReject? || a.AdminSend?)
    requires s.procs[a.p].job.msg in s.table
    ensures Moves(LifeOf(s, m), MoveOf(s, a, m), LifeOf(Apply(s, a), m))
  {
    match a
    case IntakeSend(p) => IntakeSendLife(s, p, m);
    case IntakeReject(p, db) => IntakeRejectLife(s, p, db, m);
    case AdminSend(p) => AdminSendLife(s, p, m);
  }

  lemma WaitStepIsAMove(s: State, a: Action, m: MsgId)
    requires Enabled(s, a) && (a.Resume? || a.Cancel?)
    requires s.procs[a.p].job.msg in s.table && PcInRange(s.procs[a.p].pc)
    ensures Moves(LifeOf(s, m), MoveOf(s, a, m), LifeOf(Apply(s, a), m))
  {
    match a
    case Resume(p) => WaitLife(s, p, Counting(s.procs[p].pc.i + 1), m);
    case Cancel(p, err) => WaitLife(s, p, Returned(Failure(err)), m);
  }

  lemma WorkerStepIsAMove(s: State, a: Action, m: MsgId)
    requires Enabled(s, a) && (a.Count? || a.Return? || a.Resume? || a.Cancel? || a.Finish?)
    requires s.procs[a.p].job.msg in s.table && PcInRange(s.procs[a.p].pc)
    ensures Moves(LifeOf(s, m), MoveOf(s, a, m), LifeOf(Apply(s, a), m))
  {
    match a
    case Count(p, db) => CountLife(s, p, db, m);
    case Return(p, result) => ReturnLife(s, p, result, m);
    case Resume(_) | Cancel(_, _) => WaitStepIsAMove(s, a, m);
    case Finish(p, db) => FinishLife(s, p, db, m);
  }

  /** The commuting square: every step of the engine, seen from any one message, is that message's move. */
  lemma EveryStepIsAMove(s: State, a: Action, m: MsgId)
    requires Inv(s) && Enabled(s, a)
    ensures Moves(LifeOf(s, m), MoveOf(s, a, m), LifeOf(Apply(s, a), m))
  {
    match a
    case Receive(id, key, payload, db) => ReceiveLife(s, id, key, payload, db, m);
    case Dequeue(dir) => assert Queue(s, dir)[0] in Queue(s, dir); DequeueLife(s, dir, m);
    case SweepStale(db) => SweepLife(s, db, m);
    case AdminRetry(id, db) => AdminRetryLife(s, id, db, m);
    case WebRetry(id, db) => WebRetryLife(s, id, db, m);
    case Tick(_) =>
    case Crash => CrashLife(s, m);
    case Boot(ids, db) => BootLife(s, ids, db, m);
    case IntakeSend(_) => ProcFacts(s, a.p); HandlerStepIsAMove(s, a, m);
    case IntakeReject(_, _) => ProcFacts(s, a.p); HandlerStepIsAMove(s, a, m);
    case AdminSend(_) => ProcFacts(s, a.p); HandlerStepIsAMove(s, a, m);
    case _ => ProcFacts(s, a.p); WorkerStepIsAMove(s, a, m);
  }
}
