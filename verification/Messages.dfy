/** The durable `messages` table: its rows, and every statement the bridge runs against it. */
module Messages {
  import opened Wrappers

  const STALE_AGE: nat := 3600   // staleSweepAge, in seconds
  const MAX_SMALLINT: nat := 32767   // the attempts column is a SMALLINT

  type MsgId = nat

  datatype Direction = In | Out

  datatype Status = Pending | Done | Failed

  /** The columns of UNIQUE(tenant_id, direction, external_id). */
  datatype Key = Key(tenant: nat, dir: Direction, ext: string)

  /** The texts the bridge writes to last_error. */
  datatype Reason =
    | QueueFull               // 'queue full'
    | Stale                   // 'stale: pending beyond 1h0m0s'
    | Reported(text: string)  // the text of a job's error

  datatype Row = Row(key: Key, payload: string, created: nat,
                     status: Status, attempts: nat, lastError: Option<Reason>)

  type Table = map<MsgId, Row>

  datatype Job = Job(msg: MsgId, tenant: nat, dir: Direction, payload: string)

  /** How one database call ended: acknowledged, refused without effect, or
      carried out although the caller was told it failed. */
  datatype Db = Applied | Refused | Unacked

  // ---- statements ----

  predicate HasKey(t: Table, key: Key) {
    exists id <- t :: t[id].key == key
  }

  function NewRow(key: Key, payload: string, now: nat): Row {
    Row(key, payload, now, Pending, 0, None)
  }

  /** NULLIF(text, ''): an empty error text leaves the column NULL. */
  function ReportedReason(text: string): Option<Reason> {
    if text == "" then None else Some(Reported(text))
  }

  /** MarkStatus: no condition on the status the row has now. */
  function Mark(t: Table, id: MsgId, status: Status, why: Option<Reason>): Table {
    if id in t then t[id := t[id].(status := status, lastError := why)] else t
  }

  /** IncrementAttempts: the statement fails once the SMALLINT is exhausted. */
  function Bump(t: Table, id: MsgId): Table {
    if id in t && t[id].attempts < MAX_SMALLINT
    then t[id := t[id].(attempts := t[id].attempts + 1)] else t
  }

  predicate IsPending(t: Table, id: MsgId) {
    id in t && t[id].status == Pending
  }

  predicate IsStale(row: Row, now: nat) {
    row.status == Pending && row.created + STALE_AGE < now
  }

  function SweptRow(row: Row, now: nat): Row {
    if IsStale(row, now)
    then row.(status := Failed, lastError := Some(Stale)) else row
  }

  /** SweepStale. */
  function Sweep(t: Table, now: nat): Table {
    map id | id in t :: SweptRow(t[id], now)
  }

  /** The rows RequeueMessage matches. */
  predicate CanRequeue(t: Table, id: MsgId) {
    id in t && t[id].status == Failed
  }

  /** RequeueMessage. */
  function Requeue(t: Table, id: MsgId): Table {
    if CanRequeue(t, id)
    then t[id := t[id].(status := Pending, attempts := 0, lastError := None)] else t
  }

  /** NextPending: any answer to ORDER BY created_at ASC LIMIT limit, ties in any order. */
  ghost predicate IsNextPending(t: Table, limit: nat, ids: seq<MsgId>) {
    && |ids| <= limit
    && (forall i, j | 0 <= i < j < |ids| :: ids[i] != ids[j])
    && (forall i | 0 <= i < |ids| :: IsPending(t, ids[i]))
    && (forall i, j | 0 <= i < j < |ids| :: t[ids[i]].created <= t[ids[j]].created)
    && (forall id <- t | IsPending(t, id) && id !in ids ::
          |ids| == limit && forall other <- ids :: t[other].created <= t[id].created)
  }

  // ---- jobs ----

  function JobOf(t: Table, id: MsgId): Job
    requires id in t
  {
    Job(id, t[id].key.tenant, t[id].key.dir, t[id].payload)
  }

  /** The job names an existing row and carries that row's tenant, direction and payload. */
  predicate Matches(t: Table, job: Job) {
    job.msg in t && job == JobOf(t, job.msg)
  }

  /** Rows are never deleted, and no statement rewrites what identifies a message. */
  ghost predicate SameMessages(t: Table, t': Table) {
    forall id <- t ::
      id in t' && t'[id].key == t[id].key && t'[id].payload == t[id].payload && t'[id].created == t[id].created
  }

  lemma MarkKeeps(t: Table, id: MsgId, status: Status, why: Option<Reason>)
    ensures SameMessages(t, Mark(t, id, status, why)) && Mark(t, id, status, why).Keys == t.Keys
  {
  }

  lemma BumpKeeps(t: Table, id: MsgId)
    ensures SameMessages(t, Bump(t, id)) && Bump(t, id).Keys == t.Keys
  {
  }

  lemma SweepKeeps(t: Table, now: nat)
    ensures SameMessages(t, Sweep(t, now)) && Sweep(t, now).Keys == t.Keys
  {
  }

  lemma RequeueKeeps(t: Table, id: MsgId)
    ensures SameMessages(t, Requeue(t, id)) && Requeue(t, id).Keys == t.Keys
  {
  }

  /** Janitor against worker: a sweep and a worker's mark come to the same in either
      order. A marked row is not swept, and a mark replaces what a sweep wrote. */
  lemma SweepCommutesWithMark(t: Table, id: MsgId, status: Status, why: Option<Reason>, now: nat)
    requires status != Pending
    ensures Mark(Sweep(t, now), id, status, why) == Sweep(Mark(t, id, status, why), now)
  {
  }

  /** The sweep goes by creation time, not by retry time: a row set back to pending
      outlives the next sweep exactly when it is still young. */
  lemma RetriedRowAndSweep(t: Table, id: MsgId, now: nat)
    requires CanRequeue(t, id)
    ensures IsPending(Sweep(Requeue(t, id), now), id) <==> now <= t[id].created + 3600
  {
  }

  // ---- boot-time recovery, as a function of the recovered ids ----

  function OfDirection(t: Table, ids: seq<MsgId>, dir: Direction): seq<MsgId>
    requires forall id <- ids :: id in t
  {
    if ids == [] then []
    else
      var rest := OfDirection(t, ids[..|ids| - 1], dir);
      if t[ids[|ids| - 1]].key.dir == dir then rest + [ids[|ids| - 1]] else rest
  }

  function AtMost(ids: seq<MsgId>, n: nat): seq<MsgId> {
    if |ids| <= n then ids else ids[..n]
  }

  function JobsOf(t: Table, ids: seq<MsgId>): seq<Job>
    requires forall id <- ids :: id in t
    ensures |JobsOf(t, ids)| == |ids|
    ensures forall i | 0 <= i < |ids| :: JobsOf(t, ids)[i] == JobOf(t, ids[i])
  {
    if ids == [] then [] else JobsOf(t, ids[..|ids| - 1]) + [JobOf(t, ids[|ids| - 1])]
  }

  /** The ids recovery queues in one direction: the first `bound` of them. */
  function Recovered(t: Table, ids: seq<MsgId>, dir: Direction, bound: nat): seq<MsgId>
    requires forall id <- ids :: id in t
  {
    AtMost(OfDirection(t, ids, dir), bound)
  }

  lemma {:induction false} OfDirectionMembers(t: Table, ids: seq<MsgId>, dir: Direction)
    requires forall id <- ids :: id in t
    ensures |OfDirection(t, ids, dir)| <= |ids|
    ensures forall id <- OfDirection(t, ids, dir) :: id in ids && t[id].key.dir == dir
    ensures forall id <- ids | t[id].key.dir == dir :: id in OfDirection(t, ids, dir)
  {
    if ids != [] {
      OfDirectionMembers(t, ids[..|ids| - 1], dir);
      assert ids == ids[..|ids| - 1] + [ids[|ids| - 1]];
    }
  }

  lemma {:induction false} OfDirectionDistinct(t: Table, ids: seq<MsgId>, dir: Direction)
    requires forall id <- ids :: id in t
    requires forall i, j | 0 <= i < j < |ids| :: ids[i] != ids[j]
    ensures var some := OfDirection(t, ids, dir);
            forall i, j | 0 <= i < j < |some| :: some[i] != some[j]
  {
    if ids != [] {
      OfDirectionDistinct(t, ids[..|ids| - 1], dir);
      OfDirectionMembers(t, ids[..|ids| - 1], dir);
    }
  }

  function Elements(ids: seq<MsgId>): set<MsgId> {
    set id | id in ids
  }

  lemma {:induction false} DistinctSize(ids: seq<MsgId>)
    requires forall i, j | 0 <= i < j < |ids| :: ids[i] != ids[j]
    ensures |Elements(ids)| == |ids|
  {
    if ids != [] {
      var front, last := ids[..|ids| - 1], ids[|ids| - 1];
      DistinctSize(front);
      assert Elements(ids) == Elements(front) + {last};
    }
  }

  lemma {:induction false} SubsetSize(a: set<MsgId>, b: set<MsgId>)
    requires a <= b
    ensures |a| <= |b|
    decreases b
  {
    if a != {} {
      var x :| x in a;
      SubsetSize(a - {x}, b - {x});
    }
  }

  ghost function PendingOf(t: Table, dir: Direction): set<MsgId> {
    set id | id in t && IsPending(t, id) && t[id].key.dir == dir
  }

  lemma RecoveredEnough(t: Table, ids: seq<MsgId>, bound: nat, id: MsgId)
    requires IsNextPending(t, 2 * bound, ids)
    requires |PendingOf(t, In)| <= bound && |PendingOf(t, Out)| <= bound
    requires IsPending(t, id)
    ensures id in Recovered(t, ids, t[id].key.dir, bound)
  {
    DistinctSize(ids);
    if id !in ids {
      SubsetSize(Elements(ids) + {id}, PendingOf(t, In) + PendingOf(t, Out));
      assert false;
    }
    var some := OfDirection(t, ids, t[id].key.dir);
    OfDirectionMembers(t, ids, t[id].key.dir);
    OfDirectionDistinct(t, ids, t[id].key.dir);
    DistinctSize(some);
    SubsetSize(Elements(some), PendingOf(t, t[id].key.dir));
  }

  /** `bound` ids of a direction at most: so if they cover its pending rows, those are at most `bound`. */
  lemma RecoveredCovers(t: Table, ids: seq<MsgId>, bound: nat, dir: Direction)
    requires IsNextPending(t, 2 * bound, ids)
    requires forall id <- PendingOf(t, dir) :: id in Recovered(t, ids, dir, bound)
    ensures |PendingOf(t, dir)| <= bound
  {
    var some := Recovered(t, ids, dir, bound);
    OfDirectionDistinct(t, ids, dir);
    assert some == OfDirection(t, ids, dir)[..|some|];
    DistinctSize(some);
    SubsetSize(PendingOf(t, dir), Elements(some));
  }

  /** Recovery leaves no pending row out exactly when neither direction has more
      than `bound` of them, whatever order the database returned ties in. */
  lemma RecoveryIsComplete(t: Table, ids: seq<MsgId>, bound: nat)
    requires IsNextPending(t, 2 * bound, ids)
    ensures (forall id <- t | IsPending(t, id) :: id in Recovered(t, ids, t[id].key.dir, bound))
       <==> |PendingOf(t, In)| <= bound && |PendingOf(t, Out)| <= bound
  {
    if |PendingOf(t, In)| <= bound && |PendingOf(t, Out)| <= bound {
      forall id <- t | IsPending(t, id)
        ensures id in Recovered(t, ids, t[id].key.dir, bound)
      {
        RecoveredEnough(t, ids, bound, id);
      }
    }
    if forall id <- t | IsPending(t, id) :: id in Recovered(t, ids, t[id].key.dir, bound) {
      RecoveredCovers(t, ids, bound, In);
      RecoveredCovers(t, ids, bound, Out);
    }
  }
}
