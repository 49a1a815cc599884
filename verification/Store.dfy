/** The message table and the in-process channels as the objects the bridge updates. */
module Store {
  import opened Wrappers
  import opened Messages

  /** A Go channel of jobs with a fixed capacity. */
  class Channel {
    const capacity: nat
    var items: seq<Job>

    constructor (capacity: nat)
      ensures this.capacity == capacity && items == []
    {
      this.capacity := capacity;
      items := [];
    }

    /** select { case ch <- job: default: } */
    method TrySend(job: Job) returns (sent: bool)
      modifies this
      ensures sent <==> |old(items)| < capacity
      ensures items == if sent then old(items) + [job] else old(items)
    {
      sent := |items| < capacity;
      if sent {
        items := items + [job];
      }
    }

    method Receive() returns (job: Job)
      requires items != []
      modifies this
      ensures old(items) == [job] + items
    {
      job := items[0];
      items := items[1..];
    }
  }

  /** There is an oldest row in every nonempty set of rows. */
  lemma {:induction false} OldestExists(t: Table, ids: set<MsgId>)
    requires ids != {} && forall id <- ids :: id in t
    ensures exists id <- ids :: forall other <- ids :: t[id].created <= t[other].created
    decreases |ids|
  {
    var x :| x in ids;
    if ids == {x} {
      assert forall other <- ids :: t[x].created <= t[other].created;
    } else {
      OldestExists(t, ids - {x});
      var y :| y in ids - {x} && forall other <- ids - {x} :: t[y].created <= t[other].created;
      var z := if t[x].created <= t[y].created then x else y;
      assert z in ids && forall other <- ids :: t[z].created <= t[other].created;
    }
  }

  /** The pending rows, split into the oldest, in order, and the rest, none of them older. */
  ghost predicate OldestFirst(t: Table, ids: seq<MsgId>, rest: set<MsgId>) {
    && (forall i, j | 0 <= i < j < |ids| :: ids[i] != ids[j])
    && (forall i | 0 <= i < |ids| :: IsPending(t, ids[i]) && ids[i] !in rest)
    && (forall i, j | 0 <= i < j < |ids| :: t[ids[i]].created <= t[ids[j]].created)
    && (forall id <- rest :: IsPending(t, id))
    && (forall id <- t | IsPending(t, id) :: id in ids || id in rest)
    && (forall id <- rest, i | 0 <= i < |ids| :: t[ids[i]].created <= t[id].created)
  }

  lemma OldestNext(t: Table, ids: seq<MsgId>, rest: set<MsgId>, oldest: MsgId)
    requires OldestFirst(t, ids, rest) && oldest in rest
    requires forall other <- rest :: t[oldest].created <= t[other].created
    ensures OldestFirst(t, ids + [oldest], rest - {oldest})
  {
  }

  /** The `messages` table. Each method is one statement; `db` is how it ended. */
  class MessageStore {
    var rows: Table
    var clock: nat

    constructor ()
      ensures rows == map[]
    {
      rows := map[];
    }

    method InsertMessage(id: MsgId, key: Key, payload: string, db: Db) returns (created: bool, failed: bool)
      requires HasKey(rows, key) || id !in rows
      modifies this`rows
      ensures rows == if db == Refused || HasKey(old(rows), key) then old(rows)
                      else old(rows)[id := Row(key, payload, clock, Pending, 0, None)]
      ensures created <==> db == Applied && !HasKey(old(rows), key)
      ensures failed <==> db != Applied
    {
      failed := db != Applied;
      created := !failed && !HasKey(rows, key);
      if db != Refused && !HasKey(rows, key) {
        rows := rows[id := NewRow(key, payload, clock)];
      }
    }

    method MarkStatus(id: MsgId, status: Status, why: Option<Reason>, db: Db) returns (failed: bool)
      modifies this`rows
      ensures rows == if db == Refused then old(rows) else Mark(old(rows), id, status, why)
      ensures db != Refused && id in old(rows) ==>
                rows == old(rows)[id := old(rows)[id].(status := status, lastError := why)]
      ensures failed <==> db != Applied
    {
      failed := db != Applied;
      if db != Refused {
        rows := Mark(rows, id, status, why);
      }
    }

    method IncrementAttempts(id: MsgId, db: Db)
      modifies this`rows
      ensures rows == if db == Refused then old(rows) else Bump(old(rows), id)
      ensures db != Refused && id in old(rows) && old(rows)[id].attempts < 32767 ==>
                rows == old(rows)[id := old(rows)[id].(attempts := old(rows)[id].attempts + 1)]
      ensures id in old(rows) && old(rows)[id].attempts >= 32767 ==> rows == old(rows)
    {
      if db != Refused {
        rows := Bump(rows, id);
      }
    }

    method SweepStale(db: Db) returns (changed: nat, failed: bool)
      modifies this`rows
      ensures rows == if db == Refused then old(rows) else Sweep(old(rows), clock)
      ensures failed <==> db != Applied
      ensures db != Refused ==> rows.Keys == old(rows).Keys && forall id <- rows ::
                var row := old(rows)[id];
                rows[id] == if row.status == Pending && row.created + 3600 < clock
                            then row.(status := Failed, lastError := Some(Stale)) else row
      ensures !failed ==> changed == |set id | id in old(rows) && rows[id] != old(rows)[id]|
    {
      failed := db != Applied;
      changed := 0;
      if db != Refused {
        if db == Applied {
          changed := |set id | id in rows && IsStale(rows[id], clock)|;
        }
        rows := Sweep(rows, clock);
        assert (set id | id in old(rows) && IsStale(old(rows)[id], clock))
            == set id | id in old(rows) && rows[id] != old(rows)[id];
      }
    }

    method RequeueMessage(id: MsgId, db: Db) returns (job: Option<Job>, failed: bool)
      modifies this`rows
      ensures rows == if db == Refused then old(rows) else Requeue(old(rows), id)
      ensures failed <==> db != Applied
      ensures job == if db == Applied && CanRequeue(old(rows), id) then Some(JobOf(old(rows), id)) else None
      ensures var found := id in old(rows) && old(rows)[id].status == Failed;
              && (db != Refused && found ==>
                    rows == old(rows)[id := old(rows)[id].(status := Pending, attempts := 0, lastError := None)])
              && (!found ==> rows == old(rows))
              && (job.Some? <==> db == Applied && found)
              && (job.Some? ==> var row := old(rows)[id];
                                job.value == Job(id, row.key.tenant, row.key.dir, row.payload))
    {
      failed := db != Applied;
      job := None;
      if db == Applied && CanRequeue(rows, id) {
        job := Some(JobOf(rows, id));
      }
      if db != Refused {
        rows := Requeue(rows, id);
      }
    }

    /** The oldest pending rows, at most `limit` of them. */
    method NextPending(limit: nat) returns (ids: seq<MsgId>)
      ensures IsNextPending(rows, limit, ids)
    {
      ids := [];
      var rest := set id | id in rows && IsPending(rows, id);
      while |ids| < limit && rest != {}
        invariant |ids| <= limit && OldestFirst(rows, ids, rest)
        decreases rest
      {
        OldestExists(rows, rest);
        var oldest :| oldest in rest && forall other <- rest :: rows[oldest].created <= rows[other].created;
        OldestNext(rows, ids, rest, oldest);
        ids := ids + [oldest];
        rest := rest - {oldest};
      }
    }
  }
}
