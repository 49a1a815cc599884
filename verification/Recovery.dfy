/** Which rows boot recovery queues, in terms of the table alone. */
module Recovery {
  import opened Messages
  import opened Engine

  /** The pending rows created before the row, and those created no later than it. */
  function Older(t: Table, id: MsgId): set<MsgId>
    requires id in t
  {
    set other | other in t && t[other].status == Pending && t[other].created < t[id].created
  }

  function NotYounger(t: Table, id: MsgId): set<MsgId>
    requires id in t
  {
    set other | other in t && other != id && t[other].status == Pending && t[other].created <= t[id].created
  }

  /** Those of them that go the same way. */
  function Alongside(t: Table, ids: set<MsgId>, dir: Direction): set<MsgId>
    requires ids <= t.Keys
  {
    set id | id in ids && t[id].key.dir == dir
  }

  /** Oldest first, and none twice. */
  predicate InOrder(t: Table, ids: seq<MsgId>) {
    && (forall id <- ids :: id in t)
    && (forall i, j | 0 <= i < j < |ids| :: ids[i] != ids[j] && t[ids[i]].created <= t[ids[j]].created)
  }

  lemma {:induction false} OfDirectionInOrder(t: Table, ids: seq<MsgId>, dir: Direction)
    requires InOrder(t, ids)
    ensures InOrder(t, OfDirection(t, ids, dir))
  {
    OfDirectionMembers(t, ids, dir);
    if ids != [] {
      OfDirectionInOrder(t, ids[..|ids| - 1], dir);
      OfDirectionMembers(t, ids[..|ids| - 1], dir);
    }
  }

  /** What is older than a row of the list, and in the list, stands before it. */
  lemma OlderStandBefore(t: Table, ids: seq<MsgId>, k: nat, older: set<MsgId>)
    requires InOrder(t, ids) && k < |ids|
    requires forall o <- older :: o in ids && t[o].created < t[ids[k]].created
    ensures |older| <= k
  {
    forall o <- older
      ensures o in ids[..k]
    {
      var i :| 0 <= i < |ids| && ids[i] == o;
      assert i < k;
      assert ids[..k][i] == o;
    }
    assert older <= Elements(ids[..k]);
    DistinctSize(ids[..k]);
    SubsetSize(older, Elements(ids[..k]));
  }

  /** The first n of the list that stand before a row, or without it, are as many not younger ones. */
  lemma FirstAreNotYounger(t: Table, ids: seq<MsgId>, n: nat, among: set<MsgId>)
    requires InOrder(t, ids) && n <= |ids| && forall i | 0 <= i < n :: ids[i] in among
    ensures |among| >= n
  {
    DistinctSize(ids[..n]);
    assert Elements(ids[..n]) <= among;
    SubsetSize(Elements(ids[..n]), among);
  }

  lemma AnswerInOrder(t: Table, limit: nat, ids: seq<MsgId>)
    requires IsNextPending(t, limit, ids)
    ensures InOrder(t, ids)
  {
  }

  /** A queued row has fewer than `bound` older pending rows its way, and 2 * bound in all. */
  lemma QueuedIsOld(t: Table, ids: seq<MsgId>, bound: nat, id: MsgId)
    requires IsNextPending(t, 2 * bound, ids) && id in t
    requires id in Recovered(t, ids, t[id].key.dir, bound)
    ensures |Older(t, id)| < 2 * bound
    ensures |Alongside(t, Older(t, id), t[id].key.dir)| < bound
  {
    var dir := t[id].key.dir;
    var some := OfDirection(t, ids, dir);
    OfDirectionMembers(t, ids, dir);
    AnswerInOrder(t, 2 * bound, ids);
    OfDirectionInOrder(t, ids, dir);
    assert forall o <- Older(t, id) :: IsPending(t, o) && o in ids;
    var k :| 0 <= k < |ids| && ids[k] == id;
    OlderStandBefore(t, ids, k, Older(t, id));
    var i :| 0 <= i < |AtMost(some, bound)| && AtMost(some, bound)[i] == id;
    OlderStandBefore(t, some, i, Alongside(t, Older(t, id), dir));
  }

  lemma EarlyIsIn(some: seq<MsgId>, bound: nat, k: nat)
    requires k < |some|
    ensures k < bound ==> some[k] in AtMost(some, bound)
  {
    if k < bound {
      assert AtMost(some, bound)[k] == some[k];
    }
  }

  /** A pending row that is skipped has `bound` not younger ones its way, or 2 * bound in all. */
  lemma SkippedIsLate(t: Table, ids: seq<MsgId>, bound: nat, id: MsgId)
    requires IsNextPending(t, 2 * bound, ids) && IsPending(t, id)
    requires id !in Recovered(t, ids, t[id].key.dir, bound)
    ensures |NotYounger(t, id)| >= 2 * bound || |Alongside(t, NotYounger(t, id), t[id].key.dir)| >= bound
  {
    var dir := t[id].key.dir;
    var some := OfDirection(t, ids, dir);
    OfDirectionMembers(t, ids, dir);
    AnswerInOrder(t, 2 * bound, ids);
    OfDirectionInOrder(t, ids, dir);
    if id !in ids {
      FirstAreNotYounger(t, ids, 2 * bound, NotYounger(t, id));
    } else {
      var k :| 0 <= k < |some| && some[k] == id;
      EarlyIsIn(some, bound, k);
      forall i | 0 <= i < bound
        ensures some[i] in Alongside(t, NotYounger(t, id), dir)
      {
        assert some[i] in ids;
      }
      FirstAreNotYounger(t, some, bound, Alongside(t, NotYounger(t, id), dir));
    }
  }

  // ---- on the channels ----

  /** A job with the row's tenant, direction and payload is in the channel of that direction. */
  predicate IsQueued(t: Table, inbox: seq<Job>, outbox: seq<Job>, id: MsgId)
    requires id in t
  {
    Job(id, t[id].key.tenant, t[id].key.dir, t[id].payload) in if t[id].key.dir == Out then outbox else inbox
  }

  /** Recovery that asks for twice the channels' bound: it queues only pending rows, each
      with fewer than `bound` older ones its way and twice as many in all, and skips only
      rows with that many not younger ones. It skips none if and only if neither
      direction has more than `bound` pending rows. */
  ghost predicate RecoversOldest(t: Table, inbox: seq<Job>, outbox: seq<Job>, bound: nat) {
    && (forall id <- t | IsQueued(t, inbox, outbox, id) ::
          && t[id].status == Pending && |Older(t, id)| < 2 * bound
          && |Alongside(t, Older(t, id), t[id].key.dir)| < bound)
    && (forall id <- t | t[id].status == Pending && !IsQueued(t, inbox, outbox, id) ::
          |NotYounger(t, id)| >= 2 * bound || |Alongside(t, NotYounger(t, id), t[id].key.dir)| >= bound)
    && ((forall id <- t | t[id].status == Pending :: IsQueued(t, inbox, outbox, id))
        <==> |PendingOf(t, In)| <= bound && |PendingOf(t, Out)| <= bound)
  }

  lemma QueuedIffRecovered(t: Table, ids: seq<MsgId>, bound: nat, id: MsgId)
    requires (forall i <- ids :: i in t) && id in t
    ensures forall dir :: forall i <- Recovered(t, ids, dir, bound) :: i in t
    ensures IsQueued(t, JobsOf(t, Recovered(t, ids, In, bound)), JobsOf(t, Recovered(t, ids, Out, bound)), id)
       <==> id in Recovered(t, ids, t[id].key.dir, bound)
  {
    OfDirectionMembers(t, ids, In);
    OfDirectionMembers(t, ids, Out);
    var some := Recovered(t, ids, t[id].key.dir, bound);
    assert forall k | 0 <= k < |some| :: JobsOf(t, some)[k] == JobOf(t, some[k]) && JobOf(t, some[k]).msg == some[k];
  }

  lemma RecoveryQueuesOldest(t: Table, ids: seq<MsgId>, bound: nat)
    requires IsNextPending(t, 2 * bound, ids)
    ensures forall dir :: forall i <- Recovered(t, ids, dir, bound) :: i in t
    ensures RecoversOldest(t, JobsOf(t, Recovered(t, ids, In, bound)), JobsOf(t, Recovered(t, ids, Out, bound)), bound)
  {
    OfDirectionMembers(t, ids, In);
    OfDirectionMembers(t, ids, Out);
    var inbox, outbox := JobsOf(t, Recovered(t, ids, In, bound)), JobsOf(t, Recovered(t, ids, Out, bound));
    forall id <- t
      ensures IsQueued(t, inbox, outbox, id) <==> id in Recovered(t, ids, t[id].key.dir, bound)
    {
      QueuedIffRecovered(t, ids, bound, id);
    }
    forall id <- t | IsQueued(t, inbox, outbox, id)
      ensures t[id].status == Pending && |Older(t, id)| < 2 * bound
      ensures |Alongside(t, Older(t, id), t[id].key.dir)| < bound
    {
      QueuedIsOld(t, ids, bound, id);
      assert id in ids;
    }
    forall id <- t | t[id].status == Pending && !IsQueued(t, inbox, outbox, id)
      ensures |NotYounger(t, id)| >= 2 * bound || |Alongside(t, NotYounger(t, id), t[id].key.dir)| >= bound
    {
      SkippedIsLate(t, ids, bound, id);
    }
    RecoveryIsComplete(t, ids, bound);
  }

  /** So does the engine's boot step, whatever order the database returned ties in. */
  lemma BootQueuesOldest(s: State, ids: seq<MsgId>)
    requires Enabled(s, Boot(ids, Applied))
    ensures var s' := Apply(s, Boot(ids, Applied)); RecoversOldest(s'.table, s'.inbox, s'.outbox, s.limit)
  {
    RecoveryQueuesOldest(s.table, ids, s.limit);
  }
}
