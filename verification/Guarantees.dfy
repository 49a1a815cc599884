/** What the delivery engine promises about every message, over every run. */
module Guarantees {
  import opened Wrappers
  import opened Messages
  import opened Engine
  import opened EngineInvariants
  import opened Lives

  /** The invariant of one message's life. */
  predicate Sound(v: Life) {
    && (v.row.None? ==> v.queued == 0 && v.load.Idle() && v.past.Blank())
    && (v.row.Some? ==> v.past.inserted == 1)
    // at most one "queued" reply
    && v.load.intake + v.past.replies <= 1
    // the live-job bound
    && v.load.intake + v.LiveJobs() <= 1 + v.past.pushes
    // ... and the bound on the jobs queued or ever taken in this process lifetime
    && v.load.intake + v.queued + v.past.taken <= 1 + v.past.pushes
    // nothing pending is silently without a handle
    && (v.HasStatus(Pending) && v.Unattended() ==> v.cause.Some?)
    // "done" is earned
    && (v.HasStatus(Done) || v.load.winners > 0 ==> v.past.wins > 0)
    // the attempts column: four (RETRIES + 1) for each job taken
    && (v.row.Some? ==> v.row.value.attempts + v.load.budget <= 4 * v.past.dequeues)
    // the janitor leaves no old row pending, unless an operator reopened it since
    && (v.HasStatus(Pending) && v.row.value.created + STALE_AGE < v.sweptAt ==> v.past.reopened > 0)
  }

  lemma HandlerMoveKeepsSound(v: Life, mv: Move, v': Life)
    requires Sound(v) && Moves(v, mv, v')
    requires mv.Shift? || mv.Send? || mv.GiveUp? || mv.Settle?
    ensures Sound(v')
  {
  }

  lemma WorkerMoveKeepsSound(v: Life, mv: Move, v': Life)
    requires Sound(v) && Moves(v, mv, v')
    requires mv.Take? || mv.Tally? || mv.Answer?
    ensures Sound(v')
  {
  }

  lemma ArrivalIsSound(v: Life, row: Row, acked: bool, v': Life)
    requires Sound(v) && Arrives(v, row, acked, v')
    ensures Sound(v')
  {
  }

  lemma SweepKeepsSound(v: Life, now: nat, v': Life)
    requires Sound(v) && IsSwept(v, now, v')
    ensures Sound(v')
  {
  }

  lemma ReopenKeepsSound(v: Life, mv: Move, v': Life)
    requires Sound(v) && Moves(v, mv, v') && (mv.Reopen? || mv.WebReopen?)
    ensures Sound(v')
  {
  }

  lemma ProcessMoveKeepsSound(v: Life, mv: Move, v': Life)
    requires Sound(v) && Moves(v, mv, v')
    requires mv.Stay? || mv.Down? || mv.Restart?
    ensures Sound(v')
  {
  }

  lemma MoveKeepsSound(v: Life, mv: Move, v': Life)
    requires Sound(v) && Moves(v, mv, v')
    ensures Sound(v')
  {
    if mv.Shift? || mv.Send? || mv.GiveUp? || mv.Settle? {
      HandlerMoveKeepsSound(v, mv, v');
    } else if mv.Take? || mv.Tally? || mv.Answer? {
      WorkerMoveKeepsSound(v, mv, v');
    } else if mv.Stay? || mv.Down? || mv.Restart? {
      ProcessMoveKeepsSound(v, mv, v');
    } else if mv.Arrive? {
      ArrivalIsSound(v, mv.row, mv.acked, v');
    } else if mv.Janitor? {
      SweepKeepsSound(v, mv.now, v');
    } else {
      ReopenKeepsSound(v, mv, v');
    }
  }

  // ---- over every run ----

  lemma NothingYet(m: MsgId)
    ensures PastOf([], m).Blank() && PastOf([], m).pushes <= 0
  {
  }

  lemma UnbornIsSound(v: Life)
    requires v.row == None && v.queued <= 0 && v.load.Idle() && v.past.Blank() && v.past.pushes <= 0
    ensures Sound(v)
  {
  }

  lemma InitIsSound(configured: int, m: MsgId)
    ensures Sound(LifeOf(Init(configured), m))
  {
    NobodyHolds(m);
    NothingYet(m);
    UnbornIsSound(LifeOf(Init(configured), m));
  }

  lemma SoundNext(r: Run, configured: int, k: nat, m: MsgId)
    requires IsRun(r, configured) && k < |r.steps| && Sound(LifeOf(r.states[k], m))
    ensures Sound(LifeOf(r.states[k + 1], m))
  {
    RunMoves(r, configured, k, m);
    MoveKeepsSound(LifeOf(r.states[k], m), MoveOf(r.states[k], r.steps[k], m), LifeOf(r.states[k + 1], m));
  }

  lemma {:induction false} LivesAreSound(r: Run, configured: int, k: nat, m: MsgId)
    requires IsRun(r, configured) && k <= |r.steps|
    ensures Sound(LifeOf(r.states[k], m))
  {
    if k == 0 {
      InitIsSound(configured, m);
    } else {
      LivesAreSound(r, configured, k - 1, m);
      SoundNext(r, configured, k - 1, m);
    }
  }

  /** Step k of a run, seen from m. */
  lemma RunMoves(r: Run, configured: int, k: nat, m: MsgId)
    requires IsRun(r, configured) && k < |r.steps|
    ensures Enabled(r.states[k], r.steps[k])
    ensures Moves(LifeOf(r.states[k], m), MoveOf(r.states[k], r.steps[k], m), LifeOf(r.states[k + 1], m))
  {
    Reachable(r, configured, k);
    assert Step(r.states[k], r.steps[k], r.states[k + 1]);
    EveryStepIsAMove(r.states[k], r.steps[k], m);
  }

  /** Jobs of m queued or in flight. */
  ghost function LiveJobs(s: State, m: MsgId): nat {
    LifeOf(s, m).LiveJobs()
  }

  /** Everything that may still act on m: queued, in flight, or held by a handler between its steps. */
  ghost function Handles(s: State, m: MsgId): nat {
    LifeOf(s, m).Handles()
  }

  /** Within one process lifetime a message never has more live jobs than one, plus
      one for each admin retry whose job reached the channel in that lifetime. */
  lemma LiveJobBound(r: Run, configured: int, k: nat, m: MsgId)
    requires IsRun(r, configured) && k <= |r.steps|
    ensures LiveJobs(r.states[k], m) <= 1 + PastOf(r.states[k].log, m).pushes
  {
    LivesAreSound(r, configured, k, m);
  }

  /** Within one process lifetime a message's jobs, those queued and all those a worker
      ever took, are at most one, plus one for each such admin retry. */
  lemma JobsBound(r: Run, configured: int, k: nat, m: MsgId)
    requires IsRun(r, configured) && k <= |r.steps|
    ensures LifeOf(r.states[k], m).queued + PastOf(r.states[k].log, m).taken
         <= 1 + PastOf(r.states[k].log, m).pushes
  {
    LivesAreSound(r, configured, k, m);
  }

  /** A row is marked done only after a processing run of it returned nil, and that after its insertion. */
  lemma DoneWasProcessed(r: Run, configured: int, k: nat, m: MsgId) returns (i: nat, j: nat)
    requires IsRun(r, configured) && k <= |r.steps|
    requires m in r.states[k].table && r.states[k].table[m].status == Done
    ensures i < j < |r.states[k].log|
    ensures r.states[k].log[i] == Inserted(m) && r.states[k].log[j] == Succeeded(m)
  {
    var log := r.states[k].log;
    Reachable(r, configured, k);
    LivesAreSound(r, configured, k, m);
    j := WinIsLogged(log, |log|, m);
    assert EventInv(r.states[k].table, log, j);
    i :| 0 <= i < j && log[i] == Inserted(m);
  }

  lemma {:induction false} WinIsLogged(log: seq<Event>, n: nat, m: MsgId) returns (j: nat)
    requires n <= |log| && PastTo(log, n, m).wins > 0
    ensures j < n && log[j] == Succeeded(m)
  {
    if log[n - 1] == Succeeded(m) {
      j := n - 1;
    } else {
      j := WinIsLogged(log, n - 1, m);
    }
  }

  /** The attempts column never exceeds four times the jobs ever taken for the row. */
  lemma AttemptsBound(r: Run, configured: int, k: nat, m: MsgId)
    requires IsRun(r, configured) && k <= |r.steps| && m in r.states[k].table
    ensures r.states[k].table[m].attempts <= 4 * PastOf(r.states[k].log, m).dequeues
  {
    LivesAreSound(r, configured, k, m);
  }

  // ---- idempotent intake ----

  /** Rows keep their identity and payload from any point to any later point of a run. */
  lemma {:induction false} MessagesNeverChange(r: Run, i: nat, j: nat)
    requires Linked(r) && i <= j <= |r.steps|
    ensures SameMessages(r.states[i].table, r.states[j].table)
    decreases j
  {
    if i < j {
      MessagesNeverChange(r, i, j - 1);
      assert Step(r.states[j - 1], r.steps[j - 1], r.states[j]);
      StepKeepsMessages(r.states[j - 1], r.steps[j - 1]);
    }
  }

  lemma {:induction false} RepliesCounted(log: seq<Event>, n: nat, i: nat, m: MsgId)
    requires i < n <= |log| && log[i] == ReplyQueued(m)
    ensures PastTo(log, n, m).replies >= 1
    ensures forall j | i < j < n :: log[j] == ReplyQueued(m) ==> PastTo(log, n, m).replies >= 2
  {
    if i < n - 1 {
      RepliesCounted(log, n - 1, i, m);
    }
  }

  /** However often a webhook is redelivered, and whatever interleaves: one row for
      each (tenant, direction, external id), and at most one "queued" reply for it. */
  lemma IdempotentIntake(r: Run, configured: int, k: nat, i: nat, j: nat)
    requires IsRun(r, configured) && k <= |r.steps|
    requires i < j < |r.states[k].log| && r.states[k].log[i].ReplyQueued? && r.states[k].log[j].ReplyQueued?
    ensures KeysUnique(r.states[k].table)
    ensures var t, a, b := r.states[k].table, r.states[k].log[i].msg, r.states[k].log[j].msg;
            a in t && b in t && t[a].key != t[b].key
  {
    var s := r.states[k];
    var a := s.log[i].msg;
    Reachable(r, configured, k);
    LivesAreSound(r, configured, k, a);
    assert EventInv(s.table, s.log, i) && EventInv(s.table, s.log, j);
    RepliesCounted(s.log, |s.log|, i, a);
  }

  // ---- the janitor ----

  /** A row that was already too old at the last sweep is pending only if an
      operator reopened it after that sweep. */
  lemma JanitorLeavesNoneBehind(r: Run, configured: int, k: nat, m: MsgId)
    requires IsRun(r, configured) && k <= |r.steps|
    requires var s := r.states[k]; IsPending(s.table, m) && s.table[m].created + 3600 < s.sweptAt
    ensures PastOf(r.states[k].log, m).reopened > 0
  {
    LivesAreSound(r, configured, k, m);
  }

  /** With sweeps at most five minutes apart, no row stays pending for more than an
      hour and five minutes unless an operator reopens it after the last sweep. */
  lemma PendingIsYoung(r: Run, configured: int, k: nat, m: MsgId)
    requires IsRun(r, configured) && k <= |r.steps|
    requires var s := r.states[k];
             && s.clock <= s.sweptAt + 300
             && IsPending(s.table, m) && PastOf(s.log, m).reopened == 0
    ensures var s := r.states[k]; s.clock <= s.table[m].created + 3900
  {
    LivesAreSound(r, configured, k, m);
  }
}
