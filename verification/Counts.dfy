/** What the counters of the guarantees count: places in the channels, goroutines and
    events of the log. */
module Counts {
  import opened Messages
  import opened Engine
  import opened Loads
  import opened Lives
  import opened Guarantees

  // ---- jobs and goroutines ----

  function QueuedAt(q: seq<Job>, n: nat, m: MsgId): set<nat>
    requires n <= |q|
  {
    set k: nat | k < n && q[k].msg == m
  }

  /** The goroutines that hold m: all of them, or those that run it as a job. */
  function HeldBy(procs: seq<Proc>, n: nat, m: MsgId, running: bool): set<nat>
    requires n <= |procs|
  {
    set k: nat | k < n && procs[k].job.msg == m
                 && (running ==> !procs[k].pc.Intake? && !procs[k].pc.Rejecting? && !procs[k].pc.Requeued?)
  }

  lemma QueuedNext(q: seq<Job>, job: Job, m: MsgId)
    ensures |QueuedAt(q + [job], |q| + 1, m)| == |QueuedAt(q, |q|, m)| + if job.msg == m then 1 else 0
  {
    var now, before := QueuedAt(q + [job], |q| + 1, m), QueuedAt(q, |q|, m);
    if job.msg == m {
      assert now == before + {|q|};
    } else {
      assert now == before;
    }
  }

  lemma {:induction false} QueuedIsCounted(q: seq<Job>, m: MsgId)
    ensures QueuedFor(q, m) == |QueuedAt(q, |q|, m)|
  {
    if q != [] {
      var front, last := q[..|q| - 1], q[|q| - 1];
      QueuedIsCounted(front, m);
      QueuedPush(front, last, m);
      QueuedNext(front, last, m);
      assert q == front + [last];
    }
  }

  lemma HeldNext(procs: seq<Proc>, n: nat, m: MsgId, running: bool)
    requires 0 < n <= |procs|
    ensures var held, before := HeldBy(procs, n, m, running), HeldBy(procs, n - 1, m, running);
            |held| == |before| + if n - 1 in held then 1 else 0
  {
    var held, before := HeldBy(procs, n, m, running), HeldBy(procs, n - 1, m, running);
    if n - 1 in held {
      assert held == before + {n - 1};
    } else {
      assert held == before;
    }
  }

  lemma {:induction false} HeldIsCounted(procs: seq<Proc>, n: nat, m: MsgId)
    requires n <= |procs|
    ensures SumTo(Shares(procs, m), n).Holders() == |HeldBy(procs, n, m, false)|
    ensures SumTo(Shares(procs, m), n).running == |HeldBy(procs, n, m, true)|
  {
    if n > 0 {
      HeldIsCounted(procs, n - 1, m);
      HeldNext(procs, n, m, false);
      HeldNext(procs, n, m, true);
    }
  }

  /** A message's handles are its jobs in both channels and the goroutines that hold it; its
      live jobs are those but for the handlers that have yet to send a job or reject it. */
  lemma HandlesAreCounted(s: State, m: MsgId)
    ensures var queued := |QueuedAt(s.inbox, |s.inbox|, m)| + |QueuedAt(s.outbox, |s.outbox|, m)|;
            && Handles(s, m) == queued + |HeldBy(s.procs, |s.procs|, m, false)|
            && LiveJobs(s, m) == queued + |HeldBy(s.procs, |s.procs|, m, true)|
  {
    QueuedIsCounted(s.inbox, m);
    QueuedIsCounted(s.outbox, m);
    HeldIsCounted(s.procs, |s.procs|, m);
  }

  // ---- events ----

  /** Where the log's first n events say e, with none of the resetting event after it. */
  function Places(log: seq<Event>, n: nat, e: Event, reset: set<Event>): set<nat>
    requires n <= |log|
  {
    set k: nat | k < n && log[k] == e && forall x <- log[k..n] :: x !in reset
  }

  lemma PlacesNext(log: seq<Event>, n: nat, e: Event, reset: set<Event>)
    requires 0 < n <= |log| && e !in reset
    ensures |Places(log, n, e, reset)|
         == if log[n - 1] in reset then 0
            else |Places(log, n - 1, e, reset)| + if log[n - 1] == e then 1 else 0
  {
    var now, before := Places(log, n, e, reset), Places(log, n - 1, e, reset);
    forall k: nat | k < n - 1
      ensures log[k..n] == log[k..n - 1] + [log[n - 1]]
    {
    }
    assert log[n - 1..n] == [log[n - 1]];
    if log[n - 1] in reset {
      assert now == {};
    } else {
      assert now == before + if log[n - 1] == e then {n - 1} else {};
    }
  }

  /** Events of each kind, of the process lifetime or since the last sweep where they are counted so. */
  lemma {:induction false} PastIsCounted(log: seq<Event>, n: nat, m: MsgId)
    requires n <= |log|
    ensures var past := PastTo(log, n, m);
            && past.inserted == |Places(log, n, Inserted(m), {})|
            && past.replies == |Places(log, n, ReplyQueued(m), {})|
            && past.dequeues == |Places(log, n, Dequeued(m), {})|
            && past.wins == |Places(log, n, Succeeded(m), {})|
            && past.taken == |Places(log, n, Dequeued(m), {Booted})|
            && past.pushes == |Places(log, n, AdminPushed(m), {Booted})|
            && past.reopened == |Places(log, n, Retried(m), {Swept})|
  {
    if n > 0 {
      PastIsCounted(log, n - 1, m);
      PlacesNext(log, n, Inserted(m), {});
      PlacesNext(log, n, ReplyQueued(m), {});
      PlacesNext(log, n, Dequeued(m), {});
      PlacesNext(log, n, Succeeded(m), {});
      PlacesNext(log, n, Dequeued(m), {Booted});
      PlacesNext(log, n, AdminPushed(m), {Booted});
      PlacesNext(log, n, Retried(m), {Swept});
    }
  }
}
