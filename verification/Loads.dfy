/** Sums of loads: what the goroutines holding a message amount to together. */
module Loads {

  /** How many goroutines of a message stand where, the attempts they may still
      count, and how many of them are about to mark it done. */
  datatype Load = Load(intake: nat, rejecting: nat, requeued: nat, running: nat, budget: nat, winners: nat) {
    function Plus(o: Load): Load {
      Load(intake + o.intake, rejecting + o.rejecting, requeued + o.requeued,
           running + o.running, budget + o.budget, winners + o.winners)
    }

    predicate Covers(o: Load) {
      && intake >= o.intake && rejecting >= o.rejecting && requeued >= o.requeued
      && running >= o.running && budget >= o.budget && winners >= o.winners
    }

    function Minus(o: Load): Load
      requires Covers(o)
    {
      Load(intake - o.intake, rejecting - o.rejecting, requeued - o.requeued,
           running - o.running, budget - o.budget, winners - o.winners)
    }

    /** Nobody holds the message. */
    predicate Unheld() {
      intake <= 0 && rejecting <= 0 && requeued <= 0 && running <= 0
    }

    predicate Idle() {
      Unheld() && budget <= 0 && winners <= 0
    }

    function Holders(): nat {
      intake + rejecting + requeued + running
    }
  }

  const NOBODY := Load(0, 0, 0, 0, 0, 0)

  /** The sum of the first n loads. */
  function SumTo(xs: seq<Load>, n: nat): Load
    requires n <= |xs|
  {
    if n == 0 then NOBODY else SumTo(xs, n - 1).Plus(xs[n - 1])
  }

  function Sum(xs: seq<Load>): Load {
    SumTo(xs, |xs|)
  }

  lemma {:induction false} SumAgrees(xs: seq<Load>, ys: seq<Load>, n: nat)
    requires n <= |xs| && n <= |ys|
    requires forall k | 0 <= k < n :: xs[k] == ys[k]
    ensures SumTo(xs, n) == SumTo(ys, n)
  {
    if n > 0 {
      SumAgrees(xs, ys, n - 1);
    }
  }

  lemma SumPush(xs: seq<Load>, x: Load)
    ensures Sum(xs + [x]) == Sum(xs).Plus(x)
  {
    SumAgrees(xs + [x], xs, |xs|);
  }

  /** Leaving element i out of the first n, and putting `x` in its place. */
  lemma {:induction false} SumReplace(xs: seq<Load>, i: nat, x: Load, n: nat)
    requires i < n <= |xs|
    ensures SumTo(xs, n).Covers(xs[i])
    ensures SumTo(xs[i := x], n) == SumTo(xs, n).Minus(xs[i]).Plus(x)
  {
    if n == i + 1 {
      SumAgrees(xs[i := x], xs, i);
    } else {
      SumReplace(xs, i, x, n - 1);
    }
  }

  lemma {:induction false} SumSkip(xs: seq<Load>, ys: seq<Load>, i: nat, n: nat)
    requires i < n <= |xs| && |ys| == |xs| - 1
    requires forall k | 0 <= k < i :: ys[k] == xs[k]
    requires forall k | i <= k < |ys| :: ys[k] == xs[k + 1]
    ensures SumTo(xs, n).Covers(xs[i])
    ensures SumTo(ys, n - 1) == SumTo(xs, n).Minus(xs[i])
  {
    if n == i + 1 {
      SumAgrees(xs, ys, i);
    } else {
      SumSkip(xs, ys, i, n - 1);
    }
  }

  lemma SumRemove(xs: seq<Load>, i: nat)
    requires i < |xs|
    ensures Sum(xs).Covers(xs[i])
    ensures Sum(xs[..i] + xs[i + 1..]) == Sum(xs).Minus(xs[i])
  {
    SumSkip(xs, xs[..i] + xs[i + 1..], i, |xs|);
  }

  lemma SumUpdate(xs: seq<Load>, i: nat, x: Load)
    requires i < |xs|
    ensures Sum(xs).Covers(xs[i])
    ensures Sum(xs[i := x]) == Sum(xs).Minus(xs[i]).Plus(x)
  {
    SumReplace(xs, i, x, |xs|);
  }
}
