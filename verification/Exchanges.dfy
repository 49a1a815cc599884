/** Attempts as sequences of exchanges, of which one decides. */
module Exchanges {
  import opened Errors
  import opened Retry

  /** The first exchange that fails ends the call. */
  function Walk(xs: seq<Exchange>): Outcome
    requires xs != []
  {
    if |xs| == 1 || Classify(xs[0]).Failure? then Classify(xs[0]) else Walk(xs[1..])
  }

  /** A call that makes an exchange and goes on if it is accepted. */
  lemma WalkOn(x: Exchange, rest: seq<Exchange>)
    requires rest != []
    ensures Walk([x] + rest) == if Classify(x).Failure? then Classify(x) else Walk(rest)
    ensures Walk([x]) == Classify(x)
  {
    assert ([x] + rest)[1..] == rest;
  }

  lemma AcceptedIsNil(x: Exchange)
    ensures Accepted(x) <==> Classify(x) == Nil
  {
  }

  predicate AllAccepted(xs: seq<Exchange>) {
    forall x <- xs :: Accepted(x)
  }

  /** Exchange d ends the call: all before it were accepted, and it was not or is the last. */
  predicate EndsCall(xs: seq<Exchange>, d: nat) {
    && d < |xs| && AllAccepted(xs[..d])
    && (d < |xs| - 1 ==> !Accepted(xs[d]))
  }

  lemma {:induction false} WalkEnds(xs: seq<Exchange>, d: nat)
    requires EndsCall(xs, d)
    ensures Walk(xs) == Classify(xs[d])
    decreases |xs|
  {
    AcceptedIsNil(xs[0]);
    if d > 0 {
      assert xs[0] in xs[..d];
      assert xs[..d][1..] == xs[1..][..d - 1];
      WalkEnds(xs[1..], d - 1);
    }
  }

  lemma {:induction false} SomeExchangeEndsIt(xs: seq<Exchange>) returns (d: nat)
    requires xs != []
    ensures EndsCall(xs, d)
    decreases |xs|
  {
    if |xs| == 1 || !Accepted(xs[0]) {
      d := 0;
    } else {
      d := SomeExchangeEndsIt(xs[1..]);
      assert xs[..d + 1] == [xs[0]] + xs[1..][..d];
      d := d + 1;
    }
  }

  lemma {:induction false} AcceptedWalk(xs: seq<Exchange>)
    requires xs != [] && AllAccepted(xs)
    ensures Walk(xs) == Nil
  {
    var d: nat := |xs| - 1;
    assert xs[d] in xs;
    AcceptedIsNil(xs[d]);
    WalkEnds(xs, d);
  }

  // ---- calls in sequence ----

  /** Exchange d of call k ends the attempt: everything before it was accepted, and it was
      not or is the last of all. */
  predicate EndsAttempt(n: nat, calls: nat -> seq<Exchange>, k: nat, d: nat) {
    && k < n && (forall i | 0 <= i < k :: AllAccepted(calls(i)))
    && EndsCall(calls(k), d) && (k < n - 1 ==> !Accepted(calls(k)[d]))
  }

  ghost predicate Decisive(n: nat, calls: nat -> seq<Exchange>, x: Exchange) {
    exists k: nat, d: nat | EndsAttempt(n, calls, k, d) :: calls(k)[d] == x
  }

  /** Some exchange is decisive in every attempt. */
  lemma {:induction false} SomeExchangeIsDecisive(n: nat, calls: nat -> seq<Exchange>, k: nat) returns (x: Exchange)
    requires k < n && (forall i | 0 <= i < n :: calls(i) != []) && (forall i | 0 <= i < k :: AllAccepted(calls(i)))
    ensures Decisive(n, calls, x)
    decreases n - k
  {
    var d := SomeExchangeEndsIt(calls(k));
    if k < n - 1 && Accepted(calls(k)[d]) {
      assert calls(k) == calls(k)[..d] + [calls(k)[d]];
      x := SomeExchangeIsDecisive(n, calls, k + 1);
    } else {
      x := calls(k)[d];
      assert EndsAttempt(n, calls, k, d);
    }
  }
}
