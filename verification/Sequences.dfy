/** Facts about sequences of facts. */
module Sequences {

  /** What holds at first, and from one point to the next unless the step between them
      breaks it, holds up to a point exactly when no step before it breaks it. */
  lemma {:induction false} HoldsUntilBroken(holds: seq<bool>, breaks: seq<bool>, n: nat)
    requires |holds| == |breaks| + 1 && n <= |breaks| && holds[0]
    requires forall k | 0 <= k < |breaks| && holds[k] :: holds[k + 1] <==> !breaks[k]
    ensures (forall k | 0 <= k <= n :: holds[k]) <==> (forall k | 0 <= k < n :: !breaks[k])
  {
    if n > 0 {
      HoldsUntilBroken(holds, breaks, n - 1);
      assert holds[n - 1] ==> (holds[n] <==> !breaks[n - 1]);
    }
  }
}
