/** The retry loop as a function of what its attempts return, and what a job's
    gateway answers decide about its row. */
module Retry {
  import opened Wrappers
  import opened Errors
  import opened Engine

  datatype LoopEnd = LoopEnd(result: Outcome, calls: nat)

  /** A failed attempt that the loop does not give up on. */
  predicate Again(result: Outcome) {
    result.Failure? && IsRetriable(result.err)
  }

  /** runRetryLoop from attempt i on: `attempt(i)` is what call i returns, `ctx(i)` is
      ctx.Err() if the context ends while backoff i runs. */
  function RetryFrom(n: nat, i: nat, attempt: nat -> Outcome, ctx: nat -> Option<Err>): LoopEnd
    requires i <= n
    decreases n - i
  {
    var result := attempt(i);
    if !Again(result) || i == n then LoopEnd(result, i + 1)
    else if ctx(i).Some? then LoopEnd(Failure(ctx(i).value), i + 1)
    else RetryFrom(n, i + 1, attempt, ctx)
  }

  /** What is left of the loop after i attempts, all of which failed retriably. */
  function RetryHead(n: nat, i: nat, attempt: nat -> Outcome, ctx: nat -> Option<Err>): LoopEnd
    requires i <= n + 1
  {
    if i == 0 then RetryFrom(n, 0, attempt, ctx)
    else if i == n + 1 then LoopEnd(attempt(i - 1), i)
    else if ctx(i - 1).Some? then LoopEnd(Failure(ctx(i - 1).value), i)
    else RetryFrom(n, i, attempt, ctx)
  }

  lemma RetryHeadNext(n: nat, i: nat, attempt: nat -> Outcome, ctx: nat -> Option<Err>)
    requires i <= n && (i > 0 ==> ctx(i - 1).None?)
    ensures RetryHead(n, i, attempt, ctx)
         == if Again(attempt(i)) then RetryHead(n, i + 1, attempt, ctx) else LoopEnd(attempt(i), i + 1)
  {
  }

  function RetrySpec(attempt: nat -> Outcome, ctx: nat -> Option<Err>): LoopEnd {
    RetryFrom(RETRIES, 0, attempt, ctx)
  }

  /** The loop makes attempt i + 1. */
  predicate Continues(n: nat, i: nat, attempt: nat -> Outcome, ctx: nat -> Option<Err>) {
    i < n && Again(attempt(i)) && ctx(i).None?
  }

  /** The loop ends after attempt i, with this result. */
  predicate Stops(n: nat, i: nat, attempt: nat -> Outcome, ctx: nat -> Option<Err>, result: Outcome) {
    || ((i == n || !Again(attempt(i))) && result == attempt(i))
    || (i < n && Again(attempt(i)) && ctx(i).Some? && result == Failure(ctx(i).value))
  }

  /** The loop ends with `end` exactly when every attempt but the last of end.calls
      failed retriably and outlived its backoff, and that last one ends it: by
      success, by an error with a fatal link, by being the last, or by cancellation. */
  lemma RetryEnds(n: nat, attempt: nat -> Outcome, ctx: nat -> Option<Err>, end: LoopEnd)
    ensures end == RetryFrom(n, 0, attempt, ctx) <==> Ends(n, attempt, ctx, end)
  {
    RetryShape(n, 0, attempt, ctx);
    if Ends(n, attempt, ctx, end) {
      NotLater(n, attempt, ctx, end, RetryFrom(n, 0, attempt, ctx));
      NotLater(n, attempt, ctx, RetryFrom(n, 0, attempt, ctx), end);
    }
  }

  predicate Ends(n: nat, attempt: nat -> Outcome, ctx: nat -> Option<Err>, end: LoopEnd) {
    && 1 <= end.calls <= n + 1
    && (forall j | 0 <= j < end.calls - 1 :: Continues(n, j, attempt, ctx))
    && Stops(n, end.calls - 1, attempt, ctx, end.result)
  }

  lemma StopsThere(n: nat, i: nat, attempt: nat -> Outcome, ctx: nat -> Option<Err>, result: Outcome)
    requires Stops(n, i, attempt, ctx, result)
    ensures !Continues(n, i, attempt, ctx)
  {
  }

  lemma NotLater(n: nat, attempt: nat -> Outcome, ctx: nat -> Option<Err>, a: LoopEnd, b: LoopEnd)
    requires Ends(n, attempt, ctx, a) && Ends(n, attempt, ctx, b)
    ensures b.calls <= a.calls
  {
    StopsThere(n, a.calls - 1, attempt, ctx, a.result);
  }

  lemma {:induction false} RetryShape(n: nat, i: nat, attempt: nat -> Outcome, ctx: nat -> Option<Err>)
    requires i <= n
    ensures var end := RetryFrom(n, i, attempt, ctx);
            && i + 1 <= end.calls <= n + 1
            && (forall j | i <= j < end.calls - 1 :: Continues(n, j, attempt, ctx))
            && Stops(n, end.calls - 1, attempt, ctx, end.result)
    decreases n - i
  {
    if Continues(n, i, attempt, ctx) {
      RetryShape(n, i + 1, attempt, ctx);
    }
  }

  // ---- the waits ----

  type Fraction = u: real | 0.0 <= u < 1.0

  /** jitterBackoff for the random number u, over the reals and truncated. */
  function Jitter(d: int, u: Fraction): nat {
    if d <= 0 then 0
    else
      ProductBounds(d as real, u * 0.5);
      ((d as real) * (0.75 + u * 0.5)).Floor
  }

  /** The first k durations together. */
  function Total(durations: seq<nat>, k: nat): nat
    requires k <= |durations|
  {
    if k == 0 then 0 else Total(durations, k - 1) + durations[k - 1]
  }

  /** The waits drawn for the backoffs. */
  predicate AreJittered(backoffs: seq<nat>, us: seq<Fraction>, waits: seq<nat>) {
    |waits| == |backoffs| == |us| && forall i | 0 <= i < |waits| :: waits[i] == Jitter(backoffs[i], us[i])
  }

  lemma ProductBounds(x: real, y: real)
    requires 0.0 <= x && 0.0 <= y <= 0.5
    ensures 0.0 <= x * y <= x * 0.5
    ensures x * (0.75 + y) == x * 0.75 + x * y
  {
  }

  lemma JitterBounds(d: nat, u: Fraction)
    ensures 3 * d - 4 <= 4 * Jitter(d, u) <= 5 * d
  {
    var x := d as real;
    var exact := x * (0.75 + u * 0.5);
    ProductBounds(x, u * 0.5);
    assert 0.75 * x <= exact <= 1.25 * x;
    if d > 0 {
      Truncation(d, exact);
    }
  }

  lemma Truncation(d: nat, exact: real)
    requires 0.75 * (d as real) <= exact <= 1.25 * (d as real)
    ensures 3 * d - 4 <= 4 * exact.Floor <= 5 * d
  {
  }

  /** The first k waits together take between three quarters and five quarters of
      their backoffs, but for less than one time unit each that truncation drops. */
  lemma {:induction false} TotalWaitBounds(backoffs: seq<nat>, us: seq<Fraction>, waits: seq<nat>, k: nat)
    requires AreJittered(backoffs, us, waits) && k <= |waits|
    ensures 3 * Total(backoffs, k) - 4 * k <= 4 * Total(waits, k) <= 5 * Total(backoffs, k)
  {
    if k > 0 {
      TotalWaitBounds(backoffs, us, waits, k - 1);
      JitterBounds(backoffs[k - 1], us[k - 1]);
    }
  }

  /** Every wait from three quarters of the duration up to, but not including, five quarters can be drawn. */
  lemma JitterReaches(d: nat, w: nat) returns (u: Fraction)
    requires d > 0 && 3 * d <= 4 * w < 5 * d
    ensures Jitter(d, u) == w
  {
    var share := Share(d, w);
    u := (share - 0.75) * 2.0;
    assert share == 0.75 + u * 0.5;
  }

  lemma Share(d: nat, w: nat) returns (share: real)
    requires d > 0 && 3 * d <= 4 * w < 5 * d
    ensures 0.75 <= share < 1.25 && (d as real) * share == w as real
  {
    share := w as real / d as real;
    assert 3.0 * (d as real) == (3 * d) as real && 5.0 * (d as real) == (5 * d) as real;
    FactorBounds(d as real, share, w as real);
  }

  lemma FactorBounds(x: real, share: real, y: real)
    requires x > 0.0 && x * share == y && 3.0 * x <= 4.0 * y < 5.0 * x
    ensures 0.75 <= share < 1.25
  {
    assert x * (share - 0.75) >= 0.0;
    assert x * (1.25 - share) > 0.0;
  }

  /** retryBackoff, in nanoseconds. */
  const RETRY_BACKOFF: seq<nat> := [1_000_000_000, 5_000_000_000, 30_000_000_000]

  /** The waits of a whole job take from 27 to 45 seconds, but for truncation. */
  lemma WaitsOfAJob(us: seq<Fraction>, waits: seq<nat>)
    requires AreJittered(RETRY_BACKOFF, us, waits)
    ensures |waits| == RETRIES && 26_999_999_997 <= Total(waits, 3) <= 45_000_000_000
  {
    TotalWaitBounds(RETRY_BACKOFF, us, waits, 3);
    assert Total(RETRY_BACKOFF, 3) == 36_000_000_000;
  }

  // ---- from gateway answers to the row ----

  /** How one exchange ends: refused before any request, as by a key that does not
      decrypt; without a response, because the context ended or for another reason; or
      with a status, the gateway's error code and a body that is usable or not. */
  datatype Response =
    | NotAsked(text: string)
    | NoAnswer(contextEnded: bool, text: string)
    | Answer(status: int, code: string, usable: bool)

  /** Whose rules judge an exchange: the database's; classifyHTTP's, by the status; or
      classifyWablast's, by the error code too, where relayOutbound may follow or not.
      The body counts where something is read from it. */
  datatype Rules =
    | Database
    | ByStatus(needsBody: bool)
    | ByCode(needsBody: bool, relayed: bool)

  datatype Exchange = Exchange(rules: Rules, answer: Response)

  function Temporary(text: string): Outcome {
    Failure(Retriable(Base(Plain, text)))
  }

  /** httpClient.Do's error, or the database's, which nobody wraps. */
  function TransportError(rules: Rules, contextEnded: bool, text: string): Outcome {
    var base := Base(if contextEnded then DeadlineExceeded else Plain, text);
    Failure(if rules.Database? then base else Retriable(base))
  }

  /** classifyHTTP. */
  function ClassifyHTTP(status: int): Outcome {
    if status >= 500 then Temporary("5xx")
    else if status >= 400 then Failure(Fatal(Base(Plain, "4xx")))
    else Nil
  }

  predicate TransientCode(code: string) {
    code == "META_RATE_LIMIT" || code == "TIER_DAILY_CAP_REACHED" || code == "ACCOUNT_TOKEN_INVALID"
  }

  /** classifyWablast, for statuses from 400. Where no relay follows, a closed window is an error like any other. */
  function ClassifyWablast(status: int, code: string, relayed: bool): Outcome {
    if status < 400 then Nil
    else if code == "WINDOW_CLOSED" then Failure(Base(if relayed then WindowClosed else Plain, "closed"))
    else if TransientCode(code) || status >= 500 || status == 429 then Temporary("retry")
    else Failure(Fatal(Base(Plain, "refused")))
  }

  function ClassifyAnswer(rules: Rules, status: int, code: string): Outcome {
    match rules
    case Database => Nil
    case ByStatus(_) => ClassifyHTTP(status)
    case ByCode(_, relayed) => ClassifyWablast(status, code, relayed)
  }

  predicate NeedsBody(rules: Rules) {
    !rules.Database? && rules.needsBody
  }

  function Classify(x: Exchange): Outcome {
    match x.answer
    case NotAsked(text) => Failure(Fatal(Base(Plain, text)))
    case NoAnswer(contextEnded, text) => TransportError(x.rules, contextEnded, text)
    case Answer(status, code, usable) =>
      var result := ClassifyAnswer(x.rules, status, code);
      if result == Nil && NeedsBody(x.rules) && !usable then Temporary("body") else result
  }

  /** relayOutbound: a closed window is not retried. */
  function Relay(sent: Outcome): Outcome {
    if sent.Failure? && IsWindowClosed(sent.err) then Failure(Fatal(sent.err)) else sent
  }

  /** What one attempt returns if this exchange ends it. */
  function SendOutcome(x: Exchange): Outcome {
    Relay(Classify(x))
  }

  /** The exchange went through, with what is needed of it. */
  predicate Accepted(x: Exchange) {
    && x.answer.Answer?
    && (x.rules.Database? || (x.answer.status < 400 && (x.rules.needsBody ==> x.answer.usable)))
  }

  /** The answers after which the same message is tried again. */
  predicate Transient(x: Exchange) {
    match x.answer
    case NotAsked(_) => false
    case NoAnswer(_, _) => true
    case Answer(status, code, usable) =>
      match x.rules
      case Database => false
      case ByStatus(needsBody) => status >= 500 || (status < 400 && needsBody && !usable)
      case ByCode(needsBody, relayed) =>
        if status < 400 then needsBody && !usable
        else if code == "WINDOW_CLOSED" then !relayed
        else TransientCode(code) || status >= 500 || status == 429
  }

  /** What becomes of the row. */
  datatype Fate = MarkedDone | MarkedFailed | LeftUnmarked

  function FateOf(result: Outcome): Fate {
    match result
    case Nil => MarkedDone
    case Failure(err) => if IsContextError(err) then LeftUnmarked else MarkedFailed
  }

  predicate TimedOut(x: Exchange) {
    x.answer.NoAnswer? && x.answer.contextEnded
  }

  /** Answer k - 1 is the last: all before it are transient and are followed by a backoff
      that runs out, and it is not, or it is the fourth. */
  predicate Decides(answers: nat -> Exchange, ctx: nat -> Option<Err>, k: nat) {
    && 1 <= k <= RETRIES + 1
    && (forall j | 0 <= j < k - 1 :: Transient(answers(j)) && ctx(j).None?)
    && (k <= RETRIES ==> !Transient(answers(k - 1)) || ctx(k - 1).Some?)
  }

  function RowFate(x: Exchange): Fate {
    if Accepted(x) then MarkedDone else if TimedOut(x) then LeftUnmarked else MarkedFailed
  }

  /** What the last answer calls for; a transient one that is not the fourth was cut off in its backoff. */
  function FateAfter(x: Exchange, k: nat): Fate {
    if k <= RETRIES && Transient(x) then LeftUnmarked else RowFate(x)
  }

  lemma AnswerClasses(x: Exchange)
    ensures Again(SendOutcome(x)) <==> Transient(x)
    ensures FateOf(SendOutcome(x)) == RowFate(x)
  {
    if Classify(x).Failure? {
      WrapperFacts(Classify(x).err);
      WrapperFacts(SendOutcome(x).err);
    }
  }

  /** The same, answer by answer. */
  lemma AnswerByAnswer(x: Exchange)
    ensures match x.answer
      case NotAsked(_) => !Again(SendOutcome(x)) && FateOf(SendOutcome(x)) == MarkedFailed
      case NoAnswer(ended, _) =>
        Again(SendOutcome(x)) && FateOf(SendOutcome(x)) == if ended then LeftUnmarked else MarkedFailed
      case Answer(status, code, usable) =>
        match x.rules
        case Database => SendOutcome(x) == Nil
        case ByStatus(needsBody) =>
          && (SendOutcome(x) == Nil <==> status < 400 && (needsBody ==> usable))
          && (SendOutcome(x) != Nil ==> FateOf(SendOutcome(x)) == MarkedFailed)
          && (Again(SendOutcome(x)) <==> status >= 500 || (status < 400 && needsBody && !usable))
        case ByCode(needsBody, relayed) =>
          && (SendOutcome(x) == Nil <==> status < 400 && (needsBody ==> usable))
          && (SendOutcome(x) != Nil ==> FateOf(SendOutcome(x)) == MarkedFailed)
          && (Again(SendOutcome(x)) <==>
                || (status < 400 && needsBody && !usable)
                || (status >= 400 && code == "WINDOW_CLOSED" && !relayed)
                || (status >= 400 && code != "WINDOW_CLOSED" && (status == 429 || status >= 500))
                || (status >= 400
                    && code in ["META_RATE_LIMIT", "TIER_DAILY_CAP_REACHED", "ACCOUNT_TOKEN_INVALID"]))
  {
    AnswerClasses(x);
    assert "WINDOW_CLOSED"[0] != "META_RATE_LIMIT"[0];
    assert "WINDOW_CLOSED"[0] != "TIER_DAILY_CAP_REACHED"[0];
    assert "WINDOW_CLOSED"[0] != "ACCOUNT_TOKEN_INVALID"[0];
  }

  /** At most two wrappers deep, as every error above is. */
  lemma WrapperFacts(err: Err)
    ensures err.Base? ==> Root(err) == err.kind && IsRetriable(err)
    ensures err.Retriable? && err.inner.Base? ==> Root(err) == err.inner.kind && IsRetriable(err)
    ensures err.Fatal? && err.inner.Base? ==> Root(err) == err.inner.kind && !IsRetriable(err)
  {
  }

  function Attempts(answers: nat -> Exchange): nat -> Outcome {
    (i: nat) => SendOutcome(answers(i))
  }

  lemma DecidesOnce(answers: nat -> Exchange, ctx: nat -> Option<Err>, k: nat, k': nat)
    requires Decides(answers, ctx, k) && Decides(answers, ctx, k')
    ensures k <= k'
  {
  }

  /** The loop's end is the answer that decides. */
  lemma EndDecides(answers: nat -> Exchange, ctx: nat -> Option<Err>)
    requires forall i: nat :: ctx(i).Some? ==> IsContextError(ctx(i).value)
    ensures var end := RetrySpec(Attempts(answers), ctx);
            && Decides(answers, ctx, end.calls)
            && FateOf(end.result) == FateAfter(answers(end.calls - 1), end.calls)
  {
    var attempt := Attempts(answers);
    var end := RetrySpec(attempt, ctx);
    RetryEnds(RETRIES, attempt, ctx, end);
    forall j | 0 <= j < end.calls - 1
      ensures Transient(answers(j)) && ctx(j).None?
    {
      assert Continues(RETRIES, j, attempt, ctx);
      AnswerClasses(answers(j));
    }
    AnswerClasses(answers(end.calls - 1));
  }

  /** A message is attempted k times and meets the given fate exactly when answer k is the
      first that is not transient, or the fourth, or the one whose backoff was cut off, and
      the fate is what that calls for: acceptance, refusal or an unmarked row. */
  lemma AnswersDecideTheRow(answers: nat -> Exchange, ctx: nat -> Option<Err>, fate: Fate, k: nat)
    requires forall i: nat :: ctx(i).Some? ==> IsContextError(ctx(i).value)
    ensures var end := RetrySpec(Attempts(answers), ctx);
            (end.calls == k && FateOf(end.result) == fate)
            <==> (Decides(answers, ctx, k) && fate == FateAfter(answers(k - 1), k))
  {
    EndDecides(answers, ctx);
    var end := RetrySpec(Attempts(answers), ctx);
    if Decides(answers, ctx, k) {
      DecidesOnce(answers, ctx, k, end.calls);
      DecidesOnce(answers, ctx, end.calls, k);
    }
  }

  /** A job that only meets transient answers, and is never cut off, makes four attempts and fails. */
  lemma AllTransient(answers: nat -> Exchange, ctx: nat -> Option<Err>)
    requires forall i: nat :: Again(SendOutcome(answers(i))) && ctx(i).None?
    ensures var end := RetrySpec(Attempts(answers), ctx);
            end.calls == 4 && end.result == SendOutcome(answers(3))
  {
    var end := LoopEnd(SendOutcome(answers(3)), 4);
    RetryEnds(RETRIES, Attempts(answers), ctx, end);
  }

  /** The loop goes by what its attempts return and nothing else. */
  lemma {:induction false} RetryAgrees(n: nat, i: nat, f: nat -> Outcome, g: nat -> Outcome, ctx: nat -> Option<Err>)
    requires i <= n && forall j: nat :: f(j) == g(j)
    ensures RetryFrom(n, i, f, ctx) == RetryFrom(n, i, g, ctx)
    decreases n - i
  {
    if i < n {
      RetryAgrees(n, i + 1, f, g, ctx);
    }
  }
}
