/** From HTTP answers to rows: every exchange an outbound job makes, with the database, the
    gateway and the servers that hold its media, for text and for any number of attachments. */
module GatewayJobs {
  import opened Wrappers
  import opened Errors
  import opened Messages
  import opened Engine
  import opened Retry
  import opened Exchanges
  import opened Outbound
  import opened OutboundTraces
  import opened HandlerRuns

  // ---- the exchanges of one send ----

  const DOWNLOAD := ByStatus(true)        // downloadPublicURL, whose body is the file
  const UPLOAD := ByCode(true, true)      // uploadMedia, whose body holds the media id
  const POST := ByCode(false, true)       // postJSON, whose body is not read

  /** What WaBlast's SendMedia asks: for the file, for a media id, and for the message. */
  function MediaExchanges(download: Response, upload: Response, post: Response): seq<Exchange> {
    [Exchange(DOWNLOAD, download)] + ([Exchange(UPLOAD, upload)] + [Exchange(POST, post)])
  }

  /** WaBlast's SendMedia stops at its first error. */
  method SendMedia(download: Response, upload: Response, post: Response) returns (r: Outcome)
    ensures r == Walk(MediaExchanges(download, upload, post))
    ensures var file, id, message := Exchange(ByStatus(true), download), Exchange(ByCode(true, true), upload),
                                     Exchange(ByCode(false, true), post);
            && (r == Nil <==> Accepted(file) && Accepted(id) && Accepted(message))
            && (!Accepted(file) ==> r == Classify(file))
            && (Accepted(file) && !Accepted(id) ==> r == Classify(id))
            && (Accepted(file) && Accepted(id) && !Accepted(message) ==> r == Classify(message))
  {
    AcceptedIsNil(Exchange(DOWNLOAD, download));
    AcceptedIsNil(Exchange(UPLOAD, upload));
    AcceptedIsNil(Exchange(POST, post));
    WalkOn(Exchange(DOWNLOAD, download), [Exchange(UPLOAD, upload)] + [Exchange(POST, post)]);
    WalkOn(Exchange(UPLOAD, upload), [Exchange(POST, post)]);
    r := Classify(Exchange(DOWNLOAD, download));
    if r.Failure? {
      return;
    }
    r := UploadMedia(upload);
    if r.Failure? {
      return;
    }
    r := Classify(Exchange(POST, post));
  }

  /** uploadMedia: an answer below 400 without a media id is retried like a failing server. */
  method UploadMedia(upload: Response) returns (r: Outcome)
    ensures r == Classify(Exchange(UPLOAD, upload))
    ensures r == Nil <==> upload.Answer? && upload.status < 400 && upload.usable
    ensures upload.Answer? && upload.status < 400 && !upload.usable ==> Again(r)
  {
    match upload {
      case NotAsked(text) =>
        r := Failure(Fatal(Base(Plain, text)));
      case NoAnswer(contextEnded, text) =>
        r := Failure(Retriable(Base(if contextEnded then DeadlineExceeded else Plain, text)));
      case Answer(status, code, usable) =>
        if status >= 400 {
          return ClassifyWablast(status, code, true);
        }
        r := if usable then Nil else Temporary("body");
    }
    if r.Failure? {
      WrapperFacts(r.err);
    }
  }

  // ---- the calls of one attempt ----

  /** A payload that parses, with a recipient and something to send. */
  predicate Relayable(p: CwPayload) {
    p.CwMessage? && Sendable(p)
  }

  /** processOutbound's calls: the tenant lookup, and then one send for a text or one for
      each attachment kept, or the refusal of the payload. */
  function Calls(p: CwPayload): nat {
    if !Relayable(p) || Kept(p.attachments) == [] then 2 else 1 + |Kept(p.attachments)|
  }

  function Refusal(p: CwPayload): Exchange {
    Exchange(ByStatus(false), NotAsked(if p.Malformed? then "json" else "missing"))
  }

  /** The attempt meets these exchanges. */
  predicate Meets(p: CwPayload, env: Answers, calls: nat -> seq<Exchange>) {
    && |calls(0)| == 1 && calls(0)[0].rules == Database && env.tenant == Classify(calls(0)[0])
    && (if Relayable(p)
        then forall k | 1 <= k < Calls(p) :: calls(k) != [] && env.sends(k - 1) == Walk(calls(k))
        else calls(1) == [Refusal(p)])
  }

  /** The attachment loop runs through accepted sends. */
  lemma {:induction false} SendsUpTo(p: CwPayload, sends: nat -> Outcome, i: nat, k: nat)
    requires p.CwMessage? && i <= k <= |Kept(p.attachments)| && forall j | i <= j < k :: sends(j) == Nil
    ensures SendFrom(p, i, sends).result == SendFrom(p, k, sends).result
    decreases k - i
  {
    if i < k {
      SendsUpTo(p, sends, i + 1, k);
    }
  }

  lemma AttemptEndsHere(p: CwPayload, env: Answers, calls: nat -> seq<Exchange>, k: nat, d: nat)
    requires Relayable(p) && Meets(p, env, calls) && EndsAttempt(Calls(p), calls, k, d) && k > 0
    ensures OutboundSpec(p, env).result == SendOutcome(calls(k)[d])
  {
    assert calls(0)[0] in calls(0);
    AcceptedIsNil(calls(0)[0]);
    AcceptedIsNil(calls(k)[d]);
    WalkEnds(calls(k), d);
    if Kept(p.attachments) != [] {
      forall j | 0 <= j < k - 1
        ensures env.sends(j) == Nil
      {
        AcceptedWalk(calls(j + 1));
      }
      SendsUpTo(p, env.sends, 0, k - 1);
    }
  }

  /** An attempt returns what its decisive exchange calls for. */
  lemma AttemptGoesByDecisive(p: CwPayload, env: Answers, calls: nat -> seq<Exchange>, x: Exchange)
    requires Meets(p, env, calls) && Decisive(Calls(p), calls, x)
    ensures OutboundSpec(p, env).result == SendOutcome(x)
  {
    var k: nat, d: nat :| EndsAttempt(Calls(p), calls, k, d) && calls(k)[d] == x;
    if k > 0 && Relayable(p) {
      AttemptEndsHere(p, env, calls, k, d);
    } else {
      assert calls(0)[0] in calls(0);
      AcceptedIsNil(calls(0)[0]);
      assert d == 0 && Classify(x).Failure?;
      WrapperFacts(Classify(x).err);
    }
  }

  // ---- a whole job ----

  /** Attempt i meets exchanges(i), of which decisive(i) decides. */
  ghost predicate JobMeets(p: CwPayload, envs: nat -> Answers,
                           exchanges: nat -> nat -> seq<Exchange>, decisive: nat -> Exchange)
  {
    forall i: nat :: Meets(p, envs(i), exchanges(i)) && Decisive(Calls(p), exchanges(i), decisive(i))
  }

  lemma JobGoesByDecisive(p: CwPayload, envs: nat -> Answers, exchanges: nat -> nat -> seq<Exchange>,
                          decisive: nat -> Exchange, ctx: nat -> Option<Err>)
    requires JobMeets(p, envs, exchanges, decisive)
    ensures JobEnd(p, envs, ctx) == RetrySpec(Attempts(decisive), ctx)
  {
    forall i: nat
      ensures JobAttempts(p, envs)(i) == Attempts(decisive)(i)
    {
      assert Meets(p, envs(i), exchanges(i));
      AttemptGoesByDecisive(p, envs(i), exchanges(i), decisive(i));
    }
    RetryAgrees(RETRIES, 0, JobAttempts(p, envs), Attempts(decisive), ctx);
  }

  /** End to end, for every payload, over either gateway: in each attempt the first exchange
      that is not accepted decides, or the last; the job makes k attempts and its row meets
      the given fate exactly when the decisive exchange of attempt k is the first that is
      not transient, the fourth, or cut off in its backoff. */
  lemma ExchangesDecideTheJob(p: CwPayload, envs: nat -> Answers, exchanges: nat -> nat -> seq<Exchange>,
                              decisive: nat -> Exchange, ctx: nat -> Option<Err>, fate: Fate, k: nat)
    requires JobMeets(p, envs, exchanges, decisive)
    requires forall i: nat :: ctx(i).Some? ==> IsContextError(ctx(i).value)
    ensures var end := JobEnd(p, envs, ctx);
            (end.calls == k && FateOf(end.result) == fate)
            <==> (Decides(decisive, ctx, k) && fate == FateAfter(decisive(k - 1), k))
  {
    JobGoesByDecisive(p, envs, exchanges, decisive, ctx);
    AnswersDecideTheRow(decisive, ctx, fate, k);
  }

  /** And so the table: the job's row has k more attempts and the status called for. */
  lemma ExchangesDecideTheTable(p: CwPayload, envs: nat -> Answers, exchanges: nat -> nat -> seq<Exchange>,
                                decisive: nat -> Exchange, ctx: nat -> Option<Err>, k: nat,
                                t: Table, id: MsgId, dbs: nat -> Db, dbMark: Db)
    requires JobMeets(p, envs, exchanges, decisive)
    requires forall i: nat :: ctx(i).Some? ==> IsContextError(ctx(i).value)
    requires Decides(decisive, ctx, k)
    requires id in t && t[id].attempts + k <= MAX_SMALLINT
    requires (forall j | 0 <= j < k :: dbs(j) != Refused) && dbMark != Refused
    ensures var t' := JobTable(t, id, JobAttempts(p, envs), ctx, dbs, dbMark);
            && t'.Keys == t.Keys && (forall m <- t | m != id :: t'[m] == t[m])
            && t'[id].attempts == t[id].attempts + k
            && t'[id].status == StatusAfter(FateAfter(decisive(k - 1), k), t[id].status)
  {
    JobGoesByDecisive(p, envs, exchanges, decisive, ctx);
    AnswersDecideTheTable(decisive, ctx, k, t, id, dbs, dbMark);
  }

  /** A payload that does not parse, or has no recipient or nothing to send, costs one attempt and has no effect. */
  lemma UnsendableFailsAtOnce(p: CwPayload, envs: nat -> Answers, ctx: nat -> Option<Err>)
    requires envs(0).tenant == Nil && !Relayable(p)
    ensures JobEnd(p, envs, ctx).calls == 1 && FateOf(JobEnd(p, envs, ctx).result) == MarkedFailed
    ensures JobTrace(p, envs, ctx) == []
  {
    var result := JobAttempts(p, envs)(0);
    WrapperFacts(result.err);
    assert JobEffects(p, envs, 1) == JobEffects(p, envs, 0) + OutboundSpec(p, envs(0)).effects;
  }
}
