/** From the exchanges of an inbound job, with the database, Chatwoot and the gateway that
    holds its media, to its row. */
module InboundJobs {
  import opened Wrappers
  import opened Errors
  import opened Messages
  import opened Engine
  import opened Retry
  import opened Exchanges
  import opened HandlerRuns

  const READ := ByStatus(true)     // a Chatwoot answer something is read from
  const WRITE := ByStatus(false)   // one nothing is read from

  /** What one attempt would be told at every place it may ask: whether the number is taken
      is read from the refusal of the contact; the media are the exchanges and checks that
      fetch the attachment, none for a text. */
  datatype Inbound = Inbound(
    tenant: Response, parse: Option<string>, cached: Response, hit: bool,
    contact: Response, taken: bool, search: Response, conversation: Response,
    upsert: Response, media: seq<Exchange>, post: Response)

  /** The contact is created, or searched for if its number is taken. */
  function ContactExchange(a: Inbound): Exchange {
    if a.taken && Classify(Exchange(READ, a.contact)).Failure? then Exchange(READ, a.search)
    else Exchange(READ, a.contact)
  }

  /** The end of processInbound, which posts the message. */
  function Posting(a: Inbound): seq<Exchange> {
    [Exchange(Database, a.upsert)] + (a.media + [Exchange(WRITE, a.post)])
  }

  /** Past the cache: a hit asks nothing of Chatwoot. */
  function Resolving(a: Inbound): seq<Exchange> {
    if a.hit then Posting(a)
    else [ContactExchange(a)] + ([Exchange(READ, a.conversation)] + Posting(a))
  }

  function Parsed(a: Inbound): seq<Exchange> {
    match a.parse
    case None => [Exchange(Database, a.cached)] + Resolving(a)
    case Some(text) => [Exchange(WRITE, NotAsked(text))]
  }

  /** The exchanges of one attempt, in order, up to the first that fails. */
  function Stages(a: Inbound): seq<Exchange> {
    [Exchange(Database, a.tenant)] + Parsed(a)
  }

  // ---- what comes of it, by the answers alone ----

  predicate Ok(rules: Rules, answer: Response) {
    Accepted(Exchange(rules, answer))
  }

  /** The tenant, the payload and the cache were read. */
  predicate Looked(a: Inbound) {
    Ok(Database, a.tenant) && a.parse.None? && Ok(Database, a.cached)
  }

  /** The contact is there: made just now, or found because its number was taken. */
  predicate HasContact(a: Inbound) {
    Ok(ByStatus(true), a.contact) || (a.taken && Ok(ByStatus(true), a.search))
  }

  /** The conversation is known, from the cache or from Chatwoot. */
  predicate Resolved(a: Inbound) {
    Looked(a) && (a.hit || (HasContact(a) && Ok(ByStatus(true), a.conversation)))
  }

  predicate Fetched(a: Inbound) {
    Resolved(a) && Ok(Database, a.upsert) && forall x <- a.media :: Accepted(x)
  }

  /** The attempt succeeds exactly if everything it needs is answered well, the post
      included; if not, its error is that of the first answer it could not do with. */
  ghost predicate Explains(a: Inbound, r: Outcome) {
    && (r == Nil <==> Fetched(a) && Ok(ByStatus(false), a.post))
    && (!Ok(Database, a.tenant) ==> r == Classify(Exchange(Database, a.tenant)))
    && (Ok(Database, a.tenant) && a.parse.Some? ==> r == Failure(Fatal(Base(Plain, a.parse.value))))
    && (Ok(Database, a.tenant) && a.parse.None? && !Ok(Database, a.cached) ==>
          r == Classify(Exchange(Database, a.cached)))
    && (Looked(a) && !a.hit && !HasContact(a) ==>
          r == Classify(Exchange(ByStatus(true), if a.taken then a.search else a.contact)))
    && (Looked(a) && !a.hit && HasContact(a) && !Ok(ByStatus(true), a.conversation) ==>
          r == Classify(Exchange(ByStatus(true), a.conversation)))
    && (Resolved(a) && !Ok(Database, a.upsert) ==> r == Classify(Exchange(Database, a.upsert)))
    && (forall k | 0 <= k < |a.media| && Resolved(a) && Ok(Database, a.upsert) && FirstRefused(a.media, k) ::
          r == Classify(a.media[k]))
    && (Fetched(a) && !Ok(ByStatus(false), a.post) ==> r == Classify(Exchange(ByStatus(false), a.post)))
  }

  predicate FirstRefused(xs: seq<Exchange>, k: nat)
    requires k < |xs|
  {
    (forall j | 0 <= j < k :: Accepted(xs[j])) && !Accepted(xs[k])
  }

  lemma {:induction false} MediaWalk(media: seq<Exchange>, post: Exchange)
    ensures var r := Walk(media + [post]);
            && (r == Nil <==> (forall x <- media :: Accepted(x)) && Accepted(post))
            && (forall k | 0 <= k < |media| && FirstRefused(media, k) :: r == Classify(media[k]))
            && ((forall x <- media :: Accepted(x)) ==> r == Classify(post))
  {
    var xs := media + [post];
    var d := SomeExchangeEndsIt(xs);
    WalkEnds(xs, d);
    AcceptedIsNil(xs[d]);
    assert forall j | 0 <= j < |media| :: xs[j] == media[j];
    forall j | 0 <= j < d
      ensures Accepted(media[j])
    {
      assert media[j] == xs[..d][j] && xs[..d][j] in xs[..d];
    }
    if d < |media| {
      assert media[d] in media;
    } else {
      assert xs[..d] == media;
    }
  }

  lemma PostingOutcome(a: Inbound)
    requires Resolved(a)
    ensures Explains(a, Walk(Posting(a)))
  {
    var upsert := Exchange(Database, a.upsert);
    WalkOn(upsert, a.media + [Exchange(WRITE, a.post)]);
    AcceptedIsNil(upsert);
    MediaWalk(a.media, Exchange(WRITE, a.post));
  }

  lemma ResolvingOutcome(a: Inbound)
    requires Looked(a)
    ensures Explains(a, Walk(Resolving(a)))
  {
    if Resolved(a) {
      PostingOutcome(a);
    }
    if !a.hit {
      WalkOn(ContactExchange(a), [Exchange(READ, a.conversation)] + Posting(a));
      WalkOn(Exchange(READ, a.conversation), Posting(a));
      AcceptedIsNil(Exchange(READ, a.contact));
      AcceptedIsNil(Exchange(READ, a.search));
      AcceptedIsNil(Exchange(READ, a.conversation));
    }
  }

  lemma InboundOutcome(a: Inbound)
    ensures Explains(a, Walk(Stages(a)))
  {
    WalkOn(Exchange(Database, a.tenant), Parsed(a));
    AcceptedIsNil(Exchange(Database, a.tenant));
    if Ok(Database, a.tenant) && a.parse.None? {
      WalkOn(Exchange(Database, a.cached), Resolving(a));
      AcceptedIsNil(Exchange(Database, a.cached));
    }
    if Looked(a) {
      ResolvingOutcome(a);
    }
  }

  /** cwPostMultipart's loop, or nothing for a text, and the post. */
  method PostMessage(a: Inbound) returns (r: Outcome)
    ensures r == Walk(a.media + [Exchange(WRITE, a.post)])
  {
    var post := Exchange(WRITE, a.post);
    assert a.media[..0] + (a.media[0..] + [post]) == a.media + [post];
    for k := 0 to |a.media|
      invariant Walk(a.media[k..] + [post]) == Walk(a.media + [post])
    {
      assert a.media[k..] + [post] == [a.media[k]] + (a.media[k + 1..] + [post]);
      WalkOn(a.media[k], a.media[k + 1..] + [post]);
      r := Classify(a.media[k]);
      if r.Failure? {
        return;
      }
    }
    assert a.media[|a.media|..] + [post] == [post];
    r := Classify(post);
  }

  /** resolveContact's requests after a miss. */
  method MakeContact(a: Inbound) returns (r: Outcome)
    ensures r == Walk([ContactExchange(a)] + [Exchange(READ, a.conversation)])
  {
    WalkOn(ContactExchange(a), [Exchange(READ, a.conversation)]);
    WalkOn(Exchange(READ, a.conversation), [Exchange(READ, a.conversation)]);
    r := Classify(Exchange(READ, a.contact));
    if r.Failure? && a.taken {
      r := Classify(Exchange(READ, a.search));
    }
    if r.Failure? {
      return;
    }
    r := Classify(Exchange(READ, a.conversation));
  }

  /** Two calls in sequence. */
  lemma {:induction false} WalkBoth(xs: seq<Exchange>, ys: seq<Exchange>)
    requires xs != [] && ys != []
    ensures Walk(xs + ys) == if Walk(xs).Failure? then Walk(xs) else Walk(ys)
  {
    if |xs| == 1 {
      assert xs + ys == [xs[0]] + ys;
      WalkOn(xs[0], ys);
    } else {
      assert xs == [xs[0]] + xs[1..] && xs + ys == [xs[0]] + (xs[1..] + ys);
      WalkOn(xs[0], xs[1..]);
      WalkOn(xs[0], xs[1..] + ys);
      WalkBoth(xs[1..], ys);
    }
  }

  /** processInbound: the first exchange that fails ends it. */
  method ProcessInbound(a: Inbound) returns (r: Outcome)
    ensures r == Walk(Stages(a)) && Explains(a, r)
  {
    InboundOutcome(a);
    WalkOn(Exchange(Database, a.tenant), Parsed(a));
    r := Classify(Exchange(Database, a.tenant));
    if r.Failure? {
      return;
    }
    if a.parse.Some? {
      return Failure(Fatal(Base(Plain, a.parse.value)));
    }
    WalkOn(Exchange(Database, a.cached), Resolving(a));
    r := Classify(Exchange(Database, a.cached));
    if r.Failure? {
      return;
    }
    if !a.hit {
      assert Resolving(a) == [ContactExchange(a)] + [Exchange(READ, a.conversation)] + Posting(a);
      WalkBoth([ContactExchange(a)] + [Exchange(READ, a.conversation)], Posting(a));
      r := MakeContact(a);
      if r.Failure? {
        return;
      }
    }
    WalkOn(Exchange(Database, a.upsert), a.media + [Exchange(WRITE, a.post)]);
    r := Classify(Exchange(Database, a.upsert));
    if r.Failure? {
      return;
    }
    r := PostMessage(a);
  }

  // ---- a whole job ----

  /** What processInbound returns on attempt i. */
  function InboundAttempts(asked: nat -> Inbound): nat -> Outcome {
    (i: nat) => Walk(Stages(asked(i)))
  }

  /** None of these exchanges is relayed, so none reports a closed window. */
  predicate NotRelayed(xs: seq<Exchange>) {
    forall x <- xs :: x.rules.ByCode? ==> !x.rules.relayed
  }

  /** In attempt i exchange decisive(i) is the first that is not accepted, or the last. */
  ghost predicate InboundMeets(asked: nat -> Inbound, decisive: nat -> Exchange) {
    forall i: nat ::
      && NotRelayed(asked(i).media)
      && exists d: nat :: EndsCall(Stages(asked(i)), d) && Stages(asked(i))[d] == decisive(i)
  }

  lemma MoreAreNotRelayed(x: Exchange, rest: seq<Exchange>)
    requires !x.rules.ByCode? && NotRelayed(rest)
    ensures NotRelayed([x] + rest)
  {
  }

  lemma StagesAreNotRelayed(a: Inbound)
    requires NotRelayed(a.media)
    ensures NotRelayed(Stages(a))
  {
    assert NotRelayed(a.media + [Exchange(WRITE, a.post)]);
    MoreAreNotRelayed(Exchange(Database, a.upsert), a.media + [Exchange(WRITE, a.post)]);
    MoreAreNotRelayed(Exchange(READ, a.conversation), Posting(a));
    MoreAreNotRelayed(ContactExchange(a), [Exchange(READ, a.conversation)] + Posting(a));
    MoreAreNotRelayed(Exchange(Database, a.cached), Resolving(a));
    MoreAreNotRelayed(Exchange(Database, a.tenant), Parsed(a));
  }

  lemma NotRelayedIsNotClosed(x: Exchange)
    requires x.rules.ByCode? ==> !x.rules.relayed
    ensures SendOutcome(x) == Classify(x)
  {
    if Classify(x).Failure? {
      WrapperFacts(Classify(x).err);
    }
  }

  lemma InboundGoesByDecisive(asked: nat -> Inbound, decisive: nat -> Exchange, ctx: nat -> Option<Err>)
    requires InboundMeets(asked, decisive)
    ensures RetrySpec(InboundAttempts(asked), ctx) == RetrySpec(Attempts(decisive), ctx)
  {
    forall i: nat
      ensures InboundAttempts(asked)(i) == Attempts(decisive)(i)
    {
      var d: nat :| EndsCall(Stages(asked(i)), d) && Stages(asked(i))[d] == decisive(i);
      WalkEnds(Stages(asked(i)), d);
      StagesAreNotRelayed(asked(i));
      assert decisive(i) in Stages(asked(i));
      NotRelayedIsNotClosed(decisive(i));
    }
    RetryAgrees(RETRIES, 0, InboundAttempts(asked), Attempts(decisive), ctx);
  }

  /** End to end: an inbound job makes k attempts and its row meets the given fate exactly
      when the decisive exchange of attempt k is the first that is not transient, the
      fourth, or cut off in its backoff. */
  lemma InboundExchangesDecideTheJob(asked: nat -> Inbound, decisive: nat -> Exchange,
                                     ctx: nat -> Option<Err>, fate: Fate, k: nat)
    requires InboundMeets(asked, decisive)
    requires forall i: nat :: ctx(i).Some? ==> IsContextError(ctx(i).value)
    ensures var end := RetrySpec(InboundAttempts(asked), ctx);
            (end.calls == k && FateOf(end.result) == fate)
            <==> (Decides(decisive, ctx, k) && fate == FateAfter(decisive(k - 1), k))
  {
    InboundGoesByDecisive(asked, decisive, ctx);
    AnswersDecideTheRow(decisive, ctx, fate, k);
  }

  /** And so the table. */
  lemma InboundExchangesDecideTheTable(asked: nat -> Inbound, decisive: nat -> Exchange, ctx: nat -> Option<Err>,
                                       k: nat, t: Table, id: MsgId, dbs: nat -> Db, dbMark: Db)
    requires InboundMeets(asked, decisive)
    requires forall i: nat :: ctx(i).Some? ==> IsContextError(ctx(i).value)
    requires Decides(decisive, ctx, k)
    requires id in t && t[id].attempts + k <= MAX_SMALLINT
    requires (forall j | 0 <= j < k :: dbs(j) != Refused) && dbMark != Refused
    ensures var t' := JobTable(t, id, InboundAttempts(asked), ctx, dbs, dbMark);
            && t'.Keys == t.Keys && (forall m <- t | m != id :: t'[m] == t[m])
            && t'[id].attempts == t[id].attempts + k
            && t'[id].status == StatusAfter(FateAfter(decisive(k - 1), k), t[id].status)
  {
    InboundGoesByDecisive(asked, decisive, ctx);
    AnswersDecideTheTable(decisive, ctx, k, t, id, dbs, dbMark);
  }
}
