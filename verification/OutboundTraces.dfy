/** What the attempts of an outbound job run send together: restarted prefixes of the
    attachment list, and at most one private note, at the very end. */
module OutboundTraces {
  import opened Wrappers
  import opened Errors
  import opened Engine
  import opened Retry
  import opened Text
  import opened Outbound

  // ---- what an attempt sends ----

  /** The first n attachments, in order. */
  function Prefix(p: CwPayload, n: nat): seq<Effect>
    requires p.CwMessage? && n <= |Kept(p.attachments)|
  {
    if n == 0 then [] else Prefix(p, n - 1) + [MediaSend(p, n - 1)]
  }

  function NoteFor(p: CwPayload, noted: bool): seq<Effect>
    requires p.CwMessage?
  {
    if noted then [NotePosted(p.conv)] else []
  }

  lemma FailedSend(p: CwPayload, k: nat, sends: nat -> Outcome) returns (noted: bool)
    requires p.CwMessage? && k < |Kept(p.attachments)| && Relay(sends(k)).Failure?
    ensures noted <==> IsWindowClosed(sends(k).err)
    ensures Prefix(p, k) + SendFrom(p, k, sends).effects == Prefix(p, k + 1) + NoteFor(p, noted)
  {
    noted := IsWindowClosed(sends(k).err);
    assert SendFrom(p, k, sends).effects == [MediaSend(p, k)] + NoteFor(p, noted);
    Regroup(Prefix(p, k), [MediaSend(p, k)], NoteFor(p, noted));
  }

  lemma GoodSend(p: CwPayload, k: nat, sends: nat -> Outcome)
    requires p.CwMessage? && k < |Kept(p.attachments)| && !Relay(sends(k)).Failure?
    ensures Prefix(p, k) + SendFrom(p, k, sends).effects == Prefix(p, k + 1) + SendFrom(p, k + 1, sends).effects
    ensures SendFrom(p, k, sends).result == SendFrom(p, k + 1, sends).result
  {
    Regroup(Prefix(p, k), [MediaSend(p, k)], SendFrom(p, k + 1, sends).effects);
  }

  /** An attempt with attachments sends a prefix of them, and then a note exactly when
      the last send met a closed window, which makes the error fatal; it succeeds
      only if it sent them all without an error. */
  lemma {:induction false} SendShape(p: CwPayload, k: nat, sends: nat -> Outcome) returns (n: nat, noted: bool)
    requires p.CwMessage? && k <= |Kept(p.attachments)|
    ensures k <= n <= |Kept(p.attachments)|
    ensures Prefix(p, k) + SendFrom(p, k, sends).effects == Prefix(p, n) + NoteFor(p, noted)
    ensures SendFrom(p, k, sends).result == Nil ==> n == |Kept(p.attachments)| && !noted
    ensures noted <==> n > k && sends(n - 1).Failure? && IsWindowClosed(sends(n - 1).err)
    ensures noted ==> SendFrom(p, k, sends).result == Failure(Fatal(sends(n - 1).err))
    decreases |Kept(p.attachments)| - k
  {
    if k == |Kept(p.attachments)| {
      n, noted := k, false;
    } else if Relay(sends(k)).Failure? {
      n := k + 1;
      noted := FailedSend(p, k, sends);
    } else {
      GoodSend(p, k, sends);
      n, noted := SendShape(p, k + 1, sends);
    }
  }

  // ---- a whole job run ----

  /** The effects of the first n attempts, one after the other. */
  function JobEffects(p: CwPayload, envs: nat -> Answers, n: nat): seq<Effect> {
    if n == 0 then [] else JobEffects(p, envs, n - 1) + OutboundSpec(p, envs(n - 1)).effects
  }

  function JobAttempts(p: CwPayload, envs: nat -> Answers): nat -> Outcome {
    (i: nat) => OutboundSpec(p, envs(i)).result
  }

  /** runJob on an outbound message. */
  function JobEnd(p: CwPayload, envs: nat -> Answers, ctx: nat -> Option<Err>): LoopEnd {
    RetrySpec(JobAttempts(p, envs), ctx)
  }

  function JobTrace(p: CwPayload, envs: nat -> Answers, ctx: nat -> Option<Err>): seq<Effect> {
    JobEffects(p, envs, JobEnd(p, envs, ctx).calls)
  }

  predicate IsSendOf(e: Effect, i: nat) {
    e.MediaSent? && e.index == i
  }

  /** How often attachment i was sent. */
  function TimesSent(trace: seq<Effect>, i: nat): nat {
    if trace == [] then 0
    else TimesSent(trace[..|trace| - 1], i) + (if IsSendOf(trace[|trace| - 1], i) then 1 else 0)
  }

  lemma {:induction false} TimesSentAppend(a: seq<Effect>, b: seq<Effect>, i: nat)
    ensures TimesSent(a + b, i) == TimesSent(a, i) + TimesSent(b, i)
  {
    if b == [] {
      assert a + b == a;
    } else {
      TimesSentAppend(a, b[..|b| - 1], i);
      assert (a + b)[..|a + b| - 1] == a + b[..|b| - 1];
    }
  }

  lemma {:induction false} TimesInPrefix(p: CwPayload, n: nat, i: nat)
    requires p.CwMessage? && n <= |Kept(p.attachments)|
    ensures TimesSent(Prefix(p, n), i) == if i < n then 1 else 0
  {
    if n > 0 {
      TimesInPrefix(p, n - 1, i);
      assert Prefix(p, n)[..|Prefix(p, n)| - 1] == Prefix(p, n - 1);
    }
  }

  lemma ShapeCounts(p: CwPayload, n: nat, noted: bool, i: nat)
    requires p.CwMessage? && n <= |Kept(p.attachments)|
    ensures TimesSent(Prefix(p, n) + NoteFor(p, noted), i) == if i < n then 1 else 0
  {
    TimesSentAppend(Prefix(p, n), NoteFor(p, noted), i);
    TimesInPrefix(p, n, i);
    NoMediaSent(NoteFor(p, noted), i);
  }

  lemma LoopCounts(p: CwPayload, sends: nat -> Outcome, i: nat, j: nat)
    requires p.CwMessage? && i <= j
    ensures var a := SendFrom(p, 0, sends);
            && TimesSent(a.effects, j) <= TimesSent(a.effects, i) <= 1
            && (a.result == Nil && i < |Kept(p.attachments)| ==> TimesSent(a.effects, i) == 1)
  {
    var n, noted := SendShape(p, 0, sends);
    assert SendFrom(p, 0, sends).effects == Prefix(p, n) + NoteFor(p, noted);
    ShapeCounts(p, n, noted, i);
    ShapeCounts(p, n, noted, j);
  }

  lemma {:induction false} NoMediaSent(effects: seq<Effect>, i: nat)
    requires forall e <- effects :: !e.MediaSent?
    ensures TimesSent(effects, i) == 0
  {
    if effects != [] {
      NoMediaSent(effects[..|effects| - 1], i);
    }
  }

  /** One attempt sends each attachment at most once, and never one without those before it. */
  lemma AttemptCounts(p: CwPayload, env: Answers, i: nat, j: nat)
    requires i <= j
    ensures var a := OutboundSpec(p, env);
            && TimesSent(a.effects, j) <= TimesSent(a.effects, i) <= 1
            && (a.result == Nil && p.CwMessage? && i < |Kept(p.attachments)| ==> TimesSent(a.effects, i) == 1)
  {
    var a := OutboundSpec(p, env);
    if p.CwMessage? && Kept(p.attachments) != [] && a == SendFrom(p, 0, env.sends) {
      LoopCounts(p, env.sends, i, j);
    } else {
      NoMediaSent(a.effects, i);
      NoMediaSent(a.effects, j);
    }
  }

  lemma {:induction false} JobCounts(p: CwPayload, envs: nat -> Answers, n: nat, i: nat, j: nat)
    requires i <= j
    ensures TimesSent(JobEffects(p, envs, n), j) <= TimesSent(JobEffects(p, envs, n), i) <= n
  {
    if n > 0 {
      JobCounts(p, envs, n - 1, i, j);
      AttemptCounts(p, envs(n - 1), i, j);
      TimesSentAppend(JobEffects(p, envs, n - 1), OutboundSpec(p, envs(n - 1)).effects, i);
      TimesSentAppend(JobEffects(p, envs, n - 1), OutboundSpec(p, envs(n - 1)).effects, j);
    }
  }

  /** A job run sends every attachment at most four times, an earlier one at least as
      often as a later one, and every one at least once if it ends in success. */
  lemma MultiAttachmentDelivery(p: CwPayload, envs: nat -> Answers, ctx: nat -> Option<Err>, i: nat, j: nat)
    requires i <= j
    ensures var trace := JobTrace(p, envs, ctx);
            && TimesSent(trace, j) <= TimesSent(trace, i) <= 4
            && (JobEnd(p, envs, ctx).result == Nil && p.CwMessage? && i < |Kept(p.attachments)|
                ==> TimesSent(trace, i) >= 1)
  {
    var end := JobEnd(p, envs, ctx);
    RetryEnds(RETRIES, JobAttempts(p, envs), ctx, end);
    JobCounts(p, envs, end.calls, i, j);
    AttemptCounts(p, envs(end.calls - 1), i, j);
    TimesSentAppend(JobEffects(p, envs, end.calls - 1), OutboundSpec(p, envs(end.calls - 1)).effects, i);
  }

  /** No longer than the attachment list. */
  predicate AreLengths(p: CwPayload, lens: seq<nat>)
    requires p.CwMessage?
  {
    forall k | 0 <= k < |lens| :: lens[k] <= |Kept(p.attachments)|
  }

  /** The prefixes of the first n of these lengths, one after the other. */
  function Prefixes(p: CwPayload, lens: seq<nat>, n: nat): seq<Effect>
    requires p.CwMessage? && n <= |lens| && AreLengths(p, lens)
  {
    if n == 0 then [] else Prefixes(p, lens, n - 1) + Prefix(p, lens[n - 1])
  }

  /** A message with attachments that passes the checks. */
  predicate HasMedia(p: CwPayload) {
    p.CwMessage? && Sendable(p) && Kept(p.attachments) != []
  }

  lemma AttemptIsPrefix(p: CwPayload, env: Answers) returns (n: nat, noted: bool)
    requires HasMedia(p)
    ensures n <= |Kept(p.attachments)| && OutboundSpec(p, env).effects == Prefix(p, n) + NoteFor(p, noted)
    ensures OutboundSpec(p, env).result == Nil ==> n == |Kept(p.attachments)|
    ensures noted ==> !Again(OutboundSpec(p, env).result)
  {
    n, noted := 0, false;
    if env.tenant == Nil {
      n, noted := SendShape(p, 0, env.sends);
    }
  }

  lemma NoNote(p: CwPayload, n: nat)
    requires p.CwMessage? && n <= |Kept(p.attachments)|
    ensures Prefix(p, n) + NoteFor(p, false) == Prefix(p, n)
  {
  }

  lemma {:induction false} RetriedPrefixes(p: CwPayload, envs: nat -> Answers, ctx: nat -> Option<Err>, n: nat)
    returns (lens: seq<nat>)
    requires HasMedia(p) && forall i | 0 <= i < n :: Continues(RETRIES, i, JobAttempts(p, envs), ctx)
    ensures |lens| == n && AreLengths(p, lens)
    ensures JobEffects(p, envs, n) == Prefixes(p, lens, n)
  {
    lens := [];
    if n > 0 {
      var before := RetriedPrefixes(p, envs, ctx, n - 1);
      assert Continues(RETRIES, n - 1, JobAttempts(p, envs), ctx);
      var len, noted := AttemptIsPrefix(p, envs(n - 1));
      NoNote(p, len);
      lens := OnePrefixMore(p, before, len);
    }
  }

  /** The sends of a job run are at most four prefixes of the attachment list, one for
      each attempt, each restarting at the first attachment; on success the last
      prefix is the whole list. */
  lemma JobSendsPrefixes(p: CwPayload, envs: nat -> Answers, ctx: nat -> Option<Err>)
    returns (lens: seq<nat>, noted: bool)
    requires HasMedia(p)
    ensures 1 <= |lens| == JobEnd(p, envs, ctx).calls <= 4
    ensures AreLengths(p, lens)
    ensures JobTrace(p, envs, ctx) == Prefixes(p, lens, |lens|) + NoteFor(p, noted)
    ensures JobEnd(p, envs, ctx).result == Nil ==> lens[|lens| - 1] == |Kept(p.attachments)|
  {
    var end := JobEnd(p, envs, ctx);
    RetryEnds(RETRIES, JobAttempts(p, envs), ctx, end);
    var before := RetriedPrefixes(p, envs, ctx, end.calls - 1);
    var len: nat;
    len, noted := AttemptIsPrefix(p, envs(end.calls - 1));
    lens := OnePrefixMore(p, before, len);
    Regroup(Prefixes(p, before, |before|), Prefix(p, len), NoteFor(p, noted));
  }

  lemma {:induction false} PrefixesAgree(p: CwPayload, a: seq<nat>, b: seq<nat>, n: nat)
    requires p.CwMessage? && AreLengths(p, a) && AreLengths(p, b) && n <= |a| && n <= |b|
    requires forall k | 0 <= k < n :: a[k] == b[k]
    ensures Prefixes(p, a, n) == Prefixes(p, b, n)
  {
    if n > 0 {
      PrefixesAgree(p, a, b, n - 1);
    }
  }

  lemma OnePrefixMore(p: CwPayload, before: seq<nat>, len: nat) returns (lens: seq<nat>)
    requires p.CwMessage? && len <= |Kept(p.attachments)| && AreLengths(p, before)
    ensures lens == before + [len] && AreLengths(p, lens)
    ensures Prefixes(p, lens, |lens|) == Prefixes(p, before, |before|) + Prefix(p, len)
  {
    lens := before + [len];
    PrefixesAgree(p, lens, before, |before|);
  }

  // ---- the closed window ----

  /** A note ends its attempt, follows a send, and comes with a fatal error. */
  lemma NoteEndsAttempt(p: CwPayload, env: Answers, k: nat)
    requires var a := OutboundSpec(p, env); k < |a.effects| && a.effects[k].NotePosted?
    ensures var a := OutboundSpec(p, env);
            k > 0 && k == |a.effects| - 1 && !a.effects[k - 1].NotePosted?
            && a.result.Failure? && a.result.err.Fatal? && IsWindowClosed(a.result.err)
  {
    if Kept(p.attachments) != [] {
      var n, noted := AttemptIsPrefix(p, env);
      assert OutboundSpec(p, env).effects == Prefix(p, n) + NoteFor(p, noted);
      PrefixIsMedia(p, n);
      assert noted && k == n;
      NoteIsFatal(p, env);
    }
  }

  /** An attempt with attachments that posts a note returns the fatal closed-window error, after a send. */
  lemma NoteIsFatal(p: CwPayload, env: Answers)
    requires HasMedia(p) && NotePosted(p.conv) in OutboundSpec(p, env).effects
    ensures var a := OutboundSpec(p, env);
            |a.effects| >= 2 && a.result.Failure? && a.result.err.Fatal? && IsWindowClosed(a.result.err)
  {
    var n, noted := SendShape(p, 0, env.sends);
    PrefixIsMedia(p, n);
    assert OutboundSpec(p, env).effects == Prefix(p, 0) + SendFrom(p, 0, env.sends).effects;
  }

  lemma {:induction false} PrefixIsMedia(p: CwPayload, n: nat)
    requires p.CwMessage? && n <= |Kept(p.attachments)|
    ensures |Prefix(p, n)| == n
    ensures forall k | 0 <= k < n :: Prefix(p, n)[k] == MediaSend(p, k)
  {
    if n > 0 {
      PrefixIsMedia(p, n - 1);
    }
  }

  lemma {:induction false} NoEarlierNotes(p: CwPayload, envs: nat -> Answers, ctx: nat -> Option<Err>, n: nat)
    requires forall i | 0 <= i < n :: Continues(RETRIES, i, JobAttempts(p, envs), ctx)
    ensures forall e <- JobEffects(p, envs, n) :: !e.NotePosted?
  {
    if n > 0 {
      NoEarlierNotes(p, envs, ctx, n - 1);
      assert Continues(RETRIES, n - 1, JobAttempts(p, envs), ctx);
      var effects := OutboundSpec(p, envs(n - 1)).effects;
      forall k | 0 <= k < |effects|
        ensures !effects[k].NotePosted?
      {
        if effects[k].NotePosted? {
          NoteEndsAttempt(p, envs(n - 1), k);
        }
      }
    }
  }

  /** A job run posts at most one private note; it is the run's last external effect,
      directly after the send that met the closed window, and no retry follows it. */
  lemma WindowClosedNote(p: CwPayload, envs: nat -> Answers, ctx: nat -> Option<Err>, k: nat)
    requires k < |JobTrace(p, envs, ctx)| && JobTrace(p, envs, ctx)[k].NotePosted?
    ensures var trace, end := JobTrace(p, envs, ctx), JobEnd(p, envs, ctx);
            && k > 0 && k == |trace| - 1 && !trace[k - 1].NotePosted?
            && end.result.Failure? && !IsRetriable(end.result.err) && IsWindowClosed(end.result.err)
  {
    var end := JobEnd(p, envs, ctx);
    RetryEnds(RETRIES, JobAttempts(p, envs), ctx, end);
    NoEarlierNotes(p, envs, ctx, end.calls - 1);
    var before := JobEffects(p, envs, end.calls - 1);
    assert JobTrace(p, envs, ctx) == before + OutboundSpec(p, envs(end.calls - 1)).effects;
    assert k >= |before|;
    NoteEndsAttempt(p, envs(end.calls - 1), k - |before|);
  }

  predicate MetClosedWindow(r: Outcome) {
    r.Failure? && IsWindowClosed(r.err)
  }

  lemma {:induction false} SendLeavesNote(p: CwPayload, k: nat, sends: nat -> Outcome)
    requires p.CwMessage? && k <= |Kept(p.attachments)| && MetClosedWindow(SendFrom(p, k, sends).result)
    ensures NotePosted(p.conv) in SendFrom(p, k, sends).effects
    decreases |Kept(p.attachments)| - k
  {
    if !Relay(sends(k)).Failure? {
      SendLeavesNote(p, k + 1, sends);
    }
  }

  /** A job run leaves a private note exactly when it ends with the closed window,
      given that neither the tenant lookup nor the context ends with that error. */
  lemma NoteIffWindowClosed(p: CwPayload, envs: nat -> Answers, ctx: nat -> Option<Err>)
    requires forall i: nat :: !MetClosedWindow(envs(i).tenant)
    requires forall i: nat :: ctx(i).Some? ==> IsContextError(ctx(i).value)
    ensures (exists e <- JobTrace(p, envs, ctx) :: e.NotePosted?) <==> MetClosedWindow(JobEnd(p, envs, ctx).result)
  {
    var trace, end := JobTrace(p, envs, ctx), JobEnd(p, envs, ctx);
    if exists e <- trace :: e.NotePosted? {
      var k :| 0 <= k < |trace| && trace[k].NotePosted?;
      WindowClosedNote(p, envs, ctx, k);
    }
    if MetClosedWindow(end.result) {
      RetryEnds(RETRIES, JobAttempts(p, envs), ctx, end);
      var env := envs(end.calls - 1);
      assert end.result == OutboundSpec(p, env).result;
      if HasMedia(p) {
        SendLeavesNote(p, 0, env.sends);
      }
      var note := NotePosted(p.conv);
      assert trace == JobEffects(p, envs, end.calls - 1) + OutboundSpec(p, env).effects;
      assert note in trace && note.NotePosted?;
    }
  }

  /** No relay loop: whatever a job run writes to Chatwoot, and whatever event Chatwoot
      makes of it, is refused when it comes back, so a job run begets no further one. */
  lemma JobRunsBegetNoJobs(p: CwPayload, envs: nat -> Answers, ctx: nat -> Option<Err>, k: nat, event: string)
    requires k < |JobTrace(p, envs, ctx)| && PostOf(JobTrace(p, envs, ctx)[k]).Some?
    ensures k == |JobTrace(p, envs, ctx)| - 1
    ensures !ShouldRelay(EventOf(PostOf(JobTrace(p, envs, ctx)[k]).value, event))
  {
    WindowClosedNote(p, envs, ctx, k);
    BridgePostsAreNotRelayed(PRIVATE_NOTE, event);
  }

  /** Every attachment goes to the recipient as it was kept, and only the first carries the text. */
  lemma {:induction false} TextOnFirstAttachmentOnly(p: CwPayload, envs: nat -> Answers, n: nat)
    requires HasMedia(p)
    ensures forall e <- JobEffects(p, envs, n) :: e.MediaSent? ==>
              && e.to == (if p.sourceId != "" then p.sourceId else p.phone)
              && e.index < |Kept(p.attachments)| && e.att.url == Kept(p.attachments)[e.index].url
              && e.att.kind == Kept(p.attachments)[e.index].kind
              && e.att.caption == if e.index == 0 then p.content else ""
  {
    if n > 0 {
      TextOnFirstAttachmentOnly(p, envs, n - 1);
      var len, noted := AttemptIsPrefix(p, envs(n - 1));
      PrefixIsMedia(p, len);
      var effects := OutboundSpec(p, envs(n - 1)).effects;
      forall e <- effects | e.MediaSent?
        ensures e.to == Recipient(p) && e.att.caption == if e.index == 0 then p.content else ""
        ensures e.index < |Kept(p.attachments)| && e.att.url == Kept(p.attachments)[e.index].url
        ensures e.att.kind == Kept(p.attachments)[e.index].kind
      {
        var k :| 0 <= k < |effects| && effects[k] == e;
        assert k < len;
        assert e == Prefix(p, len)[k] == MediaSend(p, k);
      }
    }
  }

  // ---- who receives what ----

  /** Everything an attempt sends goes to the source id, or to the sender's number if there
      is none; a text carries the content, and a note goes to the conversation. */
  lemma SentToTheRecipient(p: CwPayload, env: Answers)
    requires p.CwMessage?
    ensures forall e <- OutboundSpec(p, env).effects ::
      match e
      case TextSent(to, content) => to == (if p.sourceId != "" then p.sourceId else p.phone) && content == p.content
      case MediaSent(_, to, _) => to == (if p.sourceId != "" then p.sourceId else p.phone)
      case NotePosted(conv) => conv == p.conv
  {
    if HasMedia(p) {
      var n, noted := AttemptIsPrefix(p, env);
      PrefixIsMedia(p, n);
    }
  }

  lemma NoneKept(atts: seq<CwAttachment>)
    ensures Kept(atts) == [] <==> forall a <- atts :: a.dataUrl == ""
  {
    var at := KeptIsSelection(atts);
    if Kept(atts) != [] {
      assert atts[at[0]] in atts;
    }
    if a :| a in atts && a.dataUrl != "" {
      var k :| 0 <= k < |atts| && atts[k] == a;
      assert k in at;
    }
  }

  /** An attempt on a text whose tenant is found sends it, once, and nothing but perhaps a note after it. */
  lemma TextIsSentOnce(p: CwPayload, env: Answers)
    requires p.CwMessage? && env.tenant == Nil && p.content != "" && (p.sourceId != "" || p.phone != "")
    requires forall a <- p.attachments :: a.dataUrl == ""
    ensures var effects := OutboundSpec(p, env).effects;
            && 1 <= |effects| <= 2 && effects[0].TextSent?
            && (|effects| == 2 ==> effects[1] == NotePosted(p.conv))
  {
    NoneKept(p.attachments);
  }

  /** An attempt sends nothing exactly when its tenant is not found or its payload does not
      parse, has no recipient or has nothing to send; and only the first is tried again. */
  lemma NothingIsSent(p: CwPayload, env: Answers)
    ensures var a := OutboundSpec(p, env);
      var refused := p.Malformed? || (p.sourceId == "" && p.phone == "")
                     || (p.content == "" && forall x <- p.attachments :: x.dataUrl == "");
      && (a.effects == [] <==> env.tenant.Failure? || refused)
      && (env.tenant.Failure? ==> a.result == env.tenant)
      && (env.tenant == Nil && refused ==> a.result.Failure? && !IsRetriable(a.result.err))
  {
    if p.CwMessage? {
      NoneKept(p.attachments);
    }
  }
}
