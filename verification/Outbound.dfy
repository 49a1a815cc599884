/** Relaying one Chatwoot message to WhatsApp: what an attempt sends, and what all
    attempts of a job run send together. */
module Outbound {
  import opened Wrappers
  import opened Errors
  import opened Retry
  import opened Text

  datatype CwAttachment = CwAttachment(dataUrl: string, fileType: string)

  datatype CwPayload =
    | Malformed
    | CwMessage(conv: int, sourceId: string, phone: string, content: string, attachments: seq<CwAttachment>)

  datatype Attachment = Attachment(url: string, kind: string, caption: string)

  /** What the outside world sees. */
  datatype Effect =
    | TextSent(to: string, content: string)
    | MediaSent(index: nat, to: string, att: Attachment)
    | NotePosted(conv: int)

  /** The answers one attempt meets: the tenant lookup's, and the gateway's to send k. */
  datatype Answers = Answers(tenant: Outcome, sends: nat -> Outcome)

  // ---- the attachments that count ----

  /** cwTypeToMega. */
  function KindOf(fileType: string): string {
    if fileType == "image" || fileType == "audio" || fileType == "video" then fileType else "document"
  }

  function Kept(atts: seq<CwAttachment>): seq<Attachment> {
    if atts == [] then []
    else
      var a := atts[|atts| - 1];
      Kept(atts[..|atts| - 1])
      + if a.dataUrl == "" then [] else [Attachment(a.dataUrl, KindOf(a.fileType), "")]
  }

  method CwAttachments(atts: seq<CwAttachment>) returns (out: seq<Attachment>)
    ensures out == Kept(atts)
  {
    out := [];
    for i := 0 to |atts|
      invariant out == Kept(atts[..i])
    {
      assert atts[..i + 1][..i] == atts[..i];
      if atts[i].dataUrl != "" {
        out := out + [Attachment(atts[i].dataUrl, KindOf(atts[i].fileType), "")];
      }
    }
    assert atts[..|atts|] == atts;
  }

  /** `out` are the attachments with a URL, each once, in order and of their kind, at these
      positions; what is no image, sound or film is a document. */
  predicate Selects(atts: seq<CwAttachment>, out: seq<Attachment>, at: seq<nat>) {
    && |at| == |out|
    && (forall i, j | 0 <= i < j < |at| :: at[i] < at[j])
    && (forall i | 0 <= i < |at| ::
          && at[i] < |atts| && atts[at[i]].dataUrl == out[i].url != ""
          && out[i].kind == if atts[at[i]].fileType in ["image", "audio", "video"] then atts[at[i]].fileType
                            else "document")
    && (forall k | 0 <= k < |atts| && atts[k].dataUrl != "" :: k in at)
  }

  lemma SelectsSkipping(atts: seq<CwAttachment>, last: CwAttachment, out: seq<Attachment>, at: seq<nat>)
    requires Selects(atts, out, at) && last.dataUrl == ""
    ensures Selects(atts + [last], out, at)
  {
  }

  lemma SelectsTaking(atts: seq<CwAttachment>, last: CwAttachment, out: seq<Attachment>, at: seq<nat>, a: Attachment)
    requires Selects(atts, out, at) && last.dataUrl == a.url != "" && a.kind == KindOf(last.fileType)
    ensures Selects(atts + [last], out + [a], at + [|atts|])
  {
  }

  /** Exactly the attachments with a URL are kept, in their order. */
  lemma {:induction false} KeptIsSelection(atts: seq<CwAttachment>) returns (at: seq<nat>)
    ensures Selects(atts, Kept(atts), at)
  {
    at := [];
    if atts != [] {
      var front, last := atts[..|atts| - 1], atts[|atts| - 1];
      at := KeptIsSelection(front);
      assert atts == front + [last];
      if last.dataUrl == "" {
        SelectsSkipping(front, last, Kept(front), at);
        assert Kept(atts) == Kept(front);
      } else {
        SelectsTaking(front, last, Kept(front), at, Attachment(last.dataUrl, KindOf(last.fileType), ""));
        at := at + [|front|];
      }
    }
  }

  // ---- one attempt ----

  function Recipient(p: CwPayload): string
    requires p.CwMessage?
  {
    if p.sourceId == "" then p.phone else p.sourceId
  }

  /** Only the first attachment carries the text. */
  function Captioned(a: Attachment, k: nat, content: string): Attachment {
    a.(caption := if k == 0 then content else "")
  }

  /** relayOutbound: the send, and the private note if the window is closed. */
  function RelayEffects(send: Effect, conv: int, answer: Outcome): seq<Effect> {
    if answer.Failure? && IsWindowClosed(answer.err) then [send, NotePosted(conv)] else [send]
  }

  datatype Attempted = Attempted(result: Outcome, effects: seq<Effect>)

  function MediaSend(p: CwPayload, k: nat): Effect
    requires p.CwMessage? && k < |Kept(p.attachments)|
  {
    MediaSent(k, Recipient(p), Captioned(Kept(p.attachments)[k], k, p.content))
  }

  /** The attachment loop from attachment k on. */
  function SendFrom(p: CwPayload, k: nat, sends: nat -> Outcome): Attempted
    requires p.CwMessage? && k <= |Kept(p.attachments)|
    decreases |Kept(p.attachments)| - k
  {
    if k == |Kept(p.attachments)| then Attempted(Nil, [])
    else if Relay(sends(k)).Failure? then
      Attempted(Relay(sends(k)), RelayEffects(MediaSend(p, k), p.conv, sends(k)))
    else
      var rest := SendFrom(p, k + 1, sends);
      Attempted(rest.result, [MediaSend(p, k)] + rest.effects)
  }

  predicate Sendable(p: CwPayload)
    requires p.CwMessage?
  {
    Recipient(p) != "" && (p.content != "" || Kept(p.attachments) != [])
  }

  /** processOutbound. */
  function OutboundSpec(p: CwPayload, env: Answers): Attempted {
    if env.tenant.Failure? then Attempted(env.tenant, [])
    else if p.Malformed? then Attempted(Failure(Fatal(Base(Plain, "json"))), [])
    else if !Sendable(p) then Attempted(Failure(Fatal(Base(Plain, "missing"))), [])
    else if Kept(p.attachments) == [] then
      Attempted(Relay(env.sends(0)), RelayEffects(TextSent(Recipient(p), p.content), p.conv, env.sends(0)))
    else SendFrom(p, 0, env.sends)
  }

  /** The gateway and Chatwoot, as the sequence of what was sent to them. */
  class World {
    var trace: seq<Effect>

    constructor ()
      ensures trace == []
    {
      trace := [];
    }

    method Perform(e: Effect, answer: Outcome) returns (r: Outcome)
      modifies this
      ensures trace == old(trace) + [e] && r == answer
    {
      trace := trace + [e];
      r := answer;
    }

    method RelayOutbound(send: Effect, conv: int, answer: Outcome, noteAnswer: Outcome) returns (r: Outcome)
      modifies this
      ensures r == Relay(answer)
      ensures trace == old(trace) + RelayEffects(send, conv, answer)
    {
      r := Perform(send, answer);
      if r.Failure? && IsWindowClosed(r.err) {
        var _ := Perform(NotePosted(conv), noteAnswer);
        r := Failure(Fatal(r.err));
      }
    }

    method ProcessOutbound(p: CwPayload, env: Answers, noteAnswer: Outcome) returns (r: Outcome)
      modifies this
      ensures r == OutboundSpec(p, env).result
      ensures trace == old(trace) + OutboundSpec(p, env).effects
    {
      if env.tenant.Failure? {
        return env.tenant;
      }
      if p.Malformed? {
        return Failure(Fatal(Base(Plain, "json")));
      }
      var jid := p.sourceId;
      if jid == "" {
        jid := p.phone;
      }
      var atts := CwAttachments(p.attachments);
      if jid == "" || (p.content == "" && |atts| == 0) {
        return Failure(Fatal(Base(Plain, "missing")));
      }
      if |atts| == 0 {
        r := RelayOutbound(TextSent(jid, p.content), p.conv, env.sends(0), noteAnswer);
      } else {
        r := SendAll(p, jid, atts, env.sends, noteAnswer);
      }
    }

    /** The attachment loop of processOutbound. */
    method SendAll(p: CwPayload, jid: string, atts: seq<Attachment>, sends: nat -> Outcome, noteAnswer: Outcome)
      returns (r: Outcome)
      requires p.CwMessage? && jid == Recipient(p) && atts == Kept(p.attachments)
      modifies this
      ensures r == SendFrom(p, 0, sends).result
      ensures trace == old(trace) + SendFrom(p, 0, sends).effects
    {
      for i := 0 to |atts|
        invariant trace + SendFrom(p, i, sends).effects == old(trace) + SendFrom(p, 0, sends).effects
        invariant SendFrom(p, i, sends).result == SendFrom(p, 0, sends).result
      {
        ghost var before, rest := trace, SendFrom(p, i + 1, sends).effects;
        var a := atts[i];
        if i == 0 {
          a := a.(caption := p.content);
        } else {
          a := a.(caption := "");
        }
        r := RelayOutbound(MediaSent(i, jid, a), p.conv, sends(i), noteAnswer);
        if r.Failure? {
          return;
        }
        Regroup(before, [MediaSend(p, i)], rest);
      }
      r := Nil;
    }
  }

  // ---- no relay loop ----

  /** The fields of a Chatwoot webhook that decide whether it is relayed. */
  datatype CwEvent = CwEvent(event: string, messageType: string, isPrivate: bool)

  /** chatwootShouldRelay on a body that parses. */
  predicate ShouldRelay(e: CwEvent) {
    e.event == "message_created" && e.messageType == "outgoing" && !e.isPrivate
  }

  /** The fields the bridge sets on the messages it writes to Chatwoot. */
  datatype CwPost = CwPost(messageType: string, isPrivate: bool)

  const CUSTOMER_MESSAGE := CwPost("incoming", false)   // postChatwootMessage
  const PRIVATE_NOTE := CwPost("outgoing", true)        // postChatwootPrivateNote

  /** Chatwoot reports every message with the fields it was written with. */
  function EventOf(post: CwPost, event: string): CwEvent {
    CwEvent(event, post.messageType, post.isPrivate)
  }

  /** What an effect writes to Chatwoot; messages to WhatsApp are not reported by it. */
  function PostOf(e: Effect): Option<CwPost> {
    if e.NotePosted? then Some(PRIVATE_NOTE) else None
  }

  lemma BridgePostsAreNotRelayed(post: CwPost, event: string)
    requires post == CUSTOMER_MESSAGE || post == PRIVATE_NOTE
    ensures !ShouldRelay(EventOf(post, event))
  {
  }

  /** An agent's public message is relayed, when it is created and at no other event, and nothing else is. */
  lemma RelayedIffAgentsMessage(post: CwPost, event: string)
    ensures ShouldRelay(EventOf(post, event)) <==> post == CwPost("outgoing", false) && event == "message_created"
  {
  }
}
