/** How often a message can reach its recipient while the process lives. */
module LifetimeSends {
  import opened Wrappers
  import opened Errors
  import opened Messages
  import opened Engine
  import opened Lives
  import opened Guarantees
  import opened Outbound
  import opened OutboundTraces

  /** How often attachment i is sent by n job runs of a payload, whatever each of them meets. */
  function SentBy(p: CwPayload, envs: nat -> nat -> Answers, ctxs: nat -> nat -> Option<Err>, n: nat, i: nat): nat {
    if n == 0 then 0
    else SentBy(p, envs, ctxs, n - 1, i) + TimesSent(JobTrace(p, envs(n - 1), ctxs(n - 1)), i)
  }

  lemma {:induction false} SentAtMostFourTimesEach(p: CwPayload, envs: nat -> nat -> Answers,
                                                   ctxs: nat -> nat -> Option<Err>, n: nat, i: nat)
    ensures SentBy(p, envs, ctxs, n, i) <= 4 * n
  {
    if n > 0 {
      SentAtMostFourTimesEach(p, envs, ctxs, n - 1, i);
      MultiAttachmentDelivery(p, envs(n - 1), ctxs(n - 1), i, i);
    }
  }

  /** In one process lifetime the jobs taken of a message send each attachment at most four
      times, and four times more for each admin retry whose job reached the channel. */
  lemma AttachmentBound(r: Run, configured: int, k: nat, m: MsgId,
                        p: CwPayload, envs: nat -> nat -> Answers, ctxs: nat -> nat -> Option<Err>, i: nat)
    requires IsRun(r, configured) && k <= |r.steps|
    ensures var past := PastOf(r.states[k].log, m);
            SentBy(p, envs, ctxs, past.taken, i) <= 4 * (1 + past.pushes)
  {
    JobsBound(r, configured, k, m);
    SentAtMostFourTimesEach(p, envs, ctxs, PastOf(r.states[k].log, m).taken, i);
  }
}
