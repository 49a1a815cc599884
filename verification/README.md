# Delivery bridge: model and proofs

The bridge carries messages between WhatsApp gateways (MegaAPI, WaBlast) and
Chatwoot. A webhook stores a message as a row of the `messages` table and puts a
job for it on a bounded in-process channel; workers take jobs, call the other side
with retries, and mark the row. Table and channels are written in separate steps,
so they can disagree. This project models that engine, the cache of Chatwoot
contacts, and the text codecs and checks, and proves what they promise.

## How it is laid out

The delivery engine is modelled twice, and the two models are connected.

* `Engine` is a step machine. Each database statement and each channel operation of
  each goroutine is one step; steps of any number of goroutines, the janitor, the
  operators, crashes and restarts interleave freely, and every database call may
  succeed, fail without effect, or take effect although its caller is told it
  failed. `EngineInvariants` holds what every reachable state satisfies, `Recovery`
  which rows its boot step queues. `Lives` projects the machine onto one message:
  `EveryStepIsAMove` shows that each step of the machine is one move of that
  message's small automaton, so the theorems of `Guarantees`, `Finality`,
  `Duplicates` and `Stranding` are proved on the automaton and hold of every run.
  `Loads` does the counting and `Counts` says what was counted.
* `Store`, `Service` and `Outbound` are the same code as classes, methods and loops.
  `HandlerRuns` shows that each handler, run without interruption, is a run of
  `Engine` steps, and the methods of `Service` are proved to end in the state that
  run ends in. `Retry` specifies the retry loop as a function of what its attempts
  return; `OutboundTraces` and `LifetimeSends` say what job runs do to the outside world,
  and `GatewayJobs` and `InboundJobs` follow the `Exchanges` of outbound and inbound jobs,
  with the database and over HTTP, to their rows.

`Contacts` is a second step machine, for workers that race to create a contact and a
conversation in Chatwoot while Chatwoot's own users write to it too.
`ContactAgreement` and `ContactRaces` hold its theorems, `ContactService` the code as
methods. `Text`, `Decimal`, `Base64`, `Session`, `Password`, `Pairing`, `DataUrl`,
`Webhook`, `Sql` and `Bootstrap` are the codecs and checks; base 64 and decimal
numbers are written out, because the round trips rest on which characters they
cannot produce. HMAC and Argon2 are function parameters: every statement holds for
any function in their place.

## What the code does not promise

These natural claims are false of the code. Each is answered by a concrete run or by
the exact condition under which the claim holds.

* "A message has at most one live job". The janitor fails a row whose job is still
  queued, and an operator's retry then queues a second job, as in the run of
  `Counterexample.DoneCanBeOverwritten`. Or the retry comes while the handler of the first
  delivery has not sent its job yet, and that handler makes the second, as in
  `LateIntake.SlowHandlerDoubles`. `Duplicates.OneLiveJobIffNeverDuplicated` is exact: it
  holds if and only if no handler sends a job of the message while another is queued or
  running. `Guarantees.LiveJobBound` and `Guarantees.JobsBound` hold without condition.
* "A message has at most one handle", where the handlers between their steps count too.
  `Finality.OneHandleIffGuarded` is exact for this stronger claim: it holds if and only if
  no admin retry takes effect while the message still has a handle. Such a run has one
  live job at most (`Duplicates.GuardedHasOneLiveJob`), but not only such a run.
* "Done is final". Two kinds of step overwrite it: the mark of a job that failed for
  good, as in the run of `Counterexample.DoneCanBeOverwritten`, and the "queue full" mark
  of a handler that was slow to write it, as in `LateRejection.DoneCanBeRejected`, where no
  delivery fails at all. `Finality.DoneStaysIffNeverMarkedFailed` shows that there are no
  others, and `Finality.DoneIsFinal` that neither happens where retries are guarded.
* "Pending rows are queued". `StrandedRow.PendingWithoutAHandle` is a run to a pending row
  that nothing will act on: the operator's retry from the web page touches no channel.
  `Stranding.StrandedIff` is exact: a row is stranded if and only if some step stranded it
  and none has released it since. `Stranding.StrandedBy` lists the steps that strand a row,
  each with the state it must be taken in; only a sweep of a row over an hour old and a
  boot recovery that queues the row release it. Four timeouts in a row are among the
  former: the job ends with a context error and the row stays pending.
* "The search by phone finds the contact". The first hit is used, whatever it is, and
  Chatwoot searches by part of the text. `ContactAgreement.MisleadingSearch` posts a
  message to somebody else's conversation; `ContactAgreement.RightIffGoodSearches` is
  the exact condition.
* "One conversation per sender". Racing workers can each make one:
  `ContactRaces.RaceBound` and `ContactRaces.BoundIsMet`; `ContactRaces.ExactlyOneWhenRacing`
  is exact. Even one worker can waste conversations, in exactly three ways:
  `ContactRaces.ExactlyOneConversation`.
* "A pair link expires its lifetime after it was built". The lifetime in nanoseconds
  wraps around: `Pairing.ExpiryIsExact`. This is a property of the exported function
  only: the bridge's own page builds links without a lifetime, which means a day.
* "A session gives its email back". Not if there is a bar in it:
  `Session.SessionRoundTrip`.

A row that an operator retries more than an hour after its creation is failed again
by the next sweep, because the sweep goes by `created_at`; this is why the janitor's
theorems speak of rows not reopened since the last sweep. The repository's documents
02, 05 and 07 describe a queue server that the code does not use; the code is
followed.

## Model

| member | source | states |
|---|---|---|
| Errors.RetriableIffNoFatalLink | internal/bridge/bridge.go:571-587 | an error is retried if and only if no link of its chain is a fatalError, however deeply wrapped |
| Errors.SentinelIsFoundUnderWrappers | internal/bridge/bridge.go:571-582 | a context error or the closed window is recognised if and only if it is the base of the chain, under any wrappers |
| Errors.RecognisedErrors | internal/bridge/bridge.go:104-106 | cancellation, deadline and closed window are recognised if and only if they are the base of the chain |
| Errors.TextOfTheBase | internal/bridge/bridge.go:571-582 | the fatal and retriable wrappers leave the text of an error as it is |
| Messages.SweepCommutesWithMark | internal/bridge/storage.go:237-251 | a sweep never changes a row a worker has marked and a mark replaces what a sweep wrote: the two come to the same in either order |
| Messages.RetriedRowAndSweep | internal/bridge/storage.go:237-245 | a retried row is still pending after the next sweep if and only if it is at most an hour old, counted from its creation |
| Messages.RecoveryIsComplete | internal/bridge/bridge.go:172-190 | boot recovery queues every pending row if and only if neither direction has more pending rows than the buffer limit, whatever order ties come in |
| Messages.RecoveredEnough | internal/bridge/bridge.go:172-190 | if each direction has at most the buffer limit of pending rows, recovery skips no row |
| Recovery.RecoveryQueuesOldest | internal/bridge/bridge.go:172-190 | recovery that asks for twice the limit queues the oldest of each direction, by counts of older pending rows, and all of them if and only if neither direction has more than the limit |
| Recovery.BootQueuesOldest | internal/bridge/bridge.go:172-190 | so does the engine's boot step |
| EngineInvariants.StepKeepsMessages | internal/bridge/storage.go:185-296 | no step deletes a row or changes its key, payload or creation time |
| EngineInvariants.InvStep | internal/bridge/server.go:59-72 | every step keeps: both channels within the limit, only matching jobs of the right direction in each, every job's row present with the same tenant, direction and payload, one row for each key |
| EngineInvariants.Reachable | cmd/bridge/main.go:149-155 | those facts hold in every state of every run, through any number of crashes and restarts |
| Lives.EveryStepIsAMove | internal/bridge/bridge.go:70-113 | every step of the engine, seen from one message, is one move of the message's own automaton: the step relation and the projection commute |
| Guarantees.LivesAreSound | internal/bridge/bridge.go:54-113 | the per-message invariant from which the bounds below are read holds in every state of every run |
| Guarantees.LiveJobBound | cmd/bridge/main.go:149-155 | in one process lifetime a message has at most one live job plus one for each admin retry whose job reached its channel |
| Guarantees.JobsBound | internal/bridge/bridge.go:54-68 | in one process lifetime the jobs of a message, queued or ever taken by a worker, are at most one plus one for each admin retry whose job reached its channel |
| Counts.HandlesAreCounted | cmd/bridge/main.go:149-155 | handles and live jobs, of which the bounds speak, are the message's places in both channels and the goroutines that hold it |
| Counts.PastIsCounted | internal/bridge/bridge.go:54-113 | insertions, replies, jobs taken, successes, pushed retries and reopenings, of which the bounds speak, are places in the log: of the process lifetime, or since the last sweep, where they are counted so |
| Duplicates.LiveJobStep | internal/bridge/server.go:288-296 | a step from at most one live job leads to more if and only if a handler sends a job of the message into a channel with room while another is queued or running |
| Duplicates.OneLiveJobIffNeverDuplicated | internal/bridge/admin.go:96-108 | over a run a message never has two live jobs if and only if no such send is made |
| Duplicates.GuardedHasOneLiveJob | internal/bridge/admin.go:69-94 | none is made where admin retries wait until the message has no handle |
| LateIntake.SlowHandlerDoubles | internal/bridge/server.go:275-297 | a run of seven steps in which an operator's retry finds no job of the message queued or running, and the slow handler of its first delivery then queues the second |
| Guarantees.DoneWasProcessed | internal/bridge/bridge.go:90-103 | a done row has a processing run that returned nil, logged after its insertion |
| Guarantees.AttemptsBound | internal/bridge/bridge.go:92-95 | the attempts column never exceeds four times the jobs ever taken for the row |
| Guarantees.MessagesNeverChange | internal/bridge/storage.go:185-199 | between any two points of a run every row keeps identity and payload |
| Guarantees.IdempotentIntake | internal/bridge/server.go:275-297 | over redeliveries, interleavings and crashes each tenant, direction and external id has one row and is answered "queued" at most once |
| Guarantees.JanitorLeavesNoneBehind | internal/bridge/bridge.go:152-170 | a row already over an hour old at the last sweep is pending only if an operator reopened it after that sweep |
| Guarantees.PendingIsYoung | internal/bridge/bridge.go:129-132 | with sweeps at most five minutes apart no row stays pending beyond an hour and five minutes unless reopened since the last sweep |
| Finality.OneHandleIffGuarded | internal/bridge/admin.go:69-108 | over a run a message never has two handles if and only if no admin retry of it takes effect while it still has one |
| Finality.DoneStep | internal/bridge/server.go:293-294 | a step overwrites done if and only if it is the mark of a finally failed job or the "queue full" mark of a stalled handler, and the database carries it out |
| Finality.DoneStaysIffNeverMarkedFailed | internal/bridge/storage.go:247-251 | over any stretch of any run a done row stays done if and only if none of these two steps is taken in it |
| Finality.DoneIsFinal | internal/bridge/bridge.go:98-112 | where no admin retry takes effect on a message that still has a handle, nothing acts on its done row and it stays done through sweeps, retries, crashes and recoveries |
| Counterexample.DoneCanBeOverwritten | internal/bridge/bridge.go:98-112 | a run of 15 steps with two live jobs of one message in which the second fails after the first has made the row done |
| LateRejection.DoneCanBeRejected | internal/bridge/server.go:288-296 | a run of 15 steps in which a row is swept, retried, delivered and done before the handler of its first delivery marks it "queue full" |
| Stranding.EveryMoveStrandsExactly | internal/bridge/bridge.go:90-113 | on one message's automaton: a move leaves it stranded if and only if it strands it or finds it stranded without releasing it, and it records why |
| Stranding.StrandedStep | internal/bridge/admin.go:69-108 | the same for every step of every run of the engine, with stranding and release told from the state the step is taken in and its own outcome |
| Stranding.NoSilentStranding | internal/bridge/web/dlq.go:25-44 | a pending row without a handle was stranded by one step, for the cause on record, and has been stranded without release since |
| Stranding.StrandedIff | internal/bridge/bridge.go:172-190 | a row is pending without a handle if and only if some step of the run stranded it and none has released it since |
| Stranding.PendingIsHandled | internal/bridge/bridge.go:90-113 | up to any point of a run the row was queued, in flight or held by a handler whenever it was pending, if and only if no step so far stranded it |
| StrandedRow.PendingWithoutAHandle | internal/bridge/web/dlq.go:25-44 | a run of eight steps, ending in a retry from the web page, to a pending row without a handle |
| Retry.RetryEnds | internal/bridge/bridge.go:70-88 | the loop ends with a given result after a given number of calls if and only if all earlier attempts failed retriably and outlived their backoff and the last one succeeded, failed fatally, was the last allowed or was cancelled in its backoff |
| Retry.TotalWaitBounds | internal/bridge/bridge.go:32-38 | the waits add up to between 0.75 and 1.25 times their backoffs, but for truncation of less than a unit each |
| Retry.WaitsOfAJob | internal/bridge/bridge.go:28-38 | the three waits of a job come to between 27 and 45 seconds, but for three nanoseconds of truncation |
| Retry.JitterReaches | internal/bridge/bridge.go:32-38 | every wait from 0.75 up to 1.25 times the duration can be drawn |
| Retry.AnswersDecideTheRow | internal/bridge/bridge.go:70-113 | given the exchange that decides each attempt, the number of attempts and the fate of the row are k and f if and only if exchange k is the first non-transient one, the fourth or the one whose backoff was cut off, and f is what it calls for |
| Retry.AllTransient | internal/bridge/bridge.go:70-88 | a job that is never cut off and meets only transient answers makes four attempts |
| Retry.AnswerClasses | internal/bridge/wablast.go:212-228 | the retried answers are the transient ones, and acceptance, time-out and refusal end in done, an unmarked and a failed row |
| Retry.AnswerByAnswer | internal/bridge/wablast.go:212-228 | the statuses and codes after which the database's, Chatwoot's and either gateway's answers are retried, accepted or fail the row, one by one: 5xx, 429, unusable bodies and three codes are transient, a closed window only where no relay follows |
| HandlerRuns.EnqueueRun | internal/bridge/server.go:275-297 | enqueue without interruption is a run of at most three engine steps |
| HandlerRuns.EnqueueOutcome | internal/bridge/server.go:275-297 | table and channels after enqueue in each case: failed insert, duplicate, queued, channel full |
| HandlerRuns.AdminRetryRun | internal/bridge/admin.go:69-108 | the admin retry without interruption is a run of at most two engine steps |
| HandlerRuns.AdminRetryOutcome | internal/bridge/admin.go:69-108 | the row is pending again even when the channel is full and nothing was queued |
| HandlerRuns.LoopRun | internal/bridge/bridge.go:70-88 | the retry loop from any attempt on is a run of the engine, whatever its attempts return |
| HandlerRuns.JobRun | internal/bridge/bridge.go:90-113 | runJob, from the first count to the mark, is a run of the engine that changes one row and removes one goroutine |
| HandlerRuns.JobMarks | internal/bridge/bridge.go:90-113 | by the error of the last attempt the row is done without an error text, failed with that text, or left as it was after a context error; other rows do not change |
| HandlerRuns.AnswersDecideTheTable | internal/bridge/bridge.go:90-113 | the deciding exchanges settle attempts and status of the job's row, and no other row changes |
| GatewayJobs.UploadMedia | internal/bridge/wablast.go:168-207 | an upload succeeds if and only if it is answered below 400 with a media id; without one it is retried |
| GatewayJobs.SendMedia | internal/bridge/wablast.go:93-114 | success if and only if the file, the media id and the message were all accepted; otherwise the error of the first that was not |
| Exchanges.WalkEnds | internal/bridge/wablast.go:93-114 | a call returns what the first of its exchanges that is not accepted calls for, or the last |
| GatewayJobs.AttemptGoesByDecisive | internal/bridge/bridge.go:495-532 | an attempt of processOutbound, for any payload and number of attachments, returns what the first exchange that is not accepted calls for, or the last, the tenant lookup and the refusal of the payload among them |
| Exchanges.SomeExchangeIsDecisive | internal/bridge/bridge.go:517-531 | every attempt has such an exchange |
| GatewayJobs.ExchangesDecideTheJob | internal/bridge/bridge.go:495-532 | end to end, for every payload, either gateway and any cancellation: attempts and fate are k and f if and only if the deciding exchanges say so |
| GatewayJobs.ExchangesDecideTheTable | internal/bridge/bridge.go:90-113 | and the job's row ends with k more attempts and that status, no other row changing |
| GatewayJobs.UnsendableFailsAtOnce | internal/bridge/bridge.go:500-511 | a payload that does not parse or has nothing to send or nobody to send it to costs one attempt, no effect and a failed row, once its tenant is found |
| InboundJobs.ProcessInbound | internal/bridge/bridge.go:465-493 | it succeeds if and only if tenant, payload and cache were read, the contact or the search after a taken number and the conversation were answered or the cache hit, and cache write, media and post were accepted; otherwise the error is that of the first of these that failed, named in each case |
| InboundJobs.InboundOutcome | internal/bridge/bridge.go:465-493 | the same of the specification by which whole jobs are judged |
| InboundJobs.MakeContact | internal/bridge/bridge.go:591-666 | after a miss: create, search instead if the number is taken, then the conversation, up to the first failure |
| InboundJobs.PostMessage | internal/bridge/inbound_media.go:19-60 | the attachment is fetched before the message is posted, up to the first failure |
| InboundJobs.InboundExchangesDecideTheJob | internal/bridge/bridge.go:465-493 | end to end for inbound jobs: attempts and fate are k and f if and only if the deciding exchanges say so |
| InboundJobs.InboundExchangesDecideTheTable | internal/bridge/bridge.go:90-113 | and the job's row ends with k more attempts and that status, no other row changing |
| Store.Channel.TrySend | internal/bridge/server.go:288-296 | a send succeeds if and only if there is room and appends at the end |
| Store.Channel.Receive | internal/bridge/bridge.go:58-66 | a receive takes the oldest job |
| Store.MessageStore.InsertMessage | internal/bridge/storage.go:185-199 | a row is created unless its key exists; a refused call changes nothing, a lost answer hides an insertion |
| Store.MessageStore.MarkStatus | internal/bridge/storage.go:247-251 | status and error text of the row are replaced, nothing else |
| Store.MessageStore.SweepStale | internal/bridge/storage.go:237-245 | pending rows over 3600 seconds old fail as stale, no other row changes, and the result is how many did |
| Store.MessageStore.RequeueMessage | internal/bridge/storage.go:283-296 | a failed row, and no other, becomes pending with attempts and error erased, and its job is returned |
| Store.MessageStore.NextPending | internal/bridge/storage.go:352-371 | the result is the oldest pending rows in order of creation, none left out below the limit |
| Service.Server.constructor | internal/bridge/server.go:59-72 | both channels are empty and bounded by the limit, 1000 if none is configured |
| Service.Server.Refill | internal/bridge/bridge.go:177-188 | recovery's loop leaves each channel with the first B rows of its direction, in order, of those it was given |
| Service.Server.RecoverPending | internal/bridge/bridge.go:172-190 | recovery queues only pending rows, each with fewer than the limit of older ones its way and twice as many in all, skips only rows with that many not younger ones, and skips none if and only if neither direction has more than the limit; a failed query leaves both channels empty; server and channels are as after the engine's boot step |
| Service.Server.ReceiveJob | internal/bridge/bridge.go:54-68 | a worker takes the oldest job of its channel and no other, and is then the engine's goroutine about to count its first attempt |
| Service.Server.Enqueue | internal/bridge/server.go:275-297 | "queued" means that the key was new, its row is there, pending and unattempted, and its job is at the end of its direction's channel; "duplicate" that a row with the key exists and nothing changed; "channel full" that the channel was at its limit and the new row says so; any database error is told; the state is the end of the engine run |
| Service.RepliesAreLogged | internal/bridge/server.go:275-297 | the caller is told "queued", or "duplicate", if and only if the run's log has just that reply |
| Service.Server.RequeueJob | internal/bridge/admin.go:96-108 | the job goes to its own direction's channel if that has room, and nowhere else |
| Service.Server.HandleAdminRetry | internal/bridge/admin.go:69-94 | "queued" and "channel full" mean that the failed row is pending again with attempts and error erased, and that its job is at the end of its channel or that the channel was at its limit; "not failed" that nothing changed; the state is the end of the engine run |
| Service.Server.HandleDLQRetry | internal/bridge/web/dlq.go:25-44 | "accepted" means that a failed row is pending again with attempts and error erased, "not failed" that nothing changed; neither channel is touched |
| Service.Server.Janitor | internal/bridge/bridge.go:152-170 | one tick fails exactly the pending rows created more than 3600 seconds ago, changes nothing else, and is one sweep step of the engine |
| Service.JobRunner.RetryLoop | internal/bridge/bridge.go:70-88 | the loop returns what its specification says, with that many attempts counted and the waits of all backoffs but the last call's |
| Service.JobRunner.RunJob | internal/bridge/bridge.go:90-113 | the table afterwards is the one the engine's job run leaves |
| Outbound.CwAttachments | internal/bridge/bridge.go:319-337 | the loop keeps the attachments that have a URL |
| Outbound.KeptIsSelection | internal/bridge/bridge.go:319-337 | the kept attachments are those with a URL, each once and in order, images, sounds and films as such and everything else as a document |
| Outbound.World.RelayOutbound | internal/bridge/bridge.go:538-547 | one send; if it met the closed window a private note follows and the error becomes fatal |
| Outbound.World.ProcessOutbound | internal/bridge/bridge.go:495-532 | the external effects and result of one attempt are those of its specification, error cases included |
| Outbound.World.SendAll | internal/bridge/bridge.go:517-531 | attachments are sent in order, the text as caption of the first only, up to the first failure |
| Outbound.BridgePostsAreNotRelayed | internal/bridge/bridge.go:299-305 | neither kind of message the bridge writes to Chatwoot, reported with the fields it was written with, is relayed |
| Outbound.RelayedIffAgentsMessage | internal/bridge/bridge.go:299-305 | of all messages and events, an agent's public message is relayed when it is created, and nothing else |
| OutboundTraces.JobRunsBegetNoJobs | internal/bridge/server.go:239-242 | nothing an outbound job run writes to Chatwoot leads to a further job, whatever event Chatwoot makes of it; inbound job runs write customer messages only, which Outbound.BridgePostsAreNotRelayed covers |
| OutboundTraces.SendShape | internal/bridge/bridge.go:517-531 | an attempt's effects are a prefix of the attachment list, the whole list on success, with a note only after a closed window |
| OutboundTraces.JobSendsPrefixes | internal/bridge/bridge.go:495-532 | a job run's sends are one prefix for each attempt, at most four, each from the first attachment; on success the last is the whole list |
| OutboundTraces.MultiAttachmentDelivery | internal/bridge/bridge.go:495-532 | each attachment is sent at most four times, an earlier one at least as often as a later one, and at least once on success |
| LifetimeSends.AttachmentBound | internal/bridge/bridge.go:90-113 | in one process lifetime the jobs taken of a message send each attachment at most four times, and four times more for each admin retry whose job reached its channel |
| OutboundTraces.TextOnFirstAttachmentOnly | internal/bridge/bridge.go:517-526 | over any number of attempts every attachment goes, with the URL and kind it was kept with, to the source id or else to the sender's number, and the text is the caption of the first and of no other |
| OutboundTraces.SentToTheRecipient | internal/bridge/bridge.go:504-527 | whatever an attempt sends goes to the source id, or to the sender's number if there is none; a text is the content, a note goes to the conversation |
| OutboundTraces.TextIsSentOnce | internal/bridge/bridge.go:504-516 | an attempt on a sendable text whose tenant is found sends it exactly once |
| OutboundTraces.NothingIsSent | internal/bridge/bridge.go:495-511 | an attempt sends nothing if and only if the tenant is not found or the payload does not parse, has no recipient or nothing to send; the latter three are not retried |
| OutboundTraces.WindowClosedNote | internal/bridge/bridge.go:538-554 | a private note is the last effect of its job run, directly after the send that met the closed window, and no retry follows |
| OutboundTraces.NoteIffWindowClosed | internal/bridge/bridge.go:538-547 | a job run leaves a note if and only if it ends with the closed window |
| ContactAgreement.OneOwner | internal/bridge/bridge.go:610-632 | within an account a phone number has one owner |
| ContactAgreement.StepStaysRight | internal/bridge/bridge.go:591-666 | a step keeps all cached and used ids right if and only if it is not a search whose first hit is another contact |
| ContactAgreement.RightIffGoodSearches | internal/bridge/bridge.go:634-650 | over a run all ids are right in every state if and only if every search lists the owner of the number first |
| ContactAgreement.WritersAgree | internal/bridge/storage.go:162-171 | then ids in use at any two times, also for two tenants of one account, name the same existing contact with that number |
| ContactAgreement.PostsReachTheOwner | internal/bridge/bridge.go:465-493 | then every inbound message is posted to an existing conversation with the owner of its sender's number |
| ContactAgreement.MisleadingSearch | internal/bridge/bridge.go:645-650 | a run in which the first hit is another contact and the message goes to that contact's conversation |
| ContactRaces.EveryConversationIsAccountedFor | internal/bridge/bridge.go:652-666 | conversations made for a sender are those cached, those wasted and those still to be cached, and no more than the cache misses |
| ContactRaces.RaceBound | internal/bridge/bridge.go:591-608 | however workers race, a sender's conversations never outnumber the resolvers that had missed the cache when it was first written |
| ContactRaces.MadeForIsSize | internal/bridge/bridge.go:652-666 | the conversations counted are those of Chatwoot's that were made for the sender |
| ContactRaces.MissesAreSizes | internal/bridge/bridge.go:591-595 | the misses counted are the sender's resolvers that missed the cache |
| ContactRaces.BoundIsMet | internal/bridge/bridge.go:591-608 | for every n there is a run in which n resolvers make n conversations |
| ContactRaces.LateResolversMakeNothing | internal/bridge/bridge.go:591-595 | a resolver that looks after the first write asks Chatwoot for neither contact nor conversation |
| ContactRaces.AtMostOneConversation | internal/bridge/bridge.go:652-666 | whatever races, a sender has at most one conversation if and only if no request for one was carried out while there was one, cached, held by another resolver or wasted |
| ContactRaces.ExactlyOneWhenRacing | internal/bridge/bridge.go:591-608 | and a cached sender then has exactly one |
| ContactRaces.WasteStep | internal/bridge/bridge.go:652-666 | a conversation is wasted exactly by a lost answer, a refused write or a stop between the two |
| ContactRaces.WasteIsCounted | internal/bridge/bridge.go:465-493 | the wasted conversations of a run are as many as its steps of those three kinds |
| ContactRaces.OneConversation | internal/bridge/bridge.go:465-493 | one at a time, a sender has one conversation, cached or about to be, and one more for each such step |
| ContactRaces.ExactlyOneConversation | internal/bridge/bridge.go:465-493 | one at a time, a cached sender has exactly one conversation if and only if no step of the run so far was of those three kinds |
| ContactService.DriveRun | internal/bridge/bridge.go:465-493 | a resolver that nothing interrupts is a run of the contact machine |
| ContactService.Bridge.CreateContact | internal/bridge/bridge.go:610-650 | the id is that of the new contact, with "+" and the sender's id as its number, or of the first hit of the search if the number is taken; the machine's steps are taken |
| ContactService.Bridge.ResolveContact | internal/bridge/bridge.go:591-608 | a hit gives the cached ids and makes no request; a miss gives ids if and only if contact and conversation were answered, namely those of the owner and of the new conversation; the machine's resolver holds the same |
| ContactService.Bridge.CacheAndPost | internal/bridge/bridge.go:478-493 | the cache write comes first and also after a hit, the last writer wins, and the post follows exactly if the write is answered |
| ContactService.Bridge.ProcessInbound | internal/bridge/bridge.go:465-493 | on a hit nothing changes and the message is posted if and only if the cache write is answered; on a miss if and only if contact, conversation and write are, and then the cache holds the new ids and the post goes to the new conversation; all is as the machine's resolver leaves it |
| Text.LastSeparator | internal/bridge/web/pairing.go:34 | what stands before and after the last separator is unique |
| Decimal.ParseFormatted | internal/bridge/session.go:20-42 | parsing a formatted integer gives it back if and only if it fits 64 bits |
| Decimal.NoLeadingZero | internal/bridge/session.go:20 | numbers are written without leading zeros |
| Decimal.ParsesIff | internal/bridge/session.go:42-45 | a number is parsed if and only if the text is an optional sign and digits that come to it and it fits 64 bits |
| Decimal.ValueByPlace | internal/bridge/session.go:42 | each digit counts by its place |
| Decimal.WrapIsCongruent | internal/bridge/crypto.go:38 | 64-bit arithmetic gives the number in range that differs by a multiple of 2^64 |
| Decimal.ParsedAnywayAgrees | internal/bridge/web/pairing.go:75-82 | the number that counts where ParseInt's error is ignored is the one written, a bound of 64 bits if it does not fit, or 0 |
| Decimal.AnywayIsNearest | internal/bridge/web/pairing.go:75-82 | a number that does not fit counts as the nearest one that does |
| Base64.EncodedSymbols | internal/bridge/session.go:55 | an encoding produces only its alphabet and padding |
| Base64.Examples | internal/bridge/session.go:55 | the examples of section 10 of RFC 4648, with padding and without |
| Base64.Alphabets | internal/bridge/session.go:55 | the symbols of the three encodings |
| Base64.SextetsAreTheBits | internal/bridge/session.go:55 | four symbols are the 24 bits of three octets, the high ones first |
| Base64.RoundTrip | internal/bridge/session.go:22-30 | decoding undoes encoding for every string of octets in all three encodings |
| Base64.NewlinesAreSkipped | internal/bridge/inbound_media.go:103 | newlines anywhere in the text make no difference |
| Base64.LastGroups | internal/bridge/inbound_media.go:103 | padding is asked for exactly where the encoding has it, and loose bits of a last symbol do no harm |
| Session.SessionRoundTrip | internal/bridge/session.go:15-50 | the token in full, what is encoded and what is signed; it gives its email back until expiry exactly for the nonempty emails without a bar, and is rejected otherwise |
| Session.AcceptedTokens | internal/bridge/session.go:25-50 | a token is accepted for an email if and only if it is some text that decodes to the email, without a bar, a bar and an unexpired number, then a dot and the encoded MAC of that decoded text |
| Password.PHCRoundTrip | internal/bridge/password.go:31-60 | parsing a formatted hash gives salt and key back |
| Password.HashText | internal/bridge/password.go:22-35 | a stored hash in full |
| Password.AcceptedHashes | internal/bridge/password.go:46-60 | a text parses as a hash with a given salt and key if and only if it has five fields after dollar signs, the first "argon2id" and the last two the encodings; version and parameters are not read |
| Password.VerifyHashed | internal/bridge/password.go:22-44 | a stored hash accepts exactly the passwords with the stored key under its salt |
| Password.VerifiedIffKey | internal/bridge/password.go:37-44 | whatever is stored, a password is accepted if and only if that is a hash whose key is the password's under its salt, and there is an error if and only if it is no hash |
| Pairing.PairTextIsInjective | internal/bridge/web/pairing.go:33-38 | no two claims sign the same text, even with a bar in the slug |
| Pairing.VerifiedIffSigned | internal/bridge/web/pairing.go:33-49 | a claim is good if and only if it names a slug, has not expired, and its token is, in 64 hexadecimal digits, the MAC of slug, bar and expiry |
| Pairing.ExpiryIsExact | internal/bridge/web/pairing.go:51-56 | a link expires its lifetime (a day if not positive) after it is built if and only if that is at most 9223372036 seconds |
| Pairing.Trimmed | internal/bridge/web/pairing.go:58 | slashes, all of them and nothing else, are cut off the end of the base URL |
| Pairing.LinkText | internal/bridge/web/pairing.go:51-60 | a pair link in full |
| Pairing.LinkRoundTrip | internal/bridge/web/pairing.go:40-82 | for a slug as the database admits it, the claim read from a link is the one it was built for, and it verifies exactly until the link expires |
| DataUrl.SplitShape | internal/bridge/inbound_media.go:115-131 | type and data of a data URL come back if and only if no comma stands before the data and no semicolon in the type |
| DataUrl.TakenWhole | internal/bridge/inbound_media.go:115-123 | a text is taken whole and without a type if and only if it lacks the scheme or a comma after it |
| DataUrl.DownloadRoundTrip | internal/bridge/inbound_media.go:98-112 | a file sent as a base 64 data URL arrives whole and with its type, or without one with the declared type or else its kind's |
| DataUrl.BareDownload | internal/bridge/inbound_media.go:98-112 | bare base 64 arrives whole with the declared type, or else the one of its kind, if and only if the file is not empty |
| DataUrl.NothingArrives | internal/bridge/inbound_media.go:98-106 | there is an error if and only if the gateway reports one, sends no data, or the data is not base 64 |
| DataUrl.DefaultMimes | internal/bridge/inbound_media.go:192-204 | the type of each kind of media |
| Webhook.FieldsFromAreWords | internal/bridge/crypto.go:44 | the fields of a header are exactly its maximal stretches without white space |
| Webhook.AsciiSpaces | internal/bridge/crypto.go:44 | the ASCII characters that separate fields |
| Webhook.SkewIsExact | internal/bridge/crypto.go:38-40 | the 64-bit skew test agrees with exact arithmetic on every time stamp if and only if the clock is at least 300 from either end of the 64-bit range |
| Webhook.SignedFixesItsParts | internal/bridge/crypto.go:42 | the signed text determines the body that follows an id and a time stamp, and all three where id and time stamp hold no dot |
| Webhook.FindSignature | internal/bridge/crypto.go:44-53 | the token loop finds the signature if and only if some white-space-separated token is v1, and the signature |
| Webhook.VerifyStandardWebhook | internal/bridge/crypto.go:26-54 | a request is accepted if and only if the secret is "whsec_" and a key in base 64, the time stamp a 64-bit number within 300 seconds of the clock, and some token of the header "v1," and the base 64 of the MAC, under that key, of id, dot, time stamp, dot and body |
| Webhook.SignedIsAccepted | internal/bridge/crypto.go:26-54 | a header with that token, written out, among any others, is accepted exactly within 300 seconds |
| Sql.QuotedIsReadBack | cmd/bridge/main.go:307 | PostgreSQL reads a quoted string as exactly that string and leaves exactly the text after it if and only if that text does not extend the constant |
| Sql.DoublesQuotesOnly | cmd/bridge/main.go:307 | every quote is doubled and nothing else changes |
| Bootstrap.EnsureRole | cmd/bridge/main.go:285-294 | the role exists afterwards, with the given password if nobody else made it; nothing is issued if it existed |
| Bootstrap.AlreadyExistsCodes | cmd/bridge/main.go:309-315 | 42710 and 42P04 count as existing already, 23505 does not |
| Bootstrap.EnsureDatabase | cmd/bridge/main.go:295-304 | the database exists afterwards, owned by the role if nobody else made it; nothing is issued if it existed |
| Bootstrap.BootstrapDatabase | cmd/bridge/main.go:278-305 | it succeeds if and only if none of its calls fails, whatever others create meanwhile, and then role and database exist; a collision on the catalogue's unique index (23505), which isAlreadyExists does not accept, is such a failure |
| Bootstrap.BootstrapTwice | cmd/bridge/main.go:274-277 | a rerun after success issues no statement |

## Left out

- HTTP routing, authentication of the webhooks other than the Standard Webhooks signature, JSON decoding and multipart encoding: messages are parsed records and remote calls are parameters.
- handleReady's capacity test, metrics, tracing and logging: they change no modelled state.
- The ignore decisions of the two WhatsApp webhooks: single conditions on a parsed payload, before anything is stored. The Chatwoot one is modelled, because the absence of relay loops rests on it.
- Payload normalisation by the JSONB column: a payload is an abstract value that is stored and returned unchanged.
- Deletion of tenants, which takes their rows along, and changes of a tenant's settings: rows are never deleted in the model.
- Several bridge processes on one database: the code assumes one process, and boot recovery would double the jobs of another.
- The number of workers: the engine lets any number of jobs be in flight at once, so its theorems hold for every pool size.
- Interleaving inside the imperative methods: they run uninterrupted. All interleavings are in the two step machines, whose steps the methods are proved to take.
- Deletion, merging and edits of contacts in Chatwoot: contacts and conversations are only added, with phone and identifier unique within an account.
- Which errors the requests of resolveContact return, in the contact machine: it ends the attempt. InboundJobs says what follows for each.
- Attachment file names, MIME tables and size checks: single-branch tables.
- MegaAPI's checks of a file before it is sent: a refusal counts as an exchange that is never asked; the probing requests themselves decide nothing.
- Rounding of the jitter in floating point: the factor is a real number.
- The random salt of HashPassword and the clock: parameters.
- Path and query escapes in pair links: slugs as the database admits them, and tokens, contain nothing to escape.
- Backslash escapes in SQL constants, which PostgreSQL reads only with standard_conforming_strings off, and comments between the parts of a continued constant.
- AES-GCM encryption of stored secrets, and VerifyHMAC for Chatwoot's own signature: library calls.
