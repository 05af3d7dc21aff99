# Verification of the atproto-acl model

This project models the parts of the repository whose correctness is hardest to see and proves what they
promise. `dafny verify dfyconfig.toml` checks everything.

* **The policy evaluator** (`Policy`, `PolicySoundness`, `RuleOrder`, `Receipts`): three truth values, polarity under
  negation, the stricter reading of allow rules, expiry, coverage. Missing evidence never overturns a conclusive
  verdict, indeterminacy is exact, and a trimmed receipt replays every decision.
* **The action protocol** (`Planning`, `Ledger`, `Runtime`): consequence planning, the write-ahead journal of one
  account, and the command line that executes a receipt and may be killed between any two durable steps.
* **The hosted service** (`Hosted` and the modules named after it): one action worker and the web process over two
  databases. `Hosted` is the step machine: every step makes at most one durable change. `HostedInvariants`,
  `HostedItems`, `HostedEngines`, `HostedWrites`, `HostedDeletion` and `HostedOutcomes` prove one invariant each,
  `HostedTheorems` states what follows for every run, `HostedReview` when a doubtful job is reviewed, and
  `HostedRetractions` when a confirmed item's journal attempt is closed again. `HostedWorker` is the worker in its own
  imperative form, each operation a step of the machine with web requests and death in between: its single steps are in
  `HostedSteps`, the order and the durable changes of its operations in `HostedScripts`. `HostedWitnesses` shows two
  runs from the empty service in which the records say less than they seem to.
* **Coordination** (`Controls`, `Scheduler`, `OAuthCustody` with `OAuthSessions`, `RuleProjection`, `Labels`): sliding
  windows and leases, the re-entrant keyed scheduler, single-use refresh tokens (the refresh grant of section 6 of
  RFC 6749), projection of the account rules, resumable discovery.
* **Bounded and aggregating algorithms** (`FeedExposure`, `GuidedPolicy`, `QuenchObservation`) against a simple form.

Conventions. Times are integers and a clock never runs backwards. Tables are maps and sequences; one transaction is one
step. Digests are injective, so a digest is kept as the digested value: an evidence id is its fact, a row is its own
fingerprint, a token or a rule set is its own hash. Random ids are fresh. A parsed YAML document stands for its text.
Remote reads and writes, signature checks, raised errors, the choices of other processes and deaths are unconstrained
choices. One worker process runs at a time; it may die and be restarted.

Where the code and its documentation differ, the code is modelled:

* An item recorded as confirmed can end up with an unresolved journal attempt: the handler around the effect also
  catches an error of the steps after the item was recorded. `HostedRetractions` gives the exact condition on the run
  and why the item can still read confirmed, `HostedWitnesses.ConfirmedItemLosesItsAttempt` a run.
* A job that ends with an uncertain item becomes `needs_review` exactly if no check turned its run away since the claim:
  a deletion, a disconnected account, a changed policy, a failed preview or read, an exhausted capacity, an unavailable
  journal, a refused gate, an erased job or an escaped error. An expired approval sends it to review without a tally, a rate limit
  queues it again, and a restart reviews it (`HostedReview`). `HostedWitnesses.PolicyChangeHidesDoubt` is a run that
  ends unreviewed.
* A stored session is read with two statements, and a refresh searches its session before the transaction that records
  the intent. `OAuthCustody` states what holds across processes nevertheless; an intent is about the stored session
  exactly if nothing replaced the session between that search and that recording.
* A lease that cannot be given back keeps its scheduler slot for good (`Scheduler.Engine.Complete`).
* The combined analysis of a capture suppresses at least as much as its feeds apart exactly if the exposures it merges,
  because both feeds show their ids, are no more than the lineages that both feeds count
  (`QuenchObservation.TogetherWithOneRecordPerId`, `TogetherAgainstApart` for captures whose ids stand for several
  records; `SharedIdsBreakIt` is a capture where it fails). Sanitized samples share no ids.

## Model

| member | source | states |
|---|---|---|
| `Policy.EvaluateRules` | src/atproto_acl/policy.py:311-345 | the evaluation loop computes the specification's decision: results, used ids, outcome, basis and reason together |
| `Policy.Winner` | src/atproto_acl/policy.py:326-329 | the winner is the greatest rank among conclusively matched rules, attained by one of them unless it is zero |
| `PolicySoundness.BindingTruthHolds` | src/atproto_acl/policy.py:251-308 | polarity soundness by induction: a truth value that binds in its mode (true outside negation, false inside it, both for allow rules) is the classical value of the predicate in every world the evidence allows |
| `PolicySoundness.ConclusiveVerdictHoldsInEveryWorld` | src/atproto_acl/policy.py:311-345 | a quarantine verdict has a quarantine rule that holds and no allow rule that holds in every world the evidence allows; an allow verdict has an allow rule that does |
| `PolicySoundness.BindingTruthSurvives` | src/atproto_acl/policy.py:251-308 | a binding truth value is unchanged by anything added where the publisher was not completely read |
| `PolicySoundness.ConclusiveVerdictSurvivesCompletion` | src/atproto_acl/policy.py:251-345 | missing evidence cannot overturn a conclusive verdict: quarantine, or basis allow_rule, keeps outcome and basis under every completion of the evidence |
| `PolicySoundness.NoMatchCanBeOverturned` | src/atproto_acl/policy.py:331-332 | the promise is for conclusive verdicts only: a concrete policy and evidence with no match that a completion turns into quarantine |
| `PolicySoundness.CoverageOnlyResolves` | src/atproto_acl/policy.py:256-308 | for fixed observations more coverage only resolves unknown truths and never changes a known one, nor the ids used |
| `PolicySoundness.CoverageKeepsDeterminateVerdicts` | src/atproto_acl/policy.py:311-345 | a determinate outcome and basis never change when coverage grows |
| `PolicySoundness.Resolve` | src/atproto_acl/policy.py:328-330 | settling unknown rules one way or the other keeps names, dispositions and known truths and leaves nothing unknown |
| `PolicySoundness.IndeterminateExactly` | src/atproto_acl/policy.py:326-332 | the outcome is indeterminate if and only if two ways of settling the unknown rules give different winning dispositions |
| `PolicySoundness.RuleOrderHasNoInfluence` | src/atproto_acl/policy.py:311-345 | two policies with the same rules in any order and repetition give the same outcome, basis, reason, disagreement and used evidence |
| `RuleOrder.SortRules` | src/atproto_acl/policy.py:199 | sorting loses, adds and changes no rule |
| `RuleOrder.SortRulesSorts` | src/atproto_acl/policy.py:199 | uniquely named rules come out strictly sorted by name |
| `RuleOrder.RuleOrderHasNoAuthority` | src/atproto_acl/policy.py:199 | any two orderings of uniquely named rules compile to the same list, and compiling again changes nothing |
| `Receipts.EvalReports` | src/atproto_acl/policy.py:291-308 | every leaf's latest events are among the ids its evaluation reports, in whatever polarity and mode |
| `Receipts.EvalOnTrimmed` | src/atproto_acl/runtime.py:107-117 | dropping observations no decision used leaves truth and ids of every predicate unchanged, at every time and in every mode |
| `Receipts.ReceiptReplays` | src/atproto_acl/runtime.py:107-117 | for every subject of a receipt and every evaluation time, the decision on the trimmed evidence is identical to that on the full evidence |
| `Receipts.RefetchDoesNotRenew` | src/atproto_acl/policy.py:251-288 | evaluation depends on the facts only: fetching them again, in another order or more often, gives no new standing |
| `Planning.MutePlannedExactly` | src/atproto_acl/adapters.py:65-110 | a mute, direct or through follow review, is planned if and only if the verdict is quarantine, nothing exempts or allows, the ledger is untracked or released, the remote state is known, unblocked and without a mute of any shape, and a followed review has a known relationship |
| `Planning.ReleasePlannedExactly` | src/atproto_acl/adapters.py:65-116 | a release is proposed if and only if the mute is attributed, still direct and undivided, not kept, not exempt, and nothing justifies it any more |
| `Ledger.Store.constructor` | src/atproto_acl/store.py:165-177 | a new store has an empty, lawful history |
| `Ledger.Store.Begin` | src/atproto_acl/store.py:165-170 | one transaction adds the pending attempt and marks the subject unresolved; the history stays lawful |
| `Ledger.Store.Finish` | src/atproto_acl/store.py:172-177 | one transaction closes the attempt and settles the ledger; success is only recorded directly after its own request |
| `Ledger.Store.Set` | src/atproto_acl/store.py:123-124 | a suspension or an acknowledged resume replaces the subject's status and nothing else |
| `Ledger.RequestsAlternate` | src/atproto_acl/store.py:165-177 | in every lawful history two requests of one kind for a subject are separated: mutes by an explicit resume or a confirmed unmute, unmutes by a confirmed mute |
| `Ledger.StaysRefused` | src/atproto_acl/adapters.py:88-116 | from the begin of a request until something releases it the ledger refuses that kind of request |
| `Ledger.FrozenUntilResumed` | src/atproto_acl/adapters.py:88-91 | along every lawful history an unresolved or suspended subject with no request in flight stays so until it is explicitly resumed: nothing is begun for it, and whatever is decided and observed, nothing is planned |
| `Ledger.AttemptSentOnce` | src/atproto_acl/store.py:165-170 | no journal row is ever sent twice |
| `Ledger.ConfirmedWasSent` | src/atproto_acl/store.py:172-177 | a journal row reads confirmed only if its request really left |
| `Runtime.BuildReceipt` | src/atproto_acl/runtime.py:95-121 | each row is the plan of its subject's evaluation against the ledger and the remote state; the evidence kept is exactly the trimmed evidence |
| `Runtime.FreshPlanJustifies` | src/atproto_acl/runtime.py:165-179 | a fresh plan equal to the reviewed row means the ledger permits the request and the action is rightful at that moment |
| `Runtime.SuspendChanged` | src/atproto_acl/runtime.py:161-163 | the history grows by exactly one suspension for each manually changed mute, in order, or by a first part of them if it is killed; nothing is sent |
| `Runtime.SendJournalled` | src/atproto_acl/runtime.py:180-190 | journal, request and close, in this order and each the last thing that may happen; the one request it adds is justified, and a raised one is closed as unresolved |
| `Runtime.ExecuteOne` | src/atproto_acl/runtime.py:164-190 | a candidate whose observation and fresh plan are unchanged is journalled and sent; a changed one sends nothing, and is suspended if and only if its observation changed and it is attributed |
| `Runtime.Execute` | src/atproto_acl/runtime.py:124-193 | however it ends, every request it sent was justified when sent, at most max_actions of them, and the ledger history is lawful |
| `Runtime.Resume` | src/atproto_acl/cli.py:164-171 | only a suspended or unresolved subject is resumed, to untracked |
| `Runtime.Session` | src/atproto_acl/cli.py:164-171 | over any sequence of executions, resumes and crashes the requests alternate |
| `Runtime.SentMuteIsSound` | src/atproto_acl/runtime.py:164-190 | end to end: a mute sent from a trimmed receipt was quarantined by all the evidence of its preview at the time of writing, and stays so under every completion of that evidence |
| `HostedEngines.PreviewsPermit` | src/atproto_acl/adapters.py:65-116 | whatever a preview plans against a journal, what it proposes has that journal's permission |
| `HostedTheorems.AlwaysKept` | web/src/worker.ts:45-263 | the combined invariant of tables, live run, items, journals, requests, deletion and outcomes holds in every state of every interleaving of worker steps, web requests, crashes and restarts |
| `HostedTheorems.NoReplay` | web/src/worker.ts:213-253 | in every run no item and no effect reservation is requested twice |
| `HostedTheorems.RequestIsPrepared` | web/src/worker.ts:213-237 | when a request leaves, its journal row is committed and is the journal's last word, its item is marked with that attempt, its reservation is open, its job is running, its row is exactly what the fresh preview plans, and nothing was sent for the item before |
| `HostedTheorems.EveryRequestWasApproved` | web/src/service.ts:739-794 | every request is of an approved account, kind and exact row; its item, while stored, is attempting, confirmed or uncertain with that attempt, never pending again |
| `HostedTheorems.ReservationsAreNotRevived` | web/src/worker.ts:220-251 | reservations are closed while open only, and closed as refused only when nothing was sent on them |
| `HostedTheorems.ConfirmedItemsAreBacked` | web/src/worker.ts:236-253 | a confirmed item has a matching read and an attempt of its own subject and kind, and that attempt reads confirmed if and only if the handler around the effect did not overwrite it |
| `HostedRetractions.NotesTellTheRun` | web/src/worker.ts:236-253 | along every run: an item counts as retracted if and only if closing its reservation raised after it was recorded as confirmed, and the handler then closed its attempt as unresolved in the journal while the item was still stored |
| `HostedRetractions.AttemptsAreConfirmedUnlessRetracted` | web/src/worker.ts:236-253 | a confirmed item has an attempt, which reads confirmed if and only if the run never retracted it in that way |
| `HostedRetractions.ConfirmedDespiteRetraction` | web/src/worker.ts:248-253 | a retracted item that still reads confirmed: the answer of the handler's close was lost, or the handler died or raised before rewriting the item, or has yet to rewrite it |
| `HostedWitnesses.ConfirmedItemLosesItsAttempt` | web/src/worker.ts:240-253 | a reachable run in which closing the reservation raises, the handler closes the journal row as unresolved and its answer is lost: the item stays confirmed |
| `HostedTheorems.CompletedJobsAreConfirmed` | web/src/worker.ts:255-263 | every item of a completed job is confirmed by a matching read |
| `HostedTheorems.TallyIsExact` | web/src/worker.ts:255-263 | at the tally: completed if and only if every item is confirmed, needs_review if and only if some item is uncertain, and the other two outcomes as named |
| `HostedReview.DoubtIsReviewedUnlessTurnedAway` | web/src/worker.ts:99-263 | along every run, from the claim of a job to its verdict with web requests in between: if it still has an uncertain item it ends in needs_review if and only if no check turned the run away |
| `HostedReview.OnlyTallyAndExpiryReview` | web/src/worker.ts:108-263 | over every exit of a run: with an uncertain item the verdict is needs_review at the tally and after an expired approval, and nowhere else |
| `HostedReview.HowRunsEnd` | web/src/worker.ts:99-263 | a run whose job exists ends by its verdict, by a rate limit that queues the job again, or by a death |
| `HostedReview.RestartReviewsDoubt` | web/src/worker.ts:45-62 | the restart sends an interrupted job to review if and only if one of its items is uncertain or was being attempted |
| `HostedWitnesses.RateLimitRequeuesDoubt` | web/src/worker.ts:188-197 | a reachable run of a job with two items: the first is left uncertain by the handler, and a rate limit at the second queues the job again |
| `HostedWitnesses.PolicyChangeHidesDoubt` | web/src/worker.ts:124-130 | the run goes on: the policy is edited, and the job is closed as completed_with_skips with its item still uncertain, although its tally would say needs_review |
| `HostedTheorems.HostedRequestsAlternate` | src/atproto_acl/store.py:165-177 | in an account's journal two requests of a kind for a subject are separated by a confirmed request of the other kind |
| `HostedTheorems.AtMostOneLateRequest` | web/src/privacy.ts:117-131 | after a deletion request at most one further request leaves for the account before the erasure, whatever is requeued, recovered or signed up again |
| `HostedTheorems.NothingActsAfterErasure` | web/src/privacy.ts:134-169 | after the erasure every request for the account belongs to a job approved later |
| `HostedDeletion.SecondWriteNeedsErasure` | web/src/privacy.ts:117-131 | read off any log that keeps the bound: two requests after a deletion request have an erasure between them |
| `HostedWorker.Worker.Others` | web/src/worker.ts:66-72 | between two operations any web requests happen and the process may die; the worker's place is otherwise kept |
| `HostedWorker.Worker.Claim` | web/src/worker.ts:74-86 | only while writes are enabled and only a queued job, which is marked running; otherwise nothing changes |
| `HostedWorker.Worker.RunNext` | web/src/worker.ts:88-97 | one turn ends idle or dead, and every state it passes is a state of the step machine |
| `HostedWorker.Worker.Run` | web/src/worker.ts:99-263 | however a run ends, normally, by an error or by death, it stands where the step machine says |
| `HostedWorker.Worker.CheckRun` | web/src/worker.ts:108-130 | deletion, expiry, connection and policy are checked in this order; each failing check has its own exit, with its own skips and verdict, and only a run that passes all four goes on |
| `HostedWorker.Worker.AcquireRun` | web/src/worker.ts:131-154 | a rate limit queues the job and leaves the run idle, another failure ends it as awaiting reconnect or failed, a receipt starts the item loop with its rows and pending items |
| `HostedWorker.Worker.PerformItems` | web/src/worker.ts:155-263 | the pending items are visited each once and in order, and after the last comes the tally; a deletion skips what is pending and tallies, and any other end is that of the item at hand |
| `HostedWorker.Worker.PerformItem` | web/src/worker.ts:160-211 | cancellation, applicability and unchanged state, and the reservation come in this order, each with its own end, before any effect |
| `HostedWorker.Worker.PerformEffect` | web/src/worker.ts:213-254 | the journal row, the mark with its attempt and the gates come in this order before anything is sent or refused; an unjournalled effect gives its reservation back and fails the job |
| `HostedWorker.Worker.SendEffect` | web/src/worker.ts:236-253 | the request leaves once; then read back, journal, item and reservation are written in this order, and a failure at any of them is followed by the handler's script, which sends nothing |
| `HostedWorker.Worker.RefuseEffect` | web/src/worker.ts:225-235 | a refused gate closes the journal row as unsuccessful, returns the item to pending, refuses the reservation and pauses the job, in this order and sending nothing |
| `HostedWorker.Worker.HandleEffect` | web/src/worker.ts:248-253 | the handler closes the attempt as unresolved, the item and the reservation as uncertain, in this order, and returns to the loop; if closing the attempt raises, that was all and the job fails |
| `HostedWorker.Worker.ConfirmEffect` | web/src/worker.ts:26-43 | up to three reads: the answer is yes if and only if one of them matches, and no only after all three |
| `HostedWorker.Worker.Recover` | web/src/worker.ts:45-62 | a restart is the recovery transaction and leaves the worker idle |
| `Controls.EveryDayIsWithinLimits` | web/src/controls.ts:142-154 | every closed 24-hour window, however placed, holds at most the configured number of counting reservations, globally and per account |
| `Controls.ServiceControls.ReserveEffect` | web/src/controls.ts:142-154 | a reservation is granted if and only if writes are open and both windows have room at the counted time; the limits survive it |
| `Controls.ServiceControls.FinishEffect` | web/src/controls.ts:156-158 | one row's status changes; the limits survive unless a refused reservation is brought back |
| `Controls.ServiceControls.Begin` | web/src/controls.ts:33-54 | a bridge lease is granted if and only if the account may run under maintenance and, after expiry, there is room; a refusal rolls the expiry back |
| `Controls.ServiceControls.Finish` | web/src/controls.ts:56-59 | a bridge lease is completed; the limits survive |
| `Controls.ServiceControls.StartAcquisition` | web/src/controls.ts:83-107 | an acquisition starts running exactly when there is room and otherwise waits only while the queue has a place; the limits survive |
| `Controls.ServiceControls.ClaimAcquisition` | web/src/controls.ts:115-120 | a waiting acquisition is claimed if and only if it still waits and there is room |
| `Controls.ServiceControls.BeginAcquisition` | web/src/controls.ts:83-125 | whatever other processes do during the wait, success means a running lease of the account, and the limits survive |
| `Controls.ServiceControls.FinishAcquisition` | web/src/controls.ts:127-129 | an acquisition is completed; the limits survive |
| `Controls.ServiceControls.Erase` | web/src/privacy.ts:154-169 | erasing an account drops exactly its rows; the limits survive |
| `Controls.ShrinkingKeepsLimits` | web/src/controls.ts:33-59 | expiring, finishing, refusing and deleting rows never break a limit |
| `Scheduler.Engine.Schedule` | web/src/engine.ts:81-90 | a call starts if and only if a slot of each kind is free, is rejected if and only if it cannot start and the queue is full, and otherwise waits last; counts, bounds, order and settledness are kept |
| `Scheduler.Engine.StartCall` | web/src/engine.ts:92-107 | a start takes a slot; a lease refused at once gives it back and drains from within, and the recursion terminates by the queue's length |
| `Scheduler.Engine.Drain` | web/src/engine.ts:109-119 | afterwards no queued call could run, calls of one key have started in arrival order, and whoever was passed over had its own key saturated |
| `Scheduler.Engine.Complete` | web/src/engine.ts:100-107 | a finished call frees its slot and drains; if giving back its lease fails, its slot is lost for good |
| `Scheduler.TakeFirst` | web/src/engine.ts:110-117 | taking a call past calls of other keys takes the first of its own key |
| `OAuthCustody.EachTokenIsSentOnce` | web/src/oauth-custody.ts:33-50 | with every holder finishing within its lease, over every interleaving of refreshes, crashes, deletions and reconnects each refresh token is sent at most once |
| `OAuthCustody.OutlivedLeaseSendsTwice` | web/src/oauth-custody.ts:33-50 | a concrete run in which a holder outlives its lease and sends a spent token |
| `OAuthCustody.ReadsReturnUnsentTokens` | web/src/oauth-custody.ts:87-100 | a read's token was not sent when the read began, and if it has been sent since, an intent recorded between the read's two statements says so |
| `OAuthCustody.LockedReadsAreUnsent` | web/src/oauth-custody.ts:87-100 | under the lock a loaded token was never sent and no intent is open |
| `OAuthCustody.IntentsAreAboutTheSession` | web/src/oauth-custody.ts:109-134 | over every run: an open intent, recorded for a session found earlier, is about the stored session if and only if no reconnect, refresh or deletion replaced that session between the search and the recording |
| `OAuthCustody.EveryIntentIsExplained` | web/src/oauth-custody.ts:109-134 | every open intent has such a search and recording in the run |
| `OAuthCustody.ReconnectMakesIntentStale` | web/src/oauth-custody.ts:109-134 | a concrete, timely run in which a reconnect comes in between |
| `OAuthCustody.BlockedUntilDeleted` | web/src/oauth-custody.ts:65-107 | along every run an intent that is not about the session blocks the account: until a deletion neither intent nor session changes |
| `OAuthSessions.Custody.Get` | web/src/oauth-custody.ts:87-100 | two statements with others in between: an open intent is an error, otherwise the stored session, not sent when the read began |
| `OAuthSessions.Custody.Set` | web/src/oauth-custody.ts:65-85 | one transaction replaces the session and closes its intent, or refuses and changes neither when the intent is not about the stored session |
| `OAuthSessions.Custody.Del` | web/src/oauth-custody.ts:102-107 | session and intent go together |
| `OAuthSessions.Custody.Fetch` | web/src/oauth-custody.ts:109-134 | the refresh token leaves last, after its session was found and its intent recorded; a failure leaves the lock |
| `OAuthSessions.Custody.Refresh` | web/src/oauth-custody.ts:33-50 | one refresh under the account's lock; the lock is left however it ends |
| `RuleProjection.ReadinessIsTruthful` | web/src/service.ts:99-105 | whenever the readiness check passes the engine's overrides are the authoritative rules, across edits, imports, failed and killed projections, re-projections and crashes |
| `RuleProjection.EditsLoseNothing` | web/src/service.ts:107-127 | an edit that goes through changes its own subject in its own layer of the current rules and nothing else |
| `RuleProjection.LateMarksAreHarmless` | web/src/service.ts:87-97 | an answered projection makes exactly the still current version ready and never unreadies anything |
| `RuleProjection.OneReadCatchesUp` | web/src/service.ts:59-85 | from any quiet moment one read and its projection make the account ready without changing its rules |
| `Labels.Discover` | src/atproto_acl/labels.py:117-151 | however a discovery run ends, even between two writes, every account label before the stored cursor is stored and its subject found; a run that reports exhaustion has found everyone in the log |
| `Labels.DiscoverAgain` | src/atproto_acl/labels.py:117-151 | so over any number of runs while the publisher writes |
| `Labels.Store.AddEvidence` | src/atproto_acl/store.py:96-100 | one transaction adds the missing evidence ids and keeps the first record of each |
| `Labels.Store.Find` | src/atproto_acl/store.py:113-114 | subjects are found row by row; a death part way loses none found before |
| `Labels.PageExtends` | src/atproto_acl/labels.py:117-151 | an honest page stored in full extends the covered part of the log to the page's end |
| `Labels.CollectPage` | src/atproto_acl/labels.py:98-103 | the labels of a page are taken in order up to the first that is of another subject or fails its check, and what was read before it is kept |
| `Labels.CollectBatch` | src/atproto_acl/labels.py:86-115 | a completed batch has every account label of its subjects, and nothing else; a failed one keeps what it read |
| `Labels.Collect` | src/atproto_acl/labels.py:86-115 | every requested subject gets coverage, complete coverage means no published label is missing, and all evidence is published |
| `Labels.CollectedVerdictsHold` | src/atproto_acl/labels.py:86-115 | a conclusive verdict on collected labels is the verdict on everything the publisher published, however incomplete the collection |
| `FeedExposure.Extract` | web/src/feed-exposure.ts:106-235 | exposures carry distinct keys, are all found by the unbounded walk, at most 16 for an item and at most the total; the extraction is complete if and only if the feed fits the bounds, and then its keys are those of the unbounded walk |
| `FeedExposure.Extractor.Add` | web/src/feed-exposure.ts:122-131 | a key already seen costs nothing; a new one is taken if and only if the item and the whole have room |
| `FeedExposure.Extractor.VisitEmbed` | web/src/feed-exposure.ts:133-185 | the recursive visit adds only what the walk finds below the embed and stays complete if and only if that part is sound and its keys have room |
| `FeedExposure.Extractor.VisitItem` | web/src/feed-exposure.ts:187-226 | so for one feed item |
| `FeedExposure.FitsStep` | web/src/feed-exposure.ts:187-226 | one more item fits if and only if it is sound and its own new keys and the total are within bounds |
| `GuidedPolicy.BuiltDocumentsAreReadBack` | web/src/policy-editor.ts:115-163 | reading a built document returns every field the form represents |
| `GuidedPolicy.SameBoxesSameMeaning` | web/src/policy-editor.ts:98-104 | two accepted conditions with the same boxes ticked judge every subject alike, in truth and ids, in every mode |
| `GuidedPolicy.ShownMeans` | web/src/policy-editor.ts:98-104 | an accepted condition means the disjunction of the conditions the form shows as present, whatever its order, repetition or nesting |
| `GuidedPolicy.EditingPreservesDecisions` | web/src/policy-editor.ts:43-163 | rebuilding an accepted document of the Cornell family from its fields gives a policy with the identical decision for every subject, evidence and time |
| `GuidedPolicy.CombineSame` | src/atproto_acl/policy.py:296-307 | combining children does not depend on their order or repetition |
| `QuenchObservation.SuppressionConserves` | web/src/quench-observation.ts:112-173 | suppressed exposures are the determinate ones less one for each distinct lineage; repeated and single lineages, and unique and duplicate observations, add up |
| `QuenchObservation.DistributionConserves` | web/src/quench-observation.ts:144-145 | the distribution weighted by size sums to the determinate exposures, unweighted to the lineages |
| `QuenchObservation.ExposuresAreAccountedFor` | web/src/quench-observation.ts:113-115 | in a valid capture determinate and indeterminate exposures are all exposures |
| `QuenchObservation.DuplicatesOnlyCount` | web/src/quench-observation.ts:101-108 | a repeated observation id changes the count of duplicates and nothing else |
| `QuenchObservation.TogetherAgainstApart` | web/src/quench-observation.ts:177-188 | for every capture, what both feeds together suppress against what they suppress apart: at least as much if and only if the merged exposures and the lineages shown together are no more than the lineages shown apart |
| `QuenchObservation.TogetherWithOneRecordPerId` | web/src/quench-observation.ts:177-188 | where one id stands for one record: together suppress at least as much if and only if no more exposures merge than lineages are shown by both feeds |
| `QuenchObservation.TogetherSuppressesMore` | web/src/quench-observation.ts:177-188 | where the feeds share no ids, both together suppress exactly one more exposure than apart for each lineage both show |
| `QuenchObservation.SanitizedIsSeparate` | web/src/quench-observation.ts:71-99 | sanitized captures are valid and share no ids between feeds |
| `QuenchObservation.SharedIdsBreakIt` | web/src/quench-observation.ts:177-188 | a concrete valid capture with one record for each id, some shared by both feeds, where both together suppress less |
| `QuenchObservation.GroupingConserves` | web/src/quench-observation.ts:116-121 | grouping keeps every row, makes no empty group, and has one group for each lineage |
| `QuenchObservation.UniqueOrdered` | web/src/quench-observation.ts:101-108 | each id's first observation, in order |
| `QuenchObservation.GroupRows` | web/src/quench-observation.ts:116-121 | rows by lineage in the order of each lineage's first row |
| `QuenchObservation.Distribute` | web/src/quench-observation.ts:144-145 | how many lineages have each number of exposures |
| `QuenchObservation.Analyze` | web/src/quench-observation.ts:112-173 | the loops compute the specified analysis but for the statistics by actor and the fractions, and its counts conserve |

## Left out

- Evidence with an explicit evidence_id: the id is always the digest of the record.
- Schema validation in compile_policy, YAML errors and the attention lineages: the evaluator's facts (nonempty children, positive ages, unique rule names) are preconditions; RuleOrder models the sort.
- Reason strings, audit rows, display fields and disposition reasons: they do not drive state.
- _followed_policy: whether a follow review applies to a subject is a parameter of planning.
- Rebinding of identities, locks between command line processes and the paging of PrivateMuteAdapter.observe: one process holds the state lock, and an observation is one value.
- A bridge child process that outlives a dead worker and commits later: a call of the worker ends with its process. RuleProjection does model such a child of the web process.
- Hosted: approvals repeated with the same batch (they return the earlier job), preview expiry at approval, approval capacity, and available_at delays (any queued job may be claimed).
- Hosted: the mode after_releases of a deletion, tombstones and reconcileRestore; an erasure between standing and purge may come at any later time, with or without the engine file.
- Hosted: maintenance mode; the last look at the gates may refuse for it or because they cannot be read.
- Hosted: several workers at once, and several web processes with writes to one account's rules.
- HostedWorker.Worker.RunNext: the endless service loop and its waits; one turn is modelled.
- Controls: hourly acquisition starts are checked but no bound is stated, since reaped rows are deleted. After an erasure the bounds are about the remaining rows.
- Scheduler: spawning, timeouts and results of bridge calls; the health cache.
- OAuthCustody: validation of a session's subject, completeness and key; unreadable stored values; the polling wait for the lock, which here is refused at once.
- RuleProjection: handles remembered with rules, and the policy part of an import; the rule methods are steps of one machine rather than a class.
- Labels: key rotation and the label signature itself are one check that may fail.
- FeedExposure: embeds shared by identity or cyclic (the values are trees), lineage of items, paging of sampleFeed and acquireRelationships.
- GuidedPolicy.EditingPreservesDecisions: does not cover the Bsky38 document, because its reader does not look for further predicate keys.
- QuenchObservation.Analyze: does not compute the statistics by actor, the comparison with actor policies and the fractions, which only divide or filter the counts.
- HTTP, HTML, OAuth library calls, DID resolution, configuration, deployment, backups, admission and portable envelopes.
