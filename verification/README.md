# Butler supervision, verified

A Dafny model of the parts of Butler's server that keep its promises: the callback records that say which reply is
owed to the operator, the review attempts made on them, the dispatch of further Worker turns, the questions put to the
operator, and the sequence algorithms behind transcript, activity, proofs and context. `dafny verify dfyconfig.toml` checks all of it.

## How it is modelled

**Callback reviews.** `Callbacks.dfy` says on values what each operation does to one record and its two counters.
`CallbackService.dfy` holds the mutable records and maps, and with `JobWork.dfy` what a dispatch replaces of a job's payload and
review scope; its methods are proved to do just that, to keep or replace the record object as `butler-agent.ts` does, and to
leave every other job alone. `CallbackProtocol.dfy` is one job as a transition system: every operation, plus selection, begin,
attempt, settlement and late settlement as separate steps, plus save and crash, in any order. What holds in every run:
`CallbackSafety` (who is charged, who starts a review), `CallbackObligations` (what ends a debt), `CallbackTiming` (when an
attempt may begin), `CallbackRollback` (what a rollback undoes, what a crash gives back), `CallbackHolds` (a held review stands
still), `CallbackProgress` (no review stalls), `CallbackPromises` (reviews and crashes leave the promise alone),
`CallbackReports` (what a registration records, and what becomes of a report), `CallbackOutcomes` (what each step leaves
behind, and that a closed callback stays closed).
`CallbackWitnesses` gives concrete histories where the fences do not hold. `CallbackFleet` puts all jobs together with the
scheduler and its passes: each job lives its own life in the protocol, and that only one is reviewed at a time follows.
`ReviewSelection` and `ReviewScheduler` are the pass's choice and its scheduler.

**Dispatch.** `DispatchSaga.dfy` follows the flags and try/catch blocks of `continueWorkerJobLocked`; the answers of the outside
world at each await, and what the operator does to the turn budget meanwhile, are a parameter, so a theorem over all answers is one
over all failure points. `DispatchSafety.dfy` draws the conclusions, for one dispatch and for whole histories.

**Questions, locks, writes.** `OperatorQuestion*.dfy`, `QuestionOptions.dfy`, `QuestionThread.dfy`; `PromiseTail.dfy` is the
hand-made lock that lets a question's mutation count as one step, `SummaryWrites.dfy` the chain of activity writes and the
copies they depend on.

**Reviews and gates.** `AdversarialReview.dfy`, `ReviewRecords.dfy`, `CloseoutGate.dfy`.

**Sequences.** `ActivityTurns`/`ActivityInvariants`, `MessageMatching`, `MessagePages`, `HistoryCleaning`, `ProofSelection`,
`DirectoryWalk`, `TurnContext`, `ToolSchemas`, `Watchdogs`; `Sorting`, `Texts` and `Options` serve them.

## Assumptions

- A job's mutations run one at a time, first come first served (proved for the lock in `PromiseTail`); operations that hold
  it are single steps. Request times are distinct. Times never run backwards within a run, except where a theorem says otherwise.
- Clocks, saved-or-not, what the Worker thread shows, what a send answers, and whether a transcript proves a delivery are
  parameters. Only `DispatchSafety.ErrorsOwnUp` says something about the outside: an accepted send that fails says so.
- Random ids are distinct.

## Where the code does less than it seems to promise

The code is modelled as it is; each point is a lemma with its exact condition or a concrete input.

- The end of a timed-out closeout charges the attempt's thread without asking whether its record is still in the map
  (`CallbackSafety.ReplacedRecordIsLeftAlone`, `CallbackWitnesses.NewRegistrationInheritsAFailure`).
- A rollback that arrives after its reservation was taken for dispatched, while the job is selected, can let an attempt begin too early
  (`CallbackTiming.BadBeginFollowsALateRollback`, `CallbackTiming.LateRollbackMayBeginEarly`,
  `CallbackWitnesses.RolledBackAttemptBeginsEarly`).
- A count cleared under a running attempt, or a failure counted on a record that replaced the attempt's, comes back wrong after a
  crash: `CallbackRollback.StepKeepsRetry` has the exact guards, a lemma for each says what breaking it leads to, and
  `CallbackWitnesses` reaches two of them.
- An error before the send that reads like a lost connection counts a turn that was never sent (`DispatchSafety.TurnIsCountedOnce`),
  a failed reservation may leave its record reserving (`DispatchSafety.LeftReserving`), and a private follow-up may go
  uncounted (`DispatchSafety.PrivateFollowUpMayMissACount`, `DispatchSafety.UncountedTurnWasMissed`).
- An option id with runs of white space is offered but cannot be chosen (`OperatorQuestionRuns.ChoosableOptions`); recovery may
  leave two open questions in one turn (`QuestionThread.RecoveryKeepsOneOpen`, `QuestionThread.RecoveryMayJoinTwoOpenQuestions`).
- Tool items with an empty call id escape the one-item rule (`ActivityInvariants.EmptyCallIdsAddUp`, `ActivityInvariants.EmptyCallIdsRepeat`).
- A second cleaning can drop a turn the first kept (`HistoryCleaning.SecondPassDropsNothing`, `HistoryCleaning.BareStringIsDroppedLate`).
- A report whose stamp is older than a recorded one is reviewed again (`AdversarialReview.OlderReportIsReviewedAgain`,
  `AdversarialReview.ReportIsRecordedTwice`), and the closeout gate looks at the first finding per run only (`CloseoutGate.OpenGateOverlooksLaterFindings`).

## Model

| member | source | states |
|---|---|---|
| `CallbackSafety.EachAttemptFailsAtMostOnce` | butler/src/server/butler-agent.ts:880-970 | In every interleaving of reserving, binding, rolling back, reconciling, cancelling, retrying, stopping, recovering orphans, timed-out and late settlements, saves and crashes, each review attempt is charged with at most one failure |
| `CallbackSafety.SettlementChargesItsOwnAttempt` | butler/src/server/butler-callback-review-runner.ts:216-236 | A settlement, in time or late, charges no attempt but its own, whatever happened to the job since |
| `CallbackSafety.ReplacedRecordIsLeftAlone` | butler/src/server/butler-agent.ts:918-967 | A settlement whose record was replaced leaves records, count and not-before time alone exactly when it does not fall back to charging the attempt's own record; only the end of a failed or timed-out closeout does that |
| `CallbackSafety.OnlyBeginStartsReviews` | butler/src/server/butler-agent.ts:881-907 | No operation, settlement, recovery, rollback or reload makes a record run that did not run before; only a begin that takes its job does |
| `CallbackSafety.LostCloseoutDoesNothing` | butler/src/server/butler-agent.ts:926-967 | In every interleaving, a closeout that was not done within its five seconds does nothing at all when the lock reaches it later: it posts no reply, clears no counter, changes no record |
| `CallbackSafety.EndedAttemptHasNoGuard` | butler/src/server/butler-callback-review-runner.ts:657-663 | Once an attempt has failed, ended or been abandoned, its tools never get their guard back, whatever happens to the job in any later run |
| `CallbackWitnesses.NewRegistrationInheritsAFailure` | butler/src/server/butler-agent.ts:967-967 | A legal history in which that fallback, five seconds after the attempt ended, makes a new registration, on which nothing ever ran, count one failure and wait thirty seconds |
| `CallbackObligations.StepOwes` | butler/src/server/butler-closeout-gate.ts:113-147 | For every step of every reachable job, the reply is owed afterwards if and only if the step's own rule says so: it stays owed except after a post, an operator stop, a supersession, a removal or a rollback, and becomes owed only by a registration, a rollback that restores one, or a reload |
| `CallbackObligations.DebtEndsWithItsDischarge` | butler/src/server/butler-closeout-gate.ts:113-147 | An owed reply is owed no more after a step if and only if the step is one of seven, told apart before it is taken: a post, an operator stop, a removal, a begin on a newer slice, an applied rollback that puts back nothing owed, the end of a fenced closeout, a restart from a file that owes nothing |
| `CallbackObligations.OwedUntilDischarged` | butler/src/server/butler-callback-state.ts:58-77 | Once owed, the reply stays owed over every run without such a step: no failure, pause, block, retry or registration ends it |
| `CallbackObligations.EndedDebtWasDischarged` | butler/src/server/butler-closeout-gate.ts:113-147 | A reply that is owed at one point of a life and not at a later one was discharged by such a step between them, and was owed until then |
| `CallbackObligations.ClosedIsAlwaysSettled` | butler/src/server/butler-callback-state.ts:90-253 | In every interleaving, including crashes, a callback is closed if and only if it owes nothing, and then its review is idle |
| `CallbackTiming.EveryAttemptBeginsWell` | butler/src/server/butler-agent.ts:870-907 | Every attempt that begins finds its callback owed, dispatched, past its not-before time and on the current work slice, although begin checks neither the dispatch nor the time, whatever happened before the job was selected and whatever has happened since, unless a rollback since then took back a reservation older than the selection and put back a slot that is reserved or was not due when the job was selected |
| `CallbackTiming.BadBeginFollowsALateRollback` | butler/src/server/butler-agent.ts:306-306 | An attempt that begins otherwise has such a rollback behind it, at a named step after the very selection it begins from, when its reservation had been taken for dispatched |
| `CallbackTiming.EveryBeginWasSelected` | butler/src/server/butler-agent.ts:870-907 | Every begin of every life has a last selection before it, from which a run without a further selection leads to it, so the other theorems cover every begin |
| `CallbackTiming.LateRollbackMayBeginEarly` | butler/src/server/butler-agent.ts:306-306 | For the begin after a rollback, exactly when it is bad: if and only if the slot put back is owed, on its slice, queued (or a running review whose guard is gone), and reserved or not due |
| `CallbackWitnesses.RolledBackAttemptBeginsEarly` | butler/src/server/butler-agent.ts:883-904 | A legal history that ends with an attempt enabled at time 11 although its not-before time is 30005 |
| `CallbackTiming.AttemptsAreSpaced` | butler/src/server/butler-callback-review-runner.ts:668-699 | With the count not cleared since failure f (f = 1, 2) at time T, the attempt that begins next is attempt f + 1 and begins no earlier than T + 30000 * 2^(f-1), in every life in which no rollback breaks into the selection that this attempt begins from |
| `CallbackTiming.EveryCountIsMarked` | butler/src/server/butler-callback-review-runner.ts:668-699 | In every life without a restart, a count of failures, live or saved with a reservation, has the time and number of its last failure on record, so the spacing holds for every count |
| `CallbackTiming.FailuresAreCounted` | butler/src/server/butler-callback-review-runner.ts:668-699 | The failure after failure f is failure f + 1; from the third on the record is left blocked, before that it waits until the announced time, which is also the not-before time |
| `CallbackTiming.StepKeepsSelection` | butler/src/server/butler-callback-review-runner.ts:443-458 | Between selection and begin, while other jobs are reviewed, the selected job stays ready and due or stops being queued, under every step but a rollback that breaks into the selection |
| `CallbackRollback.RollbackUndoesReservation` | butler/src/server/butler-agent.ts:303-306 | A reservation, then any steps short of a restart, then its rollback: record, failure count and not-before time are exactly those before the reservation, a running review coming back queued unless its guard still held; if another request holds the record, nothing changes |
| `CallbackRollback.NewerRegistrationShieldsOlder` | butler/src/server/butler-agent.ts:306-306 | Once a newer registration is installed, and for as long as it holds the record, whatever happens short of a restart, the rollback of any older reservation changes nothing at all |
| `CallbackRollback.CrashRestoresRetry` | butler/src/server/butler-callback-state.ts:255-287 | Saving and crashing gives a waiting callback its count, not-before time and attempt back after any run in which no registration keeps a running review with failures counted, no reset clears the counters of a waiting or such a running review, no closeout starts to post with failures counted, and no closeout falls back on a replaced record |
| `CallbackRollback.StepKeepsRetry` | butler/src/server/butler-callback-review-runner.ts:668-699 | A step keeps record and counters in agreement (a running attempt is one past the failures counted, a waiting record announces what the counters say) if and only if it meets its guard, which can be read before it is taken |
| `CallbackRollback.MiscountFollowsADisturbance` | butler/src/server/butler-callback-state.ts:255-287 | If a crash does not give a waiting callback its count and not-before time back, some step of the run broke its guard |
| `CallbackRollback.KeptReviewIsMiscounted` | butler/src/server/butler-callback-state.ts:300-324 | First guard broken: an attempt other than the first whose own tool registers the job anew, then fails, leaves one failure counted and a crash that says more |
| `CallbackRollback.ResetReviewIsMiscounted` | butler/src/server/butler-agent.ts:689-699 | Second guard broken under a running attempt other than the first: the same, once it fails |
| `CallbackRollback.ResetWaitIsMiscounted` | butler/src/server/butler-agent.ts:689-699 | Second guard broken while the record waits: a crash brings back the counters that were reset |
| `CallbackRollback.FailedPostIsMiscounted` | butler/src/server/butler-agent.ts:926-967 | Third guard broken: an attempt other than the first ends well, and its closeout clears the count and then fails to post |
| `CallbackRollback.StrangerIsMiscounted` | butler/src/server/butler-agent.ts:967-967 | Fourth guard broken: the closeout of a replaced record is given up while the record in its place waits to retry |
| `CallbackWitnesses.KeptReviewIsMiscountedInFact` | butler/src/server/butler-callback-state.ts:300-324 | A legal history of two attempts that ends with one failure counted and two after a crash |
| `CallbackWitnesses.StrangerIsMiscountedInFact` | butler/src/server/butler-agent.ts:967-967 | A legal history of two reservations rolled back newest first that ends with two failures counted and one after a crash |
| `CallbackPersistence.ReloadKeepsObligation` | butler/src/server/butler-callback-state.ts:90-253 | Saving and loading any record keeps its obligation if and only if it is not the one typed shape that both owes a reply and says that its closeout was posted while a report was received; who gets the next report, model, attempt and sane stamps are kept |
| `CallbackPersistence.ReloadKeepsSettled` | butler/src/server/butler-callback-state.ts:90-253 | A settled record comes back settled and in the same state, nothing comes back running, and a review that was not running keeps its state |
| `CallbackPersistence.OldEntryIsReadByItsState` | butler/src/server/butler-callback-state.ts:90-253 | An entry from before obligations, channels and reviews were saved is read by its state alone: owed unless closed, else posted in the main chat, dispatched, its next report reviewed, a review queued if and only if the Worker was heard of or missed |
| `CallbackFleet.EachJobLivesItsOwnLife` | butler/src/server/butler-agent.ts:865-972 | Over any history of the whole service, scheduler, passes and all, each job's part is a legal life of that job alone and leads it to the same state, so every theorem about one job holds for all |
| `CallbackFleet.OneReviewAtATime` | butler/src/server/butler-agent.ts:865-972 | Over any history of a new service, with passes that start whenever the scheduler says so: at most one pass is in flight, exactly when the scheduler's flag says so, and at most one job is between begin and settlement, the first of those that pass still has to do |
| `CallbackFleet.NextJobCanBegin` | butler/src/server/butler-agent.ts:880-881 | When it is a job's turn in a pass, nothing but the job's own lock keeps the pass from beginning it |
| `CallbackFleet.EveryJobIsSafe` | butler/src/server/butler-agent.ts:865-972 | For every job of a service that started empty: no attempt is charged twice and a closed callback owes nothing and is idle |
| `CallbackHolds.StepHolds` | butler/src/server/butler-agent.ts:484-544 | A review that is paused or blocked stays so, for the same reason and report, over a step if and only if the step is not one that releases it: a registration, a rollback, news of the Worker, a report that is news to the block, another block, a post, stop or removal, a retry if it is a pause, a restart from a file without it |
| `CallbackHolds.HeldUntilReleased` | butler/src/server/butler-agent.ts:484-544 | Over every run without a releasing step a held review stays held and begins no attempt at any point |
| `CallbackHolds.CancelledJobBeginsNothing` | butler/src/server/butler-agent.ts:1417-1417 | After the operator's stop no attempt begins until a releasing step |
| `CallbackHolds.CancelledJobIsRetried` | butler/src/server/butler-agent.ts:1415-1415 | At any point of such a run a retry queues the review afresh with the chosen model, no failure counted and no wait, its obligation untouched |
| `CallbackHolds.ThirdFailureBeginsNothing` | butler/src/server/butler-callback-review-runner.ts:681-689 | After the third failure no attempt begins until a releasing step |
| `CallbackHolds.GatedCloseoutBeginsNothing` | butler/src/server/butler-closeout-gate.ts:84-111 | After a gate has blocked the closeout no attempt begins until a releasing step, and a retry is none |
| `CallbackProgress.AbandonedReviewIsRecovered` | butler/src/server/butler-callback-review-runner.ts:174-199 | Every review that runs while no attempt is at work on it has a deadline, from which on orphan recovery may take it; then the reply is still owed, one more failure is counted, and it waits or stands paused |
| `CallbackProgress.WaitingReviewCanBegin` | butler/src/server/butler-agent.ts:870-907 | A queued, dispatched review in no pass's hands begins an attempt one past the failures counted as soon as a pass takes it after its wait, or is closed as superseded |
| `CallbackProgress.ReservationIsReleased` | butler/src/server/butler-callback-state.ts:326-364 | A reservation whose sender never reports back is released if and only if the request's marker shows up or five minutes have passed; the turn with the marker is noted unless one was accepted already and nothing was reserved |
| `CallbackProgress.NoReviewStalls` | butler/src/server/butler-agent.ts:865-907 | From every reachable state in which an owed, dispatched review is queued or running in nobody's hands, at most three steps of the runner lead to an attempt, a pause or a closed callback |
| `CallbackPromises.PromiseOutlivesReviews` | butler/src/server/butler-callback-review-runner.ts:124-156 | Over any run of selections, attempts, failures, timeouts, late settlements, recoveries, blocks and saves, what is promised (request, slice, state, reports, dispatch, obligation, closeout) is word for word what it was, unless the run ends the debt |
| `CallbackPromises.CrashKeepsThePromise` | butler/src/server/butler-callback-state.ts:90-253 | After a save anywhere in a life, a crash gives the promise back word for word, but for a missing resolution, and no running review |
| `CallbackPromises.GuardDecidesTheAttempt` | butler/src/server/butler-callback-state.ts:300-324 | A reservation by the attempt's own tool makes the same promise as any other and lets the attempt go on with its review; from anywhere else it puts the attempt off, whose record stays as it is |
| `CallbackPromises.ReportSeenTwice` | butler/src/server/butler-agent.ts:484-544 | Processing the same report with the same verdict again at a later time changes nothing, unless the first time queued a callback that did not yet say that the report was received, or blocked one with the verdict that the review must finish; exactly then it does |
| `CallbackReports.RegistrationIsRecorded` | butler/src/server/butler-callback-state.ts:11-56 | After a registration the record is owed and carries what was registered: its time, who gets the next report, the dispatch state, the slice given or else inherited, the operator request and steer given or else those of the callback still owed; nothing of an older report, block or failure is left, and only a reservation by the attempt's own tool keeps its review |
| `CallbackReports.ReportIsDealtWith` | butler/src/server/butler-agent.ts:484-536 | A report for an owed, dispatched callback is never left lying: it is answered to the operator (if and only if the callback is not blocked and asks for that, and the report is unfinished, has text and meets no gate), or the gate blocks the callback for it, or the callback stands still for this report already, or a review of it is queued or under way |
| `CallbackReports.NoReportStalls` | butler/src/server/butler-agent.ts:484-536 | From every reachable state in which a report arrives for an owed, dispatched callback in nobody's hands, idle ones included, one post or at most three steps of the runner lead to a closed callback, an attempt, or a pause or block that stands for this report |
| `CallbackReports.ObservationIsRecorded` | butler/src/server/butler-agent.ts:443-464 | The state becomes received, missing or waiting as the thread shows a report, an idle Worker without one, or neither; the review is queued, with the reason that goes with it, if and only if a report or its absence is news |
| `CallbackReports.MissingIsReviewed` | butler/src/server/butler-agent.ts:537-548 | Without a report, a callback that misses its Worker gets its thread reviewed: a running review goes on for that reason, any other, also a blocked one, is queued; any other callback is left alone |
| `CallbackReports.SilenceIsDealtWith` | butler/src/server/butler-agent.ts:537-548 | A Worker seen idle without a report gets the thread itself reviewed, queued or still running, however the review stood before |
| `CallbackReports.ReportGoesWhereItWasAsked` | butler/src/server/butler-agent.ts:506-524 | After a registration, over every run without a step that sends the next report elsewhere: the next unfinished report with text and no gate against it is answered to the operator if and only if the registration asked for that |
| `CallbackReports.StepRedirects` | butler/src/server/butler-agent.ts:484-536 | Over every step of every job, the next report stays where it was to go if and only if the step is not one that sends it elsewhere, told apart before it is taken: another registration, an applied rollback, a cancel of an open review, a gate's block, a post, a removal, a third failure, a restart from a file that says otherwise or comes back blocked |
| `CallbackReports.RedirectedReport` | butler/src/server/butler-agent.ts:484-536 | A report that does not go where it was to go was sent elsewhere by such a step, at a named place in the run |
| `CallbackOutcomes.PostNeedsTheSlice` | butler/src/server/butler-operator-closeout.ts:68-75 | A tool's post, or one that the gate then refuses, finds its callback only if it is owed and, if bound to a work slice, bound to just the job's current one |
| `CallbackOutcomes.PostIsFinal` | butler/src/server/butler-operator-closeout.ts:118-130 | A posted reply, by a tool or by a closeout in time or late, closes the callback in the main chat with the resolution, report and time it was posted with; over every later run in which no other record takes its place it stays so and begins no attempt |
| `CallbackOutcomes.EndWithoutReplyIsFinal` | butler/src/server/butler-callback-state.ts:58-77 | An operator stop, also of a job without a record, and a begin on an older work slice close the callback with no reply required and none posted; it stays so and begins no attempt until another record takes its place |
| `CallbackOutcomes.StopLeavesNothingOpen` | butler/src/server/butler-callback-state.ts:58-77 | A stop leaves nothing of a review open and no failure counted, keeps what was asked and for which slice, and makes the record of a job that had none |
| `CallbackOutcomes.AttemptHasTwoMinutes` | butler/src/server/butler-callback-review-runner.ts:124-136 | An attempt is one more than the failures counted and touches no promise; if it is lost, orphan recovery may take its review exactly from two minutes after its begin on |
| `CallbackOutcomes.ProgressMovesTheDeadline` | butler/src/server/butler-callback-review-runner.ts:147-156 | Progress says how far the review is and moves its deadline if it brings one; nothing else changes |
| `CallbackOutcomes.FailureIsCounted` | butler/src/server/butler-callback-review-runner.ts:668-699 | A failure settled in time while the record is still the attempt's and one found by orphan recovery count the same: one more, with a wait of thirty seconds, then sixty, and at the third a pause for this report; the promise stays |
| `CallbackOutcomes.CancelStopsTheReview` | butler/src/server/butler-agent.ts:1417-1417 | A cancel stops an open review on account of the report there is and clears the failures; a job without one is left alone; the promise stays |
| `CallbackOutcomes.RetryStartsAfresh` | butler/src/server/butler-agent.ts:1415-1415 | A retry queues a paused review afresh, for the chosen model, from attempt zero and without failures; any other is left alone |
| `CallbackOutcomes.ResetClearsFailures` | butler/src/server/butler-agent.ts:689-699 | A reset clears the failures of any record and queues a review that was paused after its failures afresh |
| `CallbackOutcomes.CloseoutHeadLeaves` | butler/src/server/butler-agent.ts:926-963 | The head of a closeout, if it runs, clears the failures and leaves the reply owed: with nothing to post the review is at rest, a gate blocks it for the report it looked at, else it goes on to post |
| `CallbackOutcomes.LostCloseoutHeadDoesNothing` | butler/src/server/butler-agent.ts:926-931 | A closeout whose attempt has lost its record or whose work slice has been left does nothing |
| `CallbackOutcomes.LateSettlementsWaitInLine` | butler/src/server/butler-agent.ts:918-967 | A settlement not done within five seconds takes its place behind those that wait already, and no attempt of the job begins before all of them have run |
| `CallbackOutcomes.BindingIsForItsRequest` | butler/src/server/butler-agent.ts:304-304 | Only the record of the request named can be bound to a work slice, and it gets just that |
| `CallbackOutcomes.MarkIsForItsRequest` | butler/src/server/butler-agent.ts:305-305 | Only the record of the request named is marked dispatched, with the accepted turn; another's is left alone |
| `CallbackOutcomes.ChangesAreStamped` | butler/src/server/butler-callback-review-runner.ts:443-453 | Every step that changes a record stamps it with its time, by which passes order the records; only the note of a report needs no stamp, and a rollback or restart puts back what was saved |
| `CallbackOutcomes.SweepTakesTheOrphans` | butler/src/server/butler-callback-review-runner.ts:174-199 | The service's sweep charges exactly the reviews that orphan recovery may take, and in the same way |
| `CallbackService.CallbackStore.RegisterCallback` | butler/src/server/butler-agent.ts:308-326 | Counters are cleared and the new registration takes the slot; the old record object is kept if and only if a running review is to be preserved, otherwise the record is a new object; no other job changes |
| `CallbackService.CallbackStore.Reserve` | butler/src/server/butler-agent.ts:303-303 | Returns the slot and the job's payload and review scope as they were and installs the registration |
| `CallbackService.CallbackStore.BindWorkSlice` | butler/src/server/butler-agent.ts:304-304 | Binds the slice only if the record is still the given request's, and reports whether it was |
| `CallbackService.CallbackStore.MarkCallbackDispatched` | butler/src/server/butler-agent.ts:305-305 | Marks the record dispatched only if it is still the given request's |
| `CallbackService.CallbackStore.RollbackReservation` | butler/src/server/butler-agent.ts:306-306 | If the request still holds the record: refills the same record object from the reservation, or removes it, restores both counters, and puts payload and review scope back if they are still the dispatch's own; otherwise nothing changes |
| `JobWork.RollbackRestoresTheWork` | butler/src/server/direct-codex-message.ts:39-58 | At whatever point a dispatch fails, if nobody else has changed payload or scope, its rollback gives back exactly the original, stamps of the checklist included |
| `JobWork.RollbackIsAllOrNothing` | butler/src/server/direct-codex-message.ts:39-58 | Over every life in which a dispatch replaces payload and scope, step by step, while others write either of them and events stamp the checklist: the rollback brings the original work back if and only if neither part was last written by others; if a part the dispatch replaced was, it puts nothing back |
| `CallbackService.CallbackStore.ReconcileWithThread` | butler/src/server/butler-callback-state.ts:326-364 | The accepted turn is noted and the reservation released or kept, for this job alone |
| `CallbackService.CallbackStore.StartCloseout` | butler/src/server/butler-agent.ts:926-963 | The closeout's head acts if and only if the attempt's record object is still in the map, running, owed and on its slice; then it clears the counters and idles, blocks or goes on to post |
| `CallbackService.CallbackStore.FinishPost` | butler/src/server/butler-operator-closeout.ts:118-130 | A post closes the record if and only if the attempt's record object is still in the map, running and owed |
| `CallbackService.CallbackStore.CancelReview` | butler/src/server/butler-agent.ts:1417-1417 | A running or queued review is paused and its counters cleared, any other is left alone |
| `CallbackService.CallbackStore.RetryReview` | butler/src/server/butler-agent.ts:1415-1415 | Only a retryable pause is queued again, with attempt zero and cleared counters |
| `CallbackService.CallbackStore.StopSupervision` | butler/src/server/butler-callback-state.ts:58-77 | An operator stop leaves a closed record that owes nothing, a fresh one if there was none |
| `CallbackService.CallbackStore.RemoveCallback` | butler/src/server/butler-agent.ts:1449-1449 | Removes record and counters, or puts the very same record object and counters back if the save fails |
| `CallbackService.CallbackStore.ApplyFailure` | butler/src/server/butler-callback-review-runner.ts:668-699 | Charges the thread's count and the given record, whether or not that record is still the one in the map |
| `CallbackService.CallbackStore.SettleReviewFailure` | butler/src/server/butler-callback-review-runner.ts:216-236 | A failure is counted if and only if the attempt's record object is still in the map, running and owed; otherwise nothing changes |
| `CallbackService.CallbackStore.FallBackToFailure` | butler/src/server/butler-agent.ts:967-967 | The attempt's record is charged if and only if it still says running, without asking whether it is still in the map |
| `CallbackService.CallbackStore.BeginReview` | butler/src/server/butler-agent.ts:881-907 | Supersedes an owed queued review on an older slice, begins one on the current slice, and passes any other by |
| `CallbackService.CallbackStore.RecoverOrphans` | butler/src/server/butler-callback-review-runner.ts:174-199 | Exactly the owed running records past their deadline without a live attempt are charged, all others are untouched, and the time returned is the earliest next attempt any of them announces |
| `CallbackService.SweepNext` | butler/src/server/butler-callback-review-runner.ts:174-199 | One more job swept keeps the whole sweep's meaning, for the jobs done and those still to do |
| `ReviewSelection.SelectionIsExact` | butler/src/server/butler-callback-review-runner.ts:443-453 | A pass takes exactly the owed, dispatched, queued, due records, each as often as it is in the map, oldest update first |
| `ReviewSelection.EqualAgeKeepsMapOrder` | butler/src/server/butler-callback-review-runner.ts:450-453 | Records updated at the same instant are taken in the map's order |
| `ReviewSelection.RetryTimeIsTheEarliestWait` | butler/src/server/butler-callback-review-runner.ts:453-457 | The retry time is the earliest due time of the queued records that must still wait, and none if and only if none waits |
| `ReviewSelection.EmptyPassLosesNothing` | butler/src/server/butler-agent.ts:870-879 | A pass that takes nothing asks for no further pass if and only if nothing is queued, and at any later time something is runnable if and only if that time has come |
| `ReviewScheduler.AtMostOneInFlight` | butler/src/server/butler-callback-review-runner.ts:406-420 | Over every history, passes started minus passes finished is one or zero, as the flag says |
| `ReviewScheduler.EveryRequestIsServed` | butler/src/server/butler-callback-review-runner.ts:406-420 | Every request before disposal is followed by a pass that starts at or after it, unless one is in flight with another queued behind it or the scheduler was disposed |
| `ReviewScheduler.NothingStartsAfterDisposal` | butler/src/server/butler-callback-review-runner.ts:434-440 | After disposal no event starts a pass, the timer stays unarmed and nothing stays queued |
| `ReviewScheduler.TimerHoldsTheEarliest` | butler/src/server/butler-callback-review-runner.ts:422-432 | An armed timer holds the least of all times asked for since it was last idle, and it was asked for |
| `ReviewScheduler.CallbackReviewScheduler.RequestPass` | butler/src/server/butler-callback-review-runner.ts:406-420 | The object does what the step of the theorems says and tells whether a pass starts |
| `ReviewScheduler.CallbackReviewScheduler.PassSettled` | butler/src/server/butler-callback-review-runner.ts:412-419 | A finished pass starts the queued one |
| `ReviewScheduler.CallbackReviewScheduler.RequestPassAt` | butler/src/server/butler-callback-review-runner.ts:422-432 | An earlier or equal armed time is kept |
| `ReviewScheduler.CallbackReviewScheduler.TimerFires` | butler/src/server/butler-callback-review-runner.ts:427-431 | The timer is idle again before the pass is requested |
| `ReviewScheduler.CallbackReviewScheduler.Stop` | butler/src/server/butler-callback-review-runner.ts:434-440 | Disposal forgets the queued pass and the timer |
| `DispatchSaga.WorkerDispatch.ContinueWorkerJob` | butler/src/server/butler-agent-codex-tools.ts:35-200 | For every failure point and every answer of the outside world: what the turn count, the callback slot and the self-improvement status finally are, and that an error is thrown if and only if the request is published already, a gate refuses, or the limit is not reached and the turn was not sent, noted and marked |
| `DispatchSaga.WorkerDispatch.ReserveAndSend` | butler/src/server/butler-agent-codex-tools.ts:139-199 | From reservation to compensation: the turn is counted if sent or in doubt, the slot is as promised, and what is thrown reads as a plain failure exactly when it did so before the settlement |
| `DispatchSaga.WorkerDispatch.TrySend` | butler/src/server/butler-agent-codex-tools.ts:158-194 | Sent, counted and accepted become true together, and the first failing step is what is thrown |
| `DispatchSaga.WorkerDispatch.FlushRejectedPoints` | butler/src/server/butler-agent-codex-tools.ts:815-864 | The batch dispatch ends as the single one does for a job without a self-improvement request, leaves that request as it was, clears its queue if and only if the batch was sent, noted and marked, and throws if and only if it was not although the limit is not reached |
| `DispatchSaga.WorkerDispatch.SendPrivateJobFollowUp` | butler/src/server/butler-agent.ts:840-863 | A private follow-up is counted, on what the operator has left of the budget meanwhile, if and only if its send was answered and its delivery noted |
| `DispatchSafety.TurnIsCountedOnce` | butler/src/server/butler-agent-codex-tools.ts:150-196 | A turn is never counted twice; the count is exact if and only if no error was misread; and if accepted sends own up when they fail, no accepted turn goes uncounted |
| `DispatchSafety.SuccessIsReal` | butler/src/server/butler-agent-codex-tools.ts:185-193 | A dispatch is sent, noted and marked if and only if the limit leaves room, the request is not published and every step is answered well; it then has taken and counted its turn, and left its own owed record marked with that turn unless others changed the slot meanwhile; one stopped by the limit has changed nothing |
| `DispatchSafety.AcceptedTurnStaysOwed` | butler/src/server/direct-codex-message.ts:60-74 | Whatever fails later, an accepted turn leaves its own registration in place and owed |
| `DispatchSafety.RollbackNeedsCertainty` | butler/src/server/direct-codex-message.ts:60-74 | The reservation is taken back if and only if the attempt plainly failed, then the old slot is back, and the turn was not accepted |
| `DispatchSafety.StrangerIsLeftAlone` | butler/src/server/butler-agent.ts:306-306 | A registration installed while the send was under way is never touched by the settlement |
| `DispatchSafety.LeftReserving` | butler/src/server/butler-agent-codex-tools.ts:139-199 | The record is left reserving if and only if the reservation failed after it was installed, a sent turn could not be noted, or the settlement failed first |
| `DispatchSafety.CompensationsAgree` | butler/src/server/butler-agent-codex-tools.ts:35-77 | A reactivated job goes back to changes_ready if and only if its reservation is rolled back, except when a thrown non-Error is wrapped after a failed settlement in words that read like a lost connection |
| `DispatchSafety.UnreservedDispatchChangesNothing` | butler/src/server/butler-agent-codex-tools.ts:79-138 | A dispatch refused before its reservation changes nothing |
| `DispatchSafety.PrivateFollowUpMayMissACount` | butler/src/server/butler-agent.ts:840-863 | What a private follow-up adds to the count, as the operator has left it meanwhile, is one if a turn was taken and none if not, exactly unless the send of a taken turn failed all the same or its delivery could not be noted |
| `DispatchSafety.CountedTurnIsWithinBudget` | butler/src/server/butler-agent.ts:777-784 | A turn counted by a dispatch or a follow-up is within the limit it was checked against, and over the limit in force only if the operator set that limit while it was under way |
| `DispatchSafety.TurnsStayWithinLimit` | butler/src/server/butler-agent.ts:777-784 | Over every history of dispatches, batches and follow-ups with any answers, and of limit changes and new windows before, between and during them: if no limit is lowered, the turns counted in a window never pass it |
| `DispatchSafety.OverrunNeedsALowerLimit` | butler/src/server/butler-agent.ts:777-784 | Once the limit is passed, it was lowered during one of the acts |
| `DispatchSafety.TakenTurnsStayWithinLimit` | butler/src/server/butler-agent.ts:777-784 | Over every history in which no limit is lowered and no act misses a turn, the turns that the Worker really took in a window never exceed those counted, and so never pass the limit |
| `DispatchSafety.UncountedTurnWasMissed` | butler/src/server/butler-agent.ts:840-863 | Once more turns were taken in a window than counted, an act at a named place in the history took a turn and missed it: a dispatch whose accepted send failed without owning up, or a follow-up whose send failed or could not be noted |
| `OperatorQuestion.OperatorQuestionState.Accept` | butler/src/server/butler-agent-operator-question.ts:384-496 | Writing the answer first and taking it back field by field after a failed save amounts to one atomic answer, with the reply the caller is told |
| `OperatorQuestion.OperatorQuestionState.SettleDelivery` | butler/src/server/butler-agent-operator-question.ts:498-521 | Only a pending delivery is settled, and the change stands even if it cannot be saved; what it says is DeliveryIsAsReported |
| `OperatorQuestionRuns.AnswerKeepsSound` | butler/src/server/butler-agent-operator-question.ts:384-496 | An answer keeps delivery idle exactly while something is unanswered and the root equal to the first item, and changes at most the one open item |
| `OperatorQuestionRuns.AnswerIsTaken` | butler/src/server/butler-agent-operator-question.ts:384-496 | An answer to an open item is taken if and only if it is one offered choice or one allowed text of at most 2,000 characters, and can be saved; then the item says just that and the reply is handed over if all is answered; else nothing changes and the caller is told why |
| `OperatorQuestionRuns.AnswerIsRepeated` | butler/src/server/butler-agent-operator-question.ts:384-496 | An answer to an answered item is rejected unless it is the same; the same hands the reply over again if and only if all is answered and the delivery has failed, and that can be saved |
| `OperatorQuestionRuns.NewQuestionIsSound` | butler/src/server/butler-agent-operator-question.ts:130-189 | A posted question has one to three items under distinct ids, all open, and its root repeats the first |
| `OperatorQuestionRuns.NormalizeKeepsSound` | butler/src/server/butler-operator-messages.ts:162-228 | Loading a sound question gives the same question back; only the wording of a failure may be tidied |
| `OperatorQuestionRuns.LifeStaysSound` | butler/src/server/butler-agent-operator-question.ts:174-189 | Over every life of answers, retries, failed saves, other saves, crashes and restarts: delivery is idle if and only if some item is unanswered, the root mirrors the first item and stored answers are valid, in memory and in the file |
| `OperatorQuestionRuns.AcceptedAnswerNeverChanges` | butler/src/server/butler-agent-operator-question.ts:384-496 | Once accepted, an item's answer is what the operator gave, through everything that can happen later |
| `OperatorQuestionRuns.DeliveryIsAsReported` | butler/src/server/butler-agent-operator-question.ts:498-521 | What is reported of a pending delivery is what the question says, in memory and, if saved, in the file: delivered if and only if it was, else failed for a reason that is never empty; at a restart the transcript has the same say, and a delivery that is not pending is left alone |
| `OperatorQuestionRuns.DeliveredIsNeverQueuedAgain` | butler/src/server/butler-agent-operator-question.ts:498-521 | A reply that was reported delivered stays delivered and is never handed over again, over every later life if that was saved, and else as long as no restart finds a transcript without it |
| `OperatorQuestionRuns.QueuedRepliesAreSeparated` | butler/src/server/butler-agent-operator-question.ts:258-283 | Between two queued replies of one question there is always a delivery that was reported to have failed, across restarts too |
| `OperatorQuestionRuns.ChoosableOptions` | butler/src/server/butler-agent-operator-question.ts:405-421 | An offered option can be chosen at all if and only if its id has no white space but single blanks |
| `QuestionOptions.FreeId` | butler/src/server/butler-agent-operator-question.ts:116-122 | The suffix search ends and finds the base id or the least free suffix from 2 on |
| `QuestionOptions.BuiltOptionsAreDistinct` | butler/src/server/butler-agent-operator-question.ts:110-128 | The labelled options in order, under distinct non-empty ids, whatever ids were asked for |
| `QuestionOptions.BuildQuestionOptions` | butler/src/server/butler-agent-operator-question.ts:110-128 | The loop builds these options, each with its least free id, and keeps the first six |
| `QuestionThread.OneOpenQuestionPerTurn` | butler/src/server/butler-agent-operator-question.ts:197-238 | Over every life of posts, answers, deliveries and restarts in which no recovery joins two open questions, at most one question is open in the operator's current turn |
| `QuestionThread.PostedWhenNothingIsOpen` | butler/src/server/butler-agent-operator-question.ts:197-238 | A question is posted if and only if it can be saved and none is open since the operator's last message; else the chat stays as it was |
| `QuestionThread.DeliveryIsProved` | butler/src/server/butler-agent-operator-question.ts:258-283 | A transcript proves the delivery of an answer if and only if it holds a successful reply of Butler's that is not older than the latest of all answers to the question that the provider has |
| `QuestionThread.RecoveryKeepsQuestions` | butler/src/server/butler-agent-operator-question.ts:258-283 | Recovery removes no question, leaves none pending and changes nothing but a pending delivery |
| `QuestionThread.RecoveryLeavesOpen` | butler/src/server/butler-agent-operator-question.ts:258-283 | For every chat: after recovery the current turn begins behind the last operator message that stays, and its open questions are exactly those from there on that stay and were not just found delivered |
| `QuestionThread.RecoveryKeepsOneOpen` | butler/src/server/butler-agent-operator-question.ts:258-283 | Recovery leaves at most one question open in the current turn if and only if no two such questions stand behind that message |
| `QuestionThread.RecoveryMayJoinTwoOpenQuestions` | butler/src/server/butler-agent-operator-question.ts:258-283 | A legal life from an empty chat, of a question, its answer, a second question and a restart, that ends with two open questions in one turn |
| `PromiseTail.CallsRunInTurn` | butler/src/server/butler-agent-operator-question.ts:56-73 | In every interleaving a call that has started finds every earlier call for its key released, whatever threw and however map entries were deleted |
| `PromiseTail.EarliestMayGoOn` | butler/src/server/butler-agent-operator-question.ts:56-73 | The earliest unreleased call for a key is running or may start, so nothing is ever stuck |
| `PromiseTail.MapHoldsOnlyTheBusy` | butler/src/server/butler-job-mutation-guard.ts:98-117 | A key is in the map if and only if some call for it holds or awaits the lock |
| `PromiseTail.SettledMeansReleased` | butler/src/server/butler-job-mutation-guard.ts:98-117 | A call's promise is settled if and only if all calls for its key up to it have been released |
| `PromiseTail.MutationTails.Enter` | butler/src/server/butler-agent-operator-question.ts:57-63 | A call takes the promise it finds and puts its own in its place |
| `PromiseTail.MutationTails.Release` | butler/src/server/butler-agent-operator-question.ts:67-72 | A release deletes the entry if and only if no later call has replaced it |
| `SummaryWrites.WritesHappenInCallOrder` | butler/src/server/butler-activity-summary-state.ts:38-44 | Writes happen one at a time in the order of the calls and the file holds what the latest successful write wrote |
| `SummaryWrites.EachSaveWritesItsOwnTurns` | butler/src/server/butler-activity-summary-state.ts:38-40 | What a save writes is what the turns said when it was called, whatever is edited, saved or written before its write |
| `SummaryWrites.CloneTurns` | butler/src/server/butler-activity-summary-state.ts:7-12 | The copy consists of new turns with new items that say what the old ones say |
| `SummaryWrites.ActivitySummaryState.SaveTurns` | butler/src/server/butler-activity-summary-state.ts:38-44 | A save copies every turn and item object and hangs its write on the save before it |
| `SummaryWrites.ActivitySummaryState.EditItem` | butler/src/server/butler-activity-summary-state.ts:24-36 | An item edited in place changes what the turns say and what no save says |
| `SummaryWrites.ActivitySummaryState.EndWriting` | butler/src/server/butler-activity-summary-state.ts:40-40 | A write that succeeds puts into the file what the objects of its own copy say |
| `SummaryWrites.ActivitySummaryState.PersistTurn` | butler/src/server/butler-activity-summary-state.ts:29-36 | Refilling the array and saving amounts to one edit and one request |
| `SummaryWrites.FailureStopsNothing` | butler/src/server/butler-activity-summary-state.ts:38-44 | A queued write may begin if and only if the one before it is settled, failed or not |
| `SummaryWrites.LastSaveWins` | butler/src/server/butler-activity-summary-state.ts:29-44 | If the last save succeeded, all saves are settled and the file holds the last saved turns |
| `ActivityInvariants.ActivityIsAlwaysTidy` | butler/src/server/butler-activity.ts:176-355 | After any events: at most twenty turns under distinct ids; a turn in progress is the last and the active one; ended turns have no active item; one tool item per non-empty call id; at most the latest thinking item active |
| `ActivityInvariants.CallIdsAreUnique` | butler/src/server/butler-activity.ts:298-355 | If no event carries an empty call id, no two tool items of a turn share a call id |
| `ActivityInvariants.EmptyCallIdsRepeat` | butler/src/server/butler-activity.ts:298-355 | Two events with empty call ids leave two tool items with the same (empty) id |
| `ActivityInvariants.EmptyCallIdsAddUp` | butler/src/server/butler-activity.ts:298-355 | A tool event adds one to the tool items with the empty id if and only if it brings that id to an item that has none; so two stand side by side if and only if there was one already, or there were two |
| `ActivityInvariants.OthersAddNoEmptyCall` | butler/src/server/butler-activity.ts:265-296 | No other event changes their number |
| `ActivityInvariants.RewindKeepsTidy` | butler/src/server/butler-activity.ts:515-536 | Cutting the chat keeps all of this and clears the active id when its turn is cut |
| `ActivityInvariants.RewindKeepsEarlier` | butler/src/server/butler-activity.ts:505-508 | Cutting the chat keeps exactly the turns whose end, or else start, came before, in their order |
| `ActivityInvariants.FinalizeKeepsTidy` | butler/src/server/butler-activity.ts:217-263 | Ending a turn, also one charged after the fact, keeps all of this and leaves no active turn |
| `ActivityInvariants.EndingIsCharged` | butler/src/server/butler-activity.ts:217-263 | An ending closes the active turn; without one, only a failure is charged, to the latest turn that started and ended since the request did, or to a new one at the end of at most twenty; what is closed takes its active items with it and nothing else changes |
| `ActivityTurns.ActivityLog.EnsureActivityTurn` | butler/src/server/butler-activity.ts:176-199 | Reuses the active turn or starts one and keeps the last twenty |
| `ActivityTurns.ActivityLog.FinalizeTurn` | butler/src/server/butler-activity.ts:217-263 | Closes the active turn, or for a failure the last turn ended since the request, or records a new failed turn |
| `ActivityTurns.ActivityLog.CloseTurn` | butler/src/server/butler-activity.ts:253-258 | The loop closes exactly the items still active |
| `MessageMatching.RemovedMessagesHavePartners` | butler/src/server/butler-agent-session.ts:574-654 | Stored messages that are left out map injectively to provider messages of the same side with their text or from a second before to thirty seconds after them, are never pending, and a provider message that shares its text with some stored message is only given for one with that text |
| `MessageMatching.NoExactPairIsLeft` | butler/src/server/butler-agent-session.ts:635-651 | A message stays although a provider message has its text only if that provider message was used up |
| `MessageMatching.NoClosestIsLeft` | butler/src/server/butler-agent-session.ts:620-651 | A message that is the closest to a provider message with nobody's text stays only if that provider message was given for another |
| `MessageMatching.FallbackGoesToTheClosest` | butler/src/server/butler-agent-session.ts:620-645 | A message that gives way by time alone lies within the window and is the closest of all that could have |
| `MessageMatching.KeptInOrder` | butler/src/server/butler-agent-session.ts:628-653 | What stays is exactly the messages without a partner, in their order |
| `MessageMatching.FilterProviderBacked` | butler/src/server/butler-agent-session.ts:615-654 | The loops over owners and consumed ids compute these partners |
| `DirectoryWalk.FindEntries` | butler/src/server/butler-agent-filesystem-tools.ts:153-171 | For every tree, filter, depth and limit: exactly the first matches, up to the limit, of the full depth-bounded pre-order |
| `DirectoryWalk.WalkReaches` | butler/src/server/butler-agent-filesystem-tools.ts:153-171 | The full walk lists the root and exactly the entries that a path of at most the given number of steps through directories leads to |
| `DirectoryWalk.Search.Walk` | butler/src/server/butler-agent-filesystem-tools.ts:159-167 | Up to the limit the shared output is what the full walk finds, although a parent may push one match too many after a child has filled it |
| `DirectoryWalk.Clamp` | butler/src/server/butler-agent-filesystem-tools.ts:137-140 | Always within the bounds, the fallback for a missing number, and the truncated number when that is within |
| `HistoryCleaning.ResultsFollowTheirCalls` | butler/src/server/butler-agent-helpers.ts:525-551 | Every kept tool result that names a call comes after a kept assistant message that makes a call sharing an alias |
| `HistoryCleaning.ResultsNameEarlierCalls` | butler/src/server/butler-agent-helpers.ts:466-551 | Over every history, a kept result that names a call comes after a kept assistant message that makes it, under the same id or one that agrees in the part before the bar |
| `HistoryCleaning.CleaningKeepsTexts` | butler/src/server/butler-agent-helpers.ts:395-464 | Cleaning takes nothing from a message but the images of a prompt: every other part is there, in order, and says what it said, cut to length, bare strings as texts; a remark is added if and only if an image went; role, calls and result stay, and messages of other roles are untouched |
| `HistoryCleaning.SurvivorsAreKept` | butler/src/server/butler-agent-helpers.ts:525-551 | For every history, the cleaning keeps exactly the messages outside ephemeral turns whose results, if they name calls, follow a surviving call with a shared alias, each of them cleaned and in order |
| `HistoryCleaning.SecondPassDropsNothing` | butler/src/server/butler-agent-helpers.ts:525-551 | For every history, a second pass drops nothing more if and only if no message that survives the first reads as an ephemeral prompt once it is cleaned: images gone, bare strings read, texts cut |
| `HistoryCleaning.OnePassIsEnough` | butler/src/server/butler-agent-helpers.ts:395-464 | For contents without bare strings and without text on images, one pass is enough |
| `HistoryCleaning.BareStringIsDroppedLate` | butler/src/server/butler-agent-helpers.ts:408-414 | A bare string with the ephemeral prefix survives the first pass and not the second |
| `HistoryCleaning.DroppingIsTheTurn` | butler/src/server/butler-background-context.ts:17-33 | Dropping covers exactly the turn of an ephemeral prompt, up to the next prompt |
| `HistoryCleaning.StripEphemeralTurns` | butler/src/server/butler-background-context.ts:17-33 | The flagged loop strips these turns |
| `HistoryCleaning.SanitizeHistory` | butler/src/server/butler-agent-helpers.ts:525-551 | The loop with its growing set of known calls |
| `HistoryCleaning.LastSuccessIsLast` | butler/src/server/butler-agent-session.ts:519-555 | The prefix ends in an assistant message that did not fail and nothing after it is one |
| `HistoryCleaning.DropTrailingFailedTurns` | butler/src/server/butler-agent-session.ts:519-555 | A history that ends in a failure is cut to exactly that prefix, any other is left alone |
| `ProofSelection.NewestProofPerTarget` | butler/src/server/butler-agent-helpers.ts:1265-1330 | For each job and target with a reviewable proof exactly one is shown, and none is newer, dated by its check, else its update, else its creation |
| `ProofSelection.ShownProofsAreReviewable` | butler/src/server/butler-agent-helpers.ts:1265-1330 | Only reviewable proofs of a job are shown, and every one without a target is, as often as it is there |
| `ProofSelection.CollapseSuperseded` | butler/src/server/butler-agent-helpers.ts:1303-1330 | The loop with its set of seen keys |
| `TurnContext.ContextFits` | butler/src/server/butler-callback-review-runner.ts:309-354 | The context never exceeds 12,000 characters, is the newest of the lines behind the operator's latest message that is the request, in order with at most the oldest cut, and unless all of those are there its lines use all of the limit but two characters |
| `TurnContext.ContextIsThere` | butler/src/server/butler-callback-review-runner.ts:309-354 | There is a context if and only if there is a request, the operator has made it, and Butler or its evidence tools said something between its latest making and the operator's next message |
| `TurnContext.SelectLines` | butler/src/server/butler-callback-review-runner.ts:343-351 | The loop takes lines from the newest back while the budget lasts |
| `TurnContext.BriefIsNeverCut` | butler/src/server/butler-callback-review-runner.ts:290-306 | The bounds of the brief's sections add up to at most 11,662 characters, so its final cut at 12,000 never cuts |
| `TurnContext.BriefHolds` | butler/src/server/butler-callback-review-runner.ts:297-306 | A brief is the request with its reminder, the steer, the checklist, the findings, the directive under one of two titles and the held context, in this order, each there if and only if there is something to say, whole or with both its ends |
| `TurnContext.BoundedFits` | butler/src/server/butler-callback-review-runner.ts:290-296 | A section keeps to its bound and is unchanged when it fits |
| `TurnContext.BoundedKeepsBothEnds` | butler/src/server/butler-callback-review-runner.ts:290-296 | What is cut out of a section is its middle |
| `AdversarialReview.RecordIsForTheCurrentReport` | butler/src/server/butler-adversarial-review.ts:465-471 | A review records findings only for the report current at that instant, the one it started with; the record is rejected if and only if a finding blocks and is not waived |
| `AdversarialReview.ReviewBegins` | butler/src/server/butler-adversarial-review.ts:454-476 | A review begins if and only if there is a completed report, of the expected turn, not older than asked for and not settled by the newest record; it works on just this report |
| `AdversarialReview.ReviewEnds` | butler/src/server/butler-adversarial-review.ts:570-629 | A review ends when it submits, breaks off, or finds at its snapshot that its report is not current; it records if and only if it submits with report and attempt still current and a contract there |
| `AdversarialReview.DecisionsAreRecorded` | butler/src/server/state-store-review-records.ts:6-96 | Butler's own decision is recorded with all its findings, and a proof's verdict as the last of the newest record |
| `AdversarialReview.EachReportIsRecordedOnce` | butler/src/server/butler-adversarial-review.ts:465-476 | Whatever reports, decisions and attempts come in between, no report is recorded twice by reviews, as long as no report comes with a stamp older than a recorded one |
| `AdversarialReview.OlderReportIsReviewedAgain` | butler/src/server/butler-adversarial-review.ts:473-476 | A report that already has a record is reviewed anew if and only if some record has a later stamp |
| `AdversarialReview.ReportIsRecordedTwice` | butler/src/server/butler-adversarial-review.ts:465-476 | A legal history from a new job, of reports stamped 10, 20 and 10 again, in which the first is recorded twice |
| `AdversarialReview.VerdictsAlwaysFit` | butler/src/server/state-store-review-records.ts:6-43 | In every run every record is rejected if and only if it holds a blocking finding that is not waived |
| `AdversarialReview.SubmissionTool.Execute` | butler/src/server/butler-adversarial-review.ts:70-90 | The first valid submission counts, a second is refused, an invalid one does not use it up |
| `ReviewRecords.UpsertKeepsVerdicts` | butler/src/server/state-store-review-records.ts:6-43 | Merging findings into a record keeps every verdict in line with its findings |
| `ReviewRecords.UpsertMergesItsOwn` | butler/src/server/state-store-review-records.ts:6-43 | A record is merged into the first with its attempt, scope, report and manifest and into no other, else added at the end; merged, all new findings are there, with the old ones whose ids they do not bring again, oldest first |
| `ReviewRecords.ProofFindingKeepsVerdicts` | butler/src/server/state-store-review-records.ts:75-96 | Replacing what was found about a proof keeps every verdict in line |
| `ReviewRecords.ProofFindingReplaces` | butler/src/server/state-store-review-records.ts:75-96 | A proof's verdict goes into the first record of the newest report, stands last there, replaces what was found about that proof and leaves every other finding and every other record as they were |
| `ReviewRecords.SetAllKeeps` | butler/src/server/state-store-review-records.ts:16-19 | A merge loses nothing new, and of the old only what was found anew under the same id |
| `CloseoutGate.CloseoutBlocker` | butler/src/server/butler-closeout-gate.ts:20-52 | The gate opens if and only if nothing objects and every referenced proof is there, reviewed and not blocked; otherwise it names the first run that is not |
| `CloseoutGate.RelevantReport` | butler/src/server/butler-closeout-gate.ts:8-18 | A report is relevant if and only if it is not older than the request, is about the accepted turn if one is known, and is completed or its Worker has stopped |
| `CloseoutGate.OpenGateHasNoBlockedProof` | butler/src/server/butler-closeout-gate.ts:37-50 | With one finding per run an open gate leaves no blocking finding about a referenced proof |
| `CloseoutGate.OpenGateOverlooksLaterFindings` | butler/src/server/butler-closeout-gate.ts:45-48 | An open gate leaves a blocking finding on a referenced run if and only if a later finding of that run blocks |
| `CloseoutGate.SecondFindingIsOverlooked` | butler/src/server/butler-closeout-gate.ts:45-48 | For every closeout, a finding added about a run that has one already neither closes nor opens the gate |
| `CloseoutGate.ProofFindingKeepsOnePerRun` | butler/src/server/state-store-review-records.ts:75-96 | Recording a proof's verdict keeps one finding per run |
| `ToolSchemas.PatternGivesBackItsValues` | butler/src/server/butler-agent-tool-schemas.ts:21-35 | Splitting the pattern of a string enum and unescaping its parts gives back exactly the values |
| `ToolSchemas.NoViolationsIffPortable` | butler/src/server/butler-agent-tool-schemas.ts:37-64 | The check finds nothing if and only if every reachable part of the schema is an object without forbidden keywords and type lists |
| `Watchdogs.ActivityWatchdogService.Register` | butler/src/server/activity-watchdog.ts:61-101 | One live interval for each registered id and no other; refused without id, with a bad interval, or while the id is taken |
| `Watchdogs.ActivityWatchdogService.Unregister` | butler/src/server/activity-watchdog.ts:103-109 | The interval of exactly that id is cleared |
| `Watchdogs.OneCheckPerThread` | butler/src/server/butler-delegation-watchdog.ts:24-50 | At most one check per thread is in flight, also when registrations are replaced under it, and an idle outstanding thread is checked at its next tick |
| `Watchdogs.WatchedUntilEnded` | butler/src/server/butler-delegation-watchdog.ts:24-50 | Over every history, a thread is watched if and only if it was registered and since then neither unregistered nor found with nothing outstanding |
| `MessagePages.PagesPartitionTheHistory` | butler/src/server/butler-agent-helpers.ts:1211-1231 | Pages walked by before = startIndex give every message exactly once, in order; a page holds the number asked for, within 1 and 1,000 and 80 by default, and only the one that begins the history may hold fewer |
| `MessagePages.CollapsedHasNoRepeats` | butler/src/server/butler-agent-session.ts:676-692 | No prompt stands twice in a row and only repeats of a kept prompt are taken out |
| `MessagePages.NothingLeftToCollapse` | butler/src/server/butler-agent-session.ts:676-692 | Collapsing changes a list if and only if a prompt is repeated in it |
| `OperatorQuestionRuns.AnsweringTwice` | butler/src/server/butler-agent-operator-question.ts:421-449 | The same answer again, up to white space, changes nothing and is not handed over again; any other is rejected |
| `QuestionThread.RecoverInterrupted` | butler/src/server/butler-agent-operator-question.ts:258-283 | The loop over questions and the removal from the end give exactly the recovered messages, and tell whether anything was pending |
| `ProofSelection.ShownInDisplayOrder` | butler/src/server/butler-agent-helpers.ts:1370-1384 | The shown proofs are in display order: kind of evidence, then its subtype, then newest first |
| `ActivityInvariants.ToolEventShows` | butler/src/server/butler-activity.ts:317-355 | A tool event shows on exactly one item, the first of its call (by call id, else by content index) or a new one, which then says what the event says and keeps what the event does not bring |
| `ActivityInvariants.ThinkingShows` | butler/src/server/butler-activity.ts:275-296 | Thinking shows on exactly one item, the latest of its kind and active: the one there is if that is active, else a new one |
| `ActivityInvariants.ThinkingEnds` | butler/src/server/butler-activity.ts:275-296 | The end of thinking completes the latest thinking item, if there is one, and changes nothing else |
| `TurnContext.LinesEndAtTheNextMessage` | butler/src/server/butler-callback-review-runner.ts:328-342 | The lines are those of the entries between the request and the operator's next message, in order, each entry that speaks among them |
| `TurnContext.LinesQuoteTheEnd` | butler/src/server/butler-callback-review-runner.ts:328-342 | An entry speaks if and only if it is Butler's or an evidence tool's and blank neither before nor after redaction, and its line quotes the last two thousand characters of the safe text or all of it |
| `AdversarialReview.ReviewedJob.Begin` | butler/src/server/butler-adversarial-review.ts:454-476 | A review begins only on the completed, expected, recent enough and not yet reviewed report |
| `AdversarialReview.ReviewedJob.Finish` | butler/src/server/butler-adversarial-review.ts:570-629 | Results are collected, the report is checked once more, and only then a record is written |

## Left out

- Model calls, Worker clients, prompts, Docker and HTTP: only "succeeds", "fails" and "unknown" remain of them.
- Texts shown to the operator, redaction and markdown: opaque, except where the code tests a text or its length. Cutting a text appends a remark, so no text is claimed to be stable under a second cut.
- Quiescing of a session, display and progress texts of a review, watchdog registration by callbacks, payload files and checklist contents, which other code owns.
- A callback record is one value in one field of its object; that its fields are assigned one at a time, with no other code in between, is not modelled.
- `owner`, `charges` and `mark` in `CallbackProtocol` are bookkeeping for the theorems. A restart forgets the mark when the reloaded counters are not those of the failure it stands for, so `CallbackTiming.AttemptsAreSpaced` says nothing about such a count.
- A post that the gate refuses after a closeout's head has let it through cannot happen, because nothing is awaited between the two checks; for posts by a tool it is the operation `DoBlock`.
- The Worker watchdog of a callback (`worker-watchdog.ts`), which may stop a silent Worker and queue its thread for review; the model has that effect only as the observation of an idle Worker without a report.
- Blocked-closeout texts from the gates are taken not to begin with the two pause prefixes.
- A rollback is one step. In the program it decides what to put back, then awaits the write of the payload; and the charge at `butler-agent.ts` line 967 runs without the job's lock. A charge in the middle of a rollback is therefore not modelled, only before or after it.
- The lock lets a call that already holds it enter again, and takes several locks in sorted order; the model has neither.
- A timer delay longer than the platform's maximum fires at once; here a timer fires at its time or later.
- `AdversarialReview`, `QuestionThread` and `MessagePages` rebuild values where the program changes objects and arrays in place; aliasing between views of a message is not captured there.
- `CallbackTiming.EveryAttemptBeginsWell`: is not claimed when a rollback has broken into the attempt's own selection, because it can be false there; `CallbackTiming.BadBeginFollowsALateRollback` says that nothing else makes it false.
- `CallbackRollback.CrashRestoresRetry`: is not claimed for the runs that part record and counters, because it can be false there; `CallbackRollback.StepKeepsRetry` and `CallbackRollback.MiscountFollowsADisturbance` say exactly which steps those are.
- `CallbackFleet.OneReviewAtATime`: is about one process; two processes on one state file are not modelled.
- `AdversarialReview.EachReportIsRecordedOnce`: is not claimed for reports that come with a stamp older than a recorded one, because it is false there; `AdversarialReview.OlderReportIsReviewedAgain` says exactly when.
- `DispatchSaga.WorkerDispatch.TrySend`: lets others change the slot only while the send is under way, not during the awaits before it, whose failures are answers.
- `DispatchSafety.TurnIsCountedOnce`: does not claim that an accepted turn is always counted, because the code reads acceptance from an error's words.
- `ReviewScheduler.EveryRequestIsServed`: does not claim that a pass ever finishes, and a pass that finds work does not re-arm the later retry time, so nothing is claimed about retry timers beyond the empty pass.
- `DirectoryWalk.FindEntries`: does not model listing errors, a root that is no directory, or a tree that changes while it is walked.
- `HistoryCleaning.SecondPassDropsNothing`: compares lengths, because a second pass may cut long texts again.
- `TurnContext.ContextFits`: the extraction of plain text from a message is an input.
- Merging of provider and stored traces, pending-prompt bookkeeping, proof bundles, the summary of activity for display, and the inactivity deadlines of a review: they would add easy members only.
