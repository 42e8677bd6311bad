/**
 * The callback record Butler keeps for one delegated Worker job, and what each operation does to
 * one such record (butler-callback-state.ts, butler-closeout-gate.ts, butler-callback-review-runner.ts).
 *
 * Everything here is a function on values. The classes in CallbackService.dfy change records and maps
 * statement by statement and are proved to compute exactly these functions.
 */
module Callbacks {
  import opened Options

  type ThreadId = string

  datatype CallbackState =
    | Waiting
    | ReceivedWorkerCallback
    | MissingWorkerCallback
    | RecoveredFromThreadState
    | Closed

  datatype Resolution = Unresolved | ByWorkerCallback | ByThreadState
  datatype DispatchState = Ready | Reserving
  datatype CloseoutStatus = NotRequired | Owed | Posted
  datatype CloseoutChannel = NoChannel | MainChat
  datatype NextAction = Review | ReplyToOperator
  datatype ReviewState = Idle | Queued | Running | Blocked
  datatype ReviewReason = NoReason | WorkerCallback | ThreadRecovery
  datatype ReviewStage =
    | NoStage
    | QueuedStage
    | Preparing
    | ReviewingChanges
    | SupervisingCloseout
    | RetryWait
    | BlockedStage

  /**
   * The blocked-closeout text, up to what the code tests about it: two prefixes mark pauses that may
   * be retried; every other text is the reason a closeout gate gave.
   */
  datatype BlockReason =
    | NotBlocked
    | AutomationPaused
    | OperatorStopped
    | Gated(text: string)

  datatype Callback = Callback(
    threadId: ThreadId,
    state: CallbackState,
    resolution: Resolution,
    requestedAt: int,
    operatorRequest: Option<string>,
    workSlice: Option<string>,
    lastTerminalReportAt: Option<int>,
    acceptedTurn: Option<string>,
    steer: Option<string>,
    nextAction: NextAction,
    closeout: CloseoutStatus,
    owes: bool,
    channel: CloseoutChannel,
    dispatch: DispatchState,
    review: ReviewState,
    reason: ReviewReason,
    stage: ReviewStage,
    model: string,
    attempt: nat,
    startedAt: Option<int>,
    deadlineAt: Option<int>,
    nextAttemptAt: Option<int>,
    block: BlockReason,
    blockedReportAt: Option<int>,
    closedAt: Option<int>,
    updatedAt: int)

  /** What the service holds for one thread: the record in the map and the thread's two counters. */
  datatype Slot = Slot(cb: Option<Callback>, fails: Option<nat>, notBefore: Option<int>)

  const MAX_ATTEMPTS: nat := 3
  const RETRY_MS: int := 30_000
  const REVIEW_DEADLINE_MS: int := 120_000
  const RESERVED_GRACE_MS: int := 5 * 60_000

  predicate Outstanding(cb: Callback) {
    cb.owes && cb.state != Closed
  }

  /** Closed means nothing is owed and no review is open; not closed means the reply is owed. */
  predicate ClosedIsSettled(cb: Callback) {
    (cb.state == Closed <==> !cb.owes) && (cb.state == Closed ==> cb.review == Idle)
  }

  function Pow2(n: nat): (p: nat)
    ensures p >= 1
  {
    if n == 0 then 1 else 2 * Pow2(n - 1)
  }

  /** The wait after failure number `failures`. */
  function Backoff(failures: nat): (wait: int)
    requires failures >= 1
    ensures wait >= RETRY_MS
  {
    RETRY_MS * Pow2(failures - 1)
  }

  // ---------------------------------------------------------------- one review attempt

  function BeginAttempt(cb: Callback, priorFailures: nat, now: int): Callback {
    cb.(review := Running, stage := Preparing, attempt := priorFailures + 1, startedAt := Some(now),
        deadlineAt := Some(now + REVIEW_DEADLINE_MS), nextAttemptAt := None, updatedAt := now)
  }

  function FailAttempt(cb: Callback, failures: nat, now: int, reportAt: Option<int>): Callback
    requires failures >= 1
  {
    if failures >= MAX_ATTEMPTS then
      cb.(review := Blocked, stage := BlockedStage, nextAttemptAt := None, deadlineAt := None,
          block := AutomationPaused, blockedReportAt := reportAt, updatedAt := now)
    else
      cb.(review := Queued, stage := RetryWait, deadlineAt := None,
          nextAttemptAt := Some(now + Backoff(failures)), updatedAt := now)
  }

  /** The failure count and not-before time a failure leaves behind for its thread. */
  function FailedCount(fails: Option<nat>): (n: nat)
    ensures n >= 1
  {
    fails.GetOr(0) + 1
  }

  function FailedNotBefore(fails: Option<nat>, notBefore: Option<int>, now: int): Option<int> {
    var failures := FailedCount(fails);
    if failures >= MAX_ATTEMPTS then notBefore else Some(now + Backoff(failures))
  }

  /** A failure counted against the record in the slot. */
  function FailedSlot(s: Slot, now: int, reportAt: Option<int>): Slot
    requires s.cb.Some?
  {
    Slot(Some(FailAttempt(s.cb.value, FailedCount(s.fails), now, reportAt)), Some(FailedCount(s.fails)),
         FailedNotBefore(s.fails, s.notBefore, now))
  }

  /** A review whose deadline passed while no attempt of this process was at work on it. */
  predicate Orphaned(s: Slot, active: bool, now: int) {
    s.cb.Some? && Outstanding(s.cb.value) && !active && s.cb.value.review == Running
    && s.cb.value.deadlineAt.Some? && s.cb.value.deadlineAt.value <= now
  }

  function Recovered(s: Slot, active: bool, now: int, reportAt: Option<int>): Slot {
    if Orphaned(s, active, now) then FailedSlot(s, now, reportAt) else s
  }

  function Progress(cb: Callback, stage: ReviewStage, deadline: Option<int>, now: int): Callback {
    cb.(stage := stage, deadlineAt := if deadline.Some? then deadline else cb.deadlineAt, updatedAt := now)
  }

  function PauseReview(cb: Callback, reportAt: Option<int>, now: int): Callback {
    cb.(review := Blocked, stage := BlockedStage, startedAt := None, deadlineAt := None,
        nextAttemptAt := None, block := OperatorStopped, blockedReportAt := reportAt, updatedAt := now)
  }

  predicate AutomationPause(cb: Callback, reportAt: Option<Option<int>>) {
    cb.review == Blocked && cb.block == AutomationPaused
    && (reportAt.Some? ==> cb.blockedReportAt == reportAt.value)
  }

  predicate OperatorPause(cb: Callback, reportAt: Option<Option<int>>) {
    cb.review == Blocked && cb.block == OperatorStopped
    && (reportAt.Some? ==> cb.blockedReportAt == reportAt.value)
  }

  predicate RetryablePause(cb: Callback, reportAt: Option<Option<int>>) {
    AutomationPause(cb, reportAt) || OperatorPause(cb, reportAt)
  }

  function PrepareRetry(cb: Callback, model: string): Callback {
    cb.(model := model, attempt := 0)
  }

  // ---------------------------------------------------------------- the closeout gate

  function QueueReview(cb: Callback, reason: ReviewReason, now: int): Callback {
    cb.(nextAction := Review, review := Queued, stage := QueuedStage, reason := reason, startedAt := None,
        deadlineAt := None, nextAttemptAt := None, block := NotBlocked, blockedReportAt := None, updatedAt := now)
  }

  function IdleReview(cb: Callback, now: int): Callback {
    cb.(review := Idle, stage := NoStage, startedAt := None, deadlineAt := None, nextAttemptAt := None,
        block := NotBlocked, blockedReportAt := None, updatedAt := now)
  }

  function BlockReview(cb: Callback, gate: string, reason: ReviewReason, reportAt: Option<int>, now: int): Callback {
    cb.(nextAction := Review, review := Blocked, stage := BlockedStage, deadlineAt := None, nextAttemptAt := None,
        reason := reason, block := Gated(gate), blockedReportAt := reportAt, updatedAt := now)
  }

  predicate SameBlockedCloseout(cb: Callback, gate: string, reportAt: Option<int>) {
    cb.review == Blocked && cb.block == Gated(gate) && cb.blockedReportAt == reportAt
  }

  function PostedCloseout(cb: Callback, resolution: Resolution, reportAt: Option<int>, postedAt: int,
                          now: int): Callback {
    cb.(state := Closed, resolution := resolution,
        lastTerminalReportAt := if reportAt.Some? then reportAt else cb.lastTerminalReportAt,
        nextAction := Review, closeout := Posted, owes := false, channel := MainChat,
        review := Idle, stage := NoStage, reason := NoReason, startedAt := None, deadlineAt := None,
        nextAttemptAt := None, block := NotBlocked, blockedReportAt := None, closedAt := Some(postedAt),
        updatedAt := now)
  }

  /** An older review found on a newer work slice is closed without a reply. */
  function Supersede(cb: Callback, now: int): Callback {
    cb.(state := Closed, review := Idle, stage := NoStage, closeout := NotRequired, owes := false,
        channel := NoChannel, closedAt := Some(now), updatedAt := now)
  }

  predicate OnSlice(cb: Callback, scope: Option<string>) {
    cb.workSlice.None? || scope.None? || cb.workSlice == scope
  }

  // ---------------------------------------------------------------- registration

  datatype SliceChoice = InheritSlice | GivenSlice(slice: Option<string>)

  datatype Registration = Registration(
    requestedAt: int,
    steer: Option<string>,
    keepSteer: bool,
    operatorRequest: Option<string>,
    nextAction: NextAction,
    dispatch: DispatchState,
    slice: SliceChoice,
    model: string)

  function BuildPending(threadId: ThreadId, reg: Registration, existing: Option<Callback>, scope: Option<string>,
                        now: int): Callback {
    var outstanding := existing.Some? && Outstanding(existing.value);
    Callback(
      threadId, Waiting, Unresolved, reg.requestedAt,
      if reg.operatorRequest.Some? then reg.operatorRequest
      else if outstanding then existing.value.operatorRequest else None,
      match reg.slice
      case GivenSlice(slice) => slice
      case InheritSlice => if existing.Some? && existing.value.workSlice.Some? then existing.value.workSlice else scope,
      None, None,
      if reg.steer.Some? then reg.steer
      else if reg.keepSteer && outstanding then existing.value.steer else None,
      reg.nextAction, Owed, true, NoChannel, reg.dispatch,
      Idle, NoReason, NoStage, reg.model, 0, None, None, None, NotBlocked, None, None, now)
  }

  /** Object.assign(existing, next, runningReview): the new registration keeps the review that is running. */
  function KeepRunningReview(existing: Callback, next: Callback): Callback {
    next.(review := existing.review, reason := existing.reason, model := existing.model, stage := existing.stage,
          attempt := existing.attempt, startedAt := existing.startedAt, deadlineAt := existing.deadlineAt,
          nextAttemptAt := existing.nextAttemptAt)
  }

  predicate KeepsRunning(existing: Option<Callback>, preserve: bool) {
    preserve && existing.Some? && existing.value.review == Running
  }

  /** The slot after a registration. The record is a fresh object unless a running review is kept. */
  function Register(s: Slot, threadId: ThreadId, reg: Registration, preserve: bool, scope: Option<string>,
                    now: int): Slot {
    var next := BuildPending(threadId, reg, s.cb, scope, now);
    Slot(Some(if KeepsRunning(s.cb, preserve) then KeepRunningReview(s.cb.value, next) else next), None, None)
  }

  function Bind(s: Slot, requestedAt: int, slice: string, now: int): Option<Slot> {
    if s.cb.None? || s.cb.value.requestedAt != requestedAt then None
    else Some(s.(cb := Some(s.cb.value.(workSlice := Some(slice), updatedAt := now))))
  }

  function MarkDispatched(s: Slot, requestedAt: int, turn: Option<string>, now: int): Slot {
    if s.cb.None? || s.cb.value.requestedAt != requestedAt then s
    else s.(cb := Some(s.cb.value.(dispatch := Ready, acceptedTurn := turn, updatedAt := now)))
  }

  /** What a rollback puts back for a saved record. */
  function RestoredCallback(saved: Callback, guardCurrent: bool, now: int): Callback {
    if saved.review == Running && !guardCurrent
    then saved.(review := Queued, stage := QueuedStage, updatedAt := now)
    else saved
  }

  function Rollback(s: Slot, requestedAt: int, saved: Slot, guardCurrent: bool, now: int): Slot {
    if s.cb.None? || s.cb.value.requestedAt != requestedAt then s
    else saved.(cb := if saved.cb.Some? then Some(RestoredCallback(saved.cb.value, guardCurrent, now)) else None)
  }

  // ---------------------------------------------------------------- operator actions

  function Cancel(s: Slot, reportAt: Option<int>, now: int): Slot {
    if s.cb.Some? && (s.cb.value.review == Running || s.cb.value.review == Queued)
    then Slot(Some(PauseReview(s.cb.value, reportAt, now)), None, None)
    else s
  }

  function Retry(s: Slot, model: string, now: int): Slot {
    if s.cb.Some? && RetryablePause(s.cb.value, None)
    then
      var prepared := PrepareRetry(s.cb.value, model);
      Slot(Some(QueueReview(prepared, if prepared.reason == NoReason then WorkerCallback else prepared.reason, now)),
           None, None)
    else s
  }

  /**
   * resetCallbackReviewFailures: the counters are cleared, and a review that was paused after too many failures is
   * queued again.
   */
  function ResetFailures(s: Slot, now: int): Slot {
    if s.cb.None? then s
    else
      var cb := s.cb.value;
      Slot(Some(if AutomationPause(cb, None)
                then QueueReview(cb, if cb.reason == NoReason then WorkerCallback else cb.reason, now) else cb),
           None, None)
  }

  function OperatorStop(threadId: ThreadId, s: Slot, scope: Option<string>, model: string, now: int): Slot {
    var base := if s.cb.Some? then s.cb.value
                else BuildPending(threadId, Registration(now, None, false, None, Review, Ready, InheritSlice, model),
                                  None, scope, now);
    Slot(Some(base.(state := Closed, resolution := Unresolved, closeout := NotRequired, owes := false,
                    channel := NoChannel,
                    review := Idle, reason := NoReason, stage := NoStage, startedAt := None, deadlineAt := None,
                    nextAttemptAt := None, block := NotBlocked, blockedReportAt := None, closedAt := Some(now),
                    updatedAt := now)),
         None, None)
  }

  // ---------------------------------------------------------------- reconciliation with the Worker

  /** `found` is the turn whose message carries this request's dispatch marker, when the thread could be read. */
  function ReconcileDispatch(cb: Callback, found: Option<string>, now: int): Callback {
    var seen := cb.(updatedAt := now);
    var noted := if seen.acceptedTurn.None? && found.Some? then seen.(acceptedTurn := found) else seen;
    if noted.dispatch != Reserving then noted
    else if found.Some? then noted.(acceptedTurn := found, dispatch := Ready)
    else if now - cb.requestedAt >= RESERVED_GRACE_MS then noted.(dispatch := Ready)
    else noted
  }

  datatype Observed = SeesReport | SeesIdleWithoutReport | SeesNothing

  function ObservedState(seen: Observed): CallbackState {
    match seen
    case SeesReport => ReceivedWorkerCallback
    case SeesIdleWithoutReport => MissingWorkerCallback
    case SeesNothing => Waiting
  }

  function ReconcileState(cb: Callback, seen: Observed, statusChanged: bool, reportAt: Option<int>,
                          now: int): Callback {
    var next := ObservedState(seen);
    var queue := cb.state != next && next != Waiting;
    cb.(state := next,
        lastTerminalReportAt := if (statusChanged || cb.state != next) && reportAt.Some? then reportAt
                                else cb.lastTerminalReportAt,
        review := if queue then Queued else cb.review,
        reason := if !queue then cb.reason
                  else if next == ReceivedWorkerCallback then WorkerCallback else ThreadRecovery,
        updatedAt := now)
  }

  /** The closeout gate's verdict; `mustFinish` marks the text that only says the review is not done. */
  datatype Gate = Gate(text: string, mustFinish: bool)

  datatype Processed = Settled(cb: Callback) | PostsReply(cb: Callback)

  /** One pass of processPendingChatCallbacks over a record whose thread has a relevant report. */
  function ProcessReport(cb: Callback, reportAt: int, completed: bool, hasText: bool, gate: Option<Gate>,
                         now: int): Processed {
    var seen := cb.(lastTerminalReportAt := Some(reportAt));
    if seen.review == Blocked then
      if RetryablePause(seen, Some(Some(reportAt))) then Settled(seen)
      else if gate.Some? && !gate.value.mustFinish && SameBlockedCloseout(seen, gate.value.text, Some(reportAt))
      then Settled(seen)
      else Settled(QueueReview(seen, WorkerCallback, now))
    else if seen.nextAction == ReplyToOperator && !completed && hasText then
      if gate.Some? then Settled(BlockReview(seen, gate.value.text, WorkerCallback, Some(reportAt), now))
      else PostsReply(seen)
    else if seen.state != ReceivedWorkerCallback || seen.reason != WorkerCallback || seen.review == Idle then
      Settled(seen.(state := ReceivedWorkerCallback, review := Queued, reason := WorkerCallback, updatedAt := now))
    else Settled(seen)
  }

  /** The same pass when there is no relevant report. */
  function ProcessMissing(cb: Callback, now: int): Callback {
    var active := cb.review == Queued || cb.review == Running;
    if cb.state == MissingWorkerCallback && (!active || cb.reason != ThreadRecovery)
    then cb.(review := if active then cb.review else Queued, reason := ThreadRecovery, updatedAt := now)
    else cb
  }
}
