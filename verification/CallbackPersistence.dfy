/**
 * Saving a callback record and reading it back (normalizeCallbackEntry, loadButlerCallbackState,
 * saveButlerCallbackState in butler-callback-state.ts).
 */
module CallbackPersistence {
  import opened Options
  import opened Callbacks

  const FUTURE_SKEW_MS: int := 5 * 60_000
  const MICROSECOND_EPOCH: int := 100_000_000_000_000

  /** One entry of the state file. `None` stands for a field that is missing or has the wrong type. */
  datatype Entry = Entry(
    threadId: Option<ThreadId>,
    state: Option<CallbackState>,
    resolution: Option<Resolution>,
    requestedAt: Option<int>,
    operatorRequest: Option<string>,
    workSlice: Option<string>,
    lastTerminalReportAt: Option<int>,
    acceptedTurn: Option<string>,
    steer: Option<string>,
    nextAction: Option<NextAction>,
    closeout: Option<CloseoutStatus>,
    owes: Option<bool>,
    channel: Option<CloseoutChannel>,
    dispatch: Option<DispatchState>,
    review: Option<ReviewState>,
    stage: Option<ReviewStage>,
    model: string,
    attempt: Option<int>,
    nextAttemptAt: Option<int>,
    block: BlockReason,
    blockedReportAt: Option<int>,
    closedAt: Option<int>,
    updatedAt: Option<int>)

  /** repairEpochMilliseconds: microsecond stamps are scaled down, stamps from the future are replaced. */
  function RepairEpoch(value: Option<int>, fallback: int, now: int): int {
    if value.None? then fallback
    else
      var repaired := if value.value >= MICROSECOND_EPOCH then (value.value + 500) / 1000 else value.value;
      if repaired > now + FUTURE_SKEW_MS then (if fallback <= now then fallback else now) else repaired
  }

  function EntryState(e: Entry): CallbackState {
    var state := e.state.GetOr(Waiting);
    if (e.closeout == Some(Posted) || e.owes == Some(false))
      && (state == ReceivedWorkerCallback || state == RecoveredFromThreadState)
    then Closed else state
  }

  function EntryReason(state: CallbackState): ReviewReason {
    match state
    case ReceivedWorkerCallback => WorkerCallback
    case MissingWorkerCallback => ThreadRecovery
    case _ => NoReason
  }

  predicate Interrupted(e: Entry) {
    e.review == Some(Running) || (e.review == Some(Blocked) && e.block == AutomationPaused)
  }

  function EntryReview(e: Entry): ReviewState {
    if Interrupted(e) then Blocked
    else if e.review.Some? then e.review.value
    else if EntryReason(EntryState(e)) != NoReason then Queued
    else Idle
  }

  function EntryStage(e: Entry): ReviewStage {
    match EntryReview(e)
    case Queued => if e.stage == Some(RetryWait) then RetryWait else QueuedStage
    case Blocked => BlockedStage
    case _ => NoStage
  }

  function Normalize(e: Entry, now: int): Option<Callback> {
    if e.threadId.None? then None
    else
      var requestedAt := RepairEpoch(e.requestedAt, now, now);
      var state := EntryState(e);
      var raw := e.state.GetOr(Waiting);
      var review := EntryReview(e);
      Some(Callback(
        e.threadId.value, state,
        if e.resolution.Some? && e.resolution.value != Unresolved then e.resolution.value
        else if raw == ReceivedWorkerCallback then ByWorkerCallback
        else if raw == RecoveredFromThreadState then ByThreadState
        else Unresolved,
        requestedAt, e.operatorRequest, e.workSlice, e.lastTerminalReportAt, e.acceptedTurn, e.steer,
        e.nextAction.GetOr(Review),
        e.closeout.GetOr(if state == Closed then Posted else Owed),
        e.owes.GetOr(state != Closed),
        e.channel.GetOr(if state == Closed then MainChat else NoChannel),
        e.dispatch.GetOr(Ready), review, EntryReason(state), EntryStage(e), e.model,
        if e.attempt.Some? && e.attempt.value > 0 then e.attempt.value else 0,
        None, None,
        if review == Queued then e.nextAttemptAt else None,
        if review != Blocked then NotBlocked else if e.block == NotBlocked then AutomationPaused else e.block,
        if review != Blocked then None
        else if e.blockedReportAt.Some? then e.blockedReportAt else e.lastTerminalReportAt,
        e.closedAt, RepairEpoch(e.updatedAt, requestedAt, now)))
  }

  /** What the save writes for a record. */
  function Persisted(cb: Callback): Entry {
    Entry(Some(cb.threadId), Some(cb.state), Some(cb.resolution), Some(cb.requestedAt), cb.operatorRequest,
          cb.workSlice,
          cb.lastTerminalReportAt, cb.acceptedTurn, cb.steer, Some(cb.nextAction), Some(cb.closeout), Some(cb.owes),
          Some(cb.channel), Some(cb.dispatch), Some(cb.review),
          if cb.stage == NoStage then None else Some(cb.stage), cb.model,
          Some(cb.attempt), cb.nextAttemptAt, cb.block, cb.blockedReportAt, cb.closedAt, Some(cb.updatedAt))
  }

  predicate InRetryWait(cb: Callback) {
    cb.review == Queued && cb.stage == RetryWait
  }

  /** loadButlerCallbackState for one entry: the record and the two counters it brings back. */
  function Load(e: Entry, now: int): Slot {
    match Normalize(e, now)
    case None => Slot(None, None, None)
    case Some(cb) =>
      if InRetryWait(cb) then Slot(Some(cb), Some(if cb.attempt >= 1 then cb.attempt else 1), cb.nextAttemptAt)
      else Slot(Some(cb), None, None)
  }

  /** start(): a paused review whose verdict is already on record is queued again. */
  function Requeue(cb: Callback, reviewRecorded: bool, now: int): Callback {
    if reviewRecorded && cb.review == Blocked && cb.block == AutomationPaused
    then cb.(review := Queued, stage := QueuedStage, block := NotBlocked, blockedReportAt := None, updatedAt := now)
    else cb
  }

  function Restarted(e: Entry, reviewRecorded: bool, now: int): Slot {
    var s := Load(e, now);
    if s.cb.Some? then s.(cb := Some(Requeue(s.cb.value, reviewRecorded, now))) else s
  }

  // ---------------------------------------------------------------- theorems

  /** Stamps a running service writes: milliseconds, not from the future. */
  predicate SaneTime(t: int, now: int) {
    t < MICROSECOND_EPOCH && t <= now + FUTURE_SKEW_MS
  }

  /** The one typed entry shape whose obligation a reload drops. */
  predicate ForgetsOnLoad(cb: Callback) {
    cb.owes && cb.closeout == Posted && (cb.state == ReceivedWorkerCallback || cb.state == RecoveredFromThreadState)
  }

  /**
   * Saving and loading any record keeps exactly its obligation, unless the record already says both
   * that the closeout was posted and that a reply is owed.
   */
  lemma ReloadKeepsObligation(cb: Callback, now: int)
    ensures Normalize(Persisted(cb), now).Some?
    ensures (Outstanding(Normalize(Persisted(cb), now).value) <==> Outstanding(cb)) <==> !ForgetsOnLoad(cb)
    ensures Normalize(Persisted(cb), now).value.dispatch == cb.dispatch
    ensures Normalize(Persisted(cb), now).value.workSlice == cb.workSlice
    ensures SaneTime(cb.requestedAt, now) ==> Normalize(Persisted(cb), now).value.requestedAt == cb.requestedAt
    ensures SaneTime(cb.updatedAt, now) ==> Normalize(Persisted(cb), now).value.updatedAt == cb.updatedAt
    ensures Normalize(Persisted(cb), now).value.nextAction == cb.nextAction
    ensures Normalize(Persisted(cb), now).value.model == cb.model
    ensures Normalize(Persisted(cb), now).value.attempt == cb.attempt
  {
  }

  /** A settled record comes back settled, and nothing comes back running. */
  lemma ReloadKeepsSettled(cb: Callback, now: int)
    requires ClosedIsSettled(cb) && (cb.closeout == Posted ==> cb.state == Closed)
    ensures var back := Load(Persisted(cb), now).cb;
            && back.Some?
            && ClosedIsSettled(back.value)
            && (back.value.closeout == Posted ==> back.value.state == Closed)
            && back.value.state == cb.state
            && back.value.review != Running
            && (cb.review != Running ==> back.value.review == cb.review)
  {
  }

  /** An entry from before there were obligations, channels, dispatch states and reviews of their own. */
  predicate IsOldEntry(e: Entry) {
    && e.threadId.Some? && e.closeout.None? && e.owes.None? && e.channel.None? && e.dispatch.None? && e.review.None?
    && e.nextAction.None?
  }

  /**
   * An old entry is read by its state alone: it owes a reply unless it is closed, and then the reply was posted in the
   * main chat; it is dispatched; its next report is reviewed; and a review is queued exactly if the Worker was heard of
   * or missed. What the loader makes of it is settled like any record.
   */
  lemma OldEntryIsReadByItsState(e: Entry, now: int)
    requires IsOldEntry(e)
    ensures var cb := Normalize(e, now).value;
            && cb.threadId == e.threadId.value && cb.state == e.state.GetOr(Waiting) && ClosedIsSettled(cb)
            && (cb.state == Closed <==> cb.closeout == Posted) && (cb.state != Closed <==> cb.closeout == Owed)
            && (cb.state == Closed <==> cb.channel == MainChat)
            && (Outstanding(cb) <==> cb.state != Closed)
            && cb.dispatch == Ready && cb.nextAction == Review && cb.block == NotBlocked
            && (cb.review == Queued <==> cb.state == ReceivedWorkerCallback || cb.state == MissingWorkerCallback)
            && (cb.review != Queued ==> cb.review == Idle)
            && (cb.reason == WorkerCallback <==> cb.state == ReceivedWorkerCallback)
            && (cb.reason == ThreadRecovery <==> cb.state == MissingWorkerCallback)
            && (e.resolution.None? ==>
                  && (cb.resolution == ByWorkerCallback <==> cb.state == ReceivedWorkerCallback)
                  && (cb.resolution == ByThreadState <==> cb.state == RecoveredFromThreadState))
  {
  }

  /**
   * Stamps are taken as they are if they are in milliseconds and not from the future, rounded to milliseconds if they
   * are in microseconds, and never lie further in the future than the clocks may differ.
   */
  lemma StampsAreRepaired(value: Option<int>, fallback: int, now: int)
    ensures value.None? ==> RepairEpoch(value, fallback, now) == fallback
    ensures value.Some? && SaneTime(value.value, now) ==> RepairEpoch(value, fallback, now) == value.value
    ensures value.Some? && value.value >= MICROSECOND_EPOCH && value.value <= 1000 * now ==>
              -500 <= 1000 * RepairEpoch(value, fallback, now) - value.value <= 500
    ensures value.Some? ==> RepairEpoch(value, fallback, now) <= now + 300_000
    ensures value.Some? && value.value < MICROSECOND_EPOCH && !SaneTime(value.value, now) ==>
              RepairEpoch(value, fallback, now) == if fallback <= now then fallback else now
  {
  }
}
