/**
 * Reviews that stand still, over whole lives: a review that was paused or blocked begins no attempt before one of the
 * steps that release it, and a review that is neither paused nor blocked can always go on.
 */
module CallbackHolds {
  import opened Options
  import opened Callbacks
  import opened CallbackPersistence
  import opened CallbackProtocol
  import opened CallbackTiming

  // ---------------------------------------------------------------- held reviews

  /**
   * The review was paused (by the operator or after too many failures) or blocked by a gate, on account of this report.
   */
  predicate Holds(cb: Callback, block: BlockReason, reportAt: Option<int>) {
    cb.review == Blocked && cb.block == block && cb.blockedReportAt == reportAt
  }

  predicate Held(j: Job, block: BlockReason, reportAt: Option<int>) {
    HasRecord(j) && Holds(Current(j), block, reportAt)
  }

  /** A saved record that a restart brings back held: one that was running comes back as an automation pause. */
  predicate ComesBackHeld(cb: Callback, recorded: bool, block: BlockReason, reportAt: Option<int>) {
    && (cb.review == Blocked || cb.review == Running)
    && block == (if cb.block == NotBlocked then AutomationPaused else cb.block)
    && reportAt == (if cb.blockedReportAt.Some? then cb.blockedReportAt else cb.lastTerminalReportAt)
    && !(recorded && block == AutomationPaused)
  }

  /** A report that is not the one the review stands still for, or that meets another verdict than the block's own. */
  predicate IsNews(seenAt: int, gate: Option<Gate>, block: BlockReason, reportAt: Option<int>) {
    || reportAt != Some(seenAt)
    || (block.Gated? && gate != Some(Gate(block.text, false)))
  }

  /** The operations that release a held review. */
  predicate OpReleases(j: Job, op: Op, block: BlockReason, reportAt: Option<int>)
    requires OpEnabled(j, op) && HasRecord(j)
  {
    match op
    case DoRegister(_) => true
    case DoReserve(_, _) => true
    case DoRollback(index, _) =>
      RollbackApplies(j, index)
      && !(j.reservations[index].saved.cb.Some? && Holds(j.reservations[index].saved.cb.value, block, reportAt))
    case DoReconcileState(seen, _, _) => seen != SeesNothing && ObservedState(seen) != Current(j).state
    case DoProcessReport(seenAt, _, _, gate) => IsNews(seenAt, gate, block, reportAt)
    case DoProcessMissing => Current(j).state == MissingWorkerCallback
    case DoPost(_, _, _) => true
    case DoBlock(why, _, at) => block != Gated(why) || at != reportAt
    case DoRetry(_) => !block.Gated?
    case DoResetFailures => block == AutomationPaused
    case DoStop(_) => true
    case DoRemove => true
    case _ => false
  }

  predicate Releases(j: Job, step: Step, block: BlockReason, reportAt: Option<int>)
    requires Enabled(j, step) && HasRecord(j)
  {
    match step
    case Operate(op, _) => OpReleases(j, op, block, reportAt)
    case Restart(recorded, _) => j.disk.None? || !ComesBackHeld(j.disk.value, recorded, block, reportAt)
    case _ => false
  }

  lemma OperationHolds(j: Job, op: Op, now: int, block: BlockReason, reportAt: Option<int>)
    requires Held(j, block, reportAt) && OpEnabled(j, op) && block != NotBlocked
    ensures var s := OpSlot(j, op, now);
            s.cb.Some? && Holds(s.cb.value, block, reportAt) <==> !OpReleases(j, op, block, reportAt)
  {
    hide FreshTime, Outstanding, GuardCurrent, GuardKnown;
    if op.DoReserve? { assert SlotOf(j).cb == Some(Current(j)); }
    if op.DoRollback? {
      assert RollbackApplies(j, op.index) <==> Current(j).requestedAt == j.reservations[op.index].requestedAt;
    }
  }

  lemma RestartHolds(cb: Callback, recorded: bool, now: int, block: BlockReason, reportAt: Option<int>)
    requires block != NotBlocked
    ensures var s := Restarted(Persisted(cb), recorded, now);
            s.cb.Some? && (Holds(s.cb.value, block, reportAt) <==> ComesBackHeld(cb, recorded, block, reportAt))
  {
    hide RepairEpoch;
  }

  lemma ReloadHolds(j: Job, recorded: bool, now: int, block: BlockReason, reportAt: Option<int>)
    requires block != NotBlocked
    ensures Held(Reloaded(j, recorded, now), block, reportAt)
            <==> j.disk.Some? && ComesBackHeld(j.disk.value, recorded, block, reportAt)
  {
    hide Persisted, Restarted, MarkFits, Put, Holds, ComesBackHeld;
    var s := if j.disk.Some? then Restarted(Persisted(j.disk.value), recorded, now) else Slot(None, None, None);
    PutIsTheSlot(Blank(j), s, true,
                 if s.fails.Some? && MarkFits(j.diskMark, s.fails, s.notBefore) then j.diskMark else None);
    HeldIsInTheSlot(Reloaded(j, recorded, now), block, reportAt);
    if j.disk.Some? { RestartHolds(j.disk.value, recorded, now, block, reportAt); }
  }

  lemma HeldIsInTheSlot(j: Job, block: BlockReason, reportAt: Option<int>)
    ensures Held(j, block, reportAt) <==> SlotOf(j).cb.Some? && Holds(SlotOf(j).cb.value, block, reportAt)
  {
  }

  /** The runner does nothing to a record that is neither queued nor running. */
  lemma RunnerPassesBy(j: Job, step: Step)
    requires Enabled(j, step) && HasRecord(j) && Current(j).review != Queued && !IsRunning(j)
    requires !step.Operate? && !step.Restart?
    ensures HasRecord(Next(j, step)) && Current(Next(j, step)) == Current(j)
  {
    hide OnSlice, FailAttempt, FailedNotBefore, Outstanding, LateRun;
    if step.RunLate? { LateRunIsIdle(j, step.start, step.end, step.now, step.reportAt); }
  }

  /** A held review stays held over a step exactly when the step does not release it. */
  lemma StepHolds(j: Job, step: Step, block: BlockReason, reportAt: Option<int>)
    requires Held(j, block, reportAt) && Enabled(j, step) && block != NotBlocked
    ensures Held(Next(j, step), block, reportAt) <==> !Releases(j, step, block, reportAt)
  {
    match step {
      case Operate(op, now) =>
        hide OpSlot, OpEnabled, OpReleases, Operated, Holds;
        OperationHolds(j, op, now, block, reportAt);
        OperatedIsTheSlot(j, op, now);
        HeldIsInTheSlot(Operated(j, op, now), block, reportAt);
        assert SlotOf(Next(j, step)) == SlotOf(Operated(j, op, now));
        HeldIsInTheSlot(Next(j, step), block, reportAt);
      case Restart(recorded, now) =>
        hide Reloaded, ComesBackHeld, Holds;
        ReloadHolds(j, recorded, now, block, reportAt);
        assert SlotOf(Next(j, step)) == SlotOf(Reloaded(j, recorded, now));
      case _ =>
        hide Next, Enabled;
        RunnerPassesBy(j, step);
    }
  }

  predicate NoRelease(j: Job, steps: seq<Step>, block: BlockReason, reportAt: Option<int>)
    requires Legal(j, steps)
    decreases |steps|
  {
    steps != [] ==>
      HasRecord(j) && !Releases(j, steps[0], block, reportAt)
      && NoRelease(Next(j, steps[0]), steps[1..], block, reportAt)
  }

  /** A held review is held, and begins no attempt, at every point of a run without a releasing step. */
  lemma {:induction false} HeldUntilReleased(j: Job, steps: seq<Step>, block: BlockReason, reportAt: Option<int>,
                                             k: nat)
    requires Held(j, block, reportAt) && block != NotBlocked && Legal(j, steps) && NoRelease(j, steps, block, reportAt)
             && k <= |steps|
    ensures Legal(j, steps[..k]) && Held(Run(j, steps[..k]), block, reportAt) && !BeginsAttempt(Run(j, steps[..k]))
    decreases |steps|
  {
    hide Next, Enabled, Releases, OnSlice;
    if k > 0 {
      StepHolds(j, steps[0], block, reportAt);
      HeldUntilReleased(Next(j, steps[0]), steps[1..], block, reportAt, k - 1);
      assert steps[..k][0] == steps[0] && steps[..k][1..] == steps[1..][..k - 1];
    }
  }

  /** The operator's stop holds a review that runs or is queued: no attempt begins until it is retried or released. */
  lemma CancelledJobBeginsNothing(j: Job, reportAt: Option<int>, now: int, steps: seq<Step>, k: nat)
    requires Enabled(j, Operate(DoCancel(reportAt), now)) && HasRecord(j)
             && (IsRunning(j) || Current(j).review == Queued)
    requires var stopped := Next(j, Operate(DoCancel(reportAt), now));
             Legal(stopped, steps) && NoRelease(stopped, steps, OperatorStopped, reportAt) && k <= |steps|
    ensures var stopped := Next(j, Operate(DoCancel(reportAt), now));
            Legal(stopped, steps[..k]) && !BeginsAttempt(Run(stopped, steps[..k]))
  {
    hide Legal, NoRelease, Run, BeginsAttempt;
    HeldUntilReleased(Next(j, Operate(DoCancel(reportAt), now)), steps, OperatorStopped, reportAt, k);
  }

  /**
   * And it can be retried at any point of such a run: it is queued afresh with the chosen model, no failure counted and
   * no wait, and what begins next is attempt one.
   */
  lemma CancelledJobIsRetried(j: Job, reportAt: Option<int>, now: int, steps: seq<Step>, model: string, retriedAt: int)
    requires Enabled(j, Operate(DoCancel(reportAt), now)) && HasRecord(j)
             && (IsRunning(j) || Current(j).review == Queued)
    requires var stopped := Next(j, Operate(DoCancel(reportAt), now));
             && Legal(stopped, steps) && NoRelease(stopped, steps, OperatorStopped, reportAt)
             && Run(stopped, steps).clock <= retriedAt
    ensures var k := Run(Next(j, Operate(DoCancel(reportAt), now)), steps);
            var again := Next(k, Operate(DoRetry(model), retriedAt));
            && Enabled(k, Operate(DoRetry(model), retriedAt))
            && HasRecord(again) && Current(again).review == Queued && Current(again).stage == QueuedStage
            && Current(again).model == model
            && Current(again).block == NotBlocked && again.fails == None && again.notBefore == None
            && BeginAttempt(Current(again), again.fails.GetOr(0), retriedAt).attempt == 1
            && Outstanding(Current(again)) == Outstanding(Current(k))
  {
    hide Legal, NoRelease, Run, BeginsAttempt;
    var stopped := Next(j, Operate(DoCancel(reportAt), now));
    HeldUntilReleased(stopped, steps, OperatorStopped, reportAt, |steps|);
    assert steps[..|steps|] == steps;
    var k := Run(stopped, steps);
    RetryRestarts(k, reportAt, model, retriedAt);
  }

  lemma RetryRestarts(k: Job, reportAt: Option<int>, model: string, retriedAt: int)
    requires Held(k, OperatorStopped, reportAt) && k.clock <= retriedAt
    ensures var again := Next(k, Operate(DoRetry(model), retriedAt));
            && Enabled(k, Operate(DoRetry(model), retriedAt))
            && HasRecord(again) && Current(again).review == Queued && Current(again).stage == QueuedStage
            && Current(again).model == model
            && Current(again).block == NotBlocked && again.fails == None && again.notBefore == None
            && Outstanding(Current(again)) == Outstanding(Current(k))
  {
  }

  /** So does the third failure of a review that is under way. */
  lemma ThirdFailureBeginsNothing(j: Job, settledAt: int, reportAt: Option<int>, steps: seq<Step>, k: nat)
    requires Enabled(j, RunSettle(settledAt, reportAt)) && Fenced(j, j.turn.ticket.rec) && j.fails.GetOr(0) >= 2
    requires var failed := Next(j, RunSettle(settledAt, reportAt));
             Legal(failed, steps) && NoRelease(failed, steps, AutomationPaused, reportAt) && k <= |steps|
    ensures var failed := Next(j, RunSettle(settledAt, reportAt));
            Legal(failed, steps[..k]) && !BeginsAttempt(Run(failed, steps[..k]))
  {
    hide Legal, NoRelease, Run, BeginsAttempt;
    HeldUntilReleased(Next(j, RunSettle(settledAt, reportAt)), steps, AutomationPaused, reportAt, k);
  }

  /** So does a closeout that its gate blocks, and no retry helps: only news does. */
  lemma GatedCloseoutBeginsNothing(j: Job, gate: string, reason: ReviewReason, reportAt: Option<int>, at: Option<int>,
                                   now: int, steps: seq<Step>, k: nat)
    requires Enabled(j, StartCloseout(IsGated(gate, reason, reportAt), now, at)) && CloseoutRuns(j, j.turn.ticket.rec)
    requires var blocked := Next(j, StartCloseout(IsGated(gate, reason, reportAt), now, at));
             Legal(blocked, steps) && NoRelease(blocked, steps, Gated(gate), reportAt) && k <= |steps|
    ensures var blocked := Next(j, StartCloseout(IsGated(gate, reason, reportAt), now, at));
            Legal(blocked, steps[..k]) && !BeginsAttempt(Run(blocked, steps[..k]))
  {
    hide Legal, NoRelease, Run, BeginsAttempt;
    HeldUntilReleased(Next(j, StartCloseout(IsGated(gate, reason, reportAt), now, at)), steps, Gated(gate),
                      reportAt, k);
  }
}
