/**
 * What registering a callback and hearing from its Worker amount to: what a registered record holds, what becomes of it
 * when a report arrives, and to whom that report is answered, however long after the registration it comes.
 */
module CallbackReports {
  import opened Options
  import opened Callbacks
  import opened CallbackPersistence
  import opened CallbackProtocol
  import opened CallbackTiming
  import opened CallbackPromises
  import CallbackProgress
  import CallbackRollback

  // ---------------------------------------------------------------- registration

  /** The part of the operator's words that an owed record hands on to the registration that replaces it. */
  function HandedOn(j: Job, given: Option<string>, kept: Option<string>, keeps: bool): Option<string> {
    if given.Some? then given else if IsOutstanding(j) && keeps then kept else None
  }

  /**
   * After a registration the record is an owed one that says what was registered: for whom, when, who gets the next
   * report, and whether the request is on its way. It is for the slice that was given, else for that of the record
   * before it, else for the job's current one. The operator's request, and the steer if it is to be kept, are handed on
   * from a record that was still owed, unless new ones are given. Nothing of an older report, block or failure is left.
   */
  lemma RegistrationIsRecorded(j: Job, op: Op, now: int)
    requires (op.DoRegister? || op.DoReserve?) && Enabled(j, Operate(op, now))
    ensures var k := Next(j, Operate(op, now));
            && IsOutstanding(k) && k.fails == None && k.notBefore == None
            && var cb, reg := Current(k), op.reg;
               && cb.threadId == j.threadId && cb.state == Waiting && cb.closeout == Owed && cb.channel == NoChannel
               && cb.requestedAt == reg.requestedAt && cb.nextAction == reg.nextAction && cb.dispatch == reg.dispatch
               && (reg.slice.GivenSlice? ==> cb.workSlice == reg.slice.slice)
               && (reg.slice.InheritSlice? ==>
                     cb.workSlice
                     == if HasRecord(j) && Current(j).workSlice.Some? then Current(j).workSlice else j.scope)
               && cb.operatorRequest
                  == HandedOn(j, reg.operatorRequest, if HasRecord(j) then Current(j).operatorRequest else None, true)
               && cb.steer == HandedOn(j, reg.steer, if HasRecord(j) then Current(j).steer else None, reg.keepSteer)
               && cb.resolution == Unresolved && cb.acceptedTurn == None && cb.lastTerminalReportAt == None
               && cb.closedAt == None && cb.block == NotBlocked && cb.blockedReportAt == None
               && ReviewOf(cb) == if op.DoReserve? && op.guarded then ReviewOf(Current(j))
                                  else ReviewPart(Idle, NoReason, NoStage, reg.model, 0, None, None, None)
  {
    hide FreshTime;
  }

  // ---------------------------------------------------------------- a report arrives

  /** The report is to be answered to the operator at once. */
  predicate IsHandedOn(j: Job, seenAt: int, completed: bool, hasText: bool, gate: Option<Gate>, now: int)
    requires HasRecord(j)
  {
    ProcessReport(Current(j), seenAt, completed, hasText, gate, now).PostsReply?
  }

  /** A review on account of a report of the Worker is queued or runs already. */
  predicate IsUnderReview(cb: Callback) {
    cb.state == ReceivedWorkerCallback && cb.reason == WorkerCallback && (cb.review == Queued || cb.review == Running)
  }

  /**
   * A report that arrives for an owed, dispatched callback is never left lying: it is answered to the operator, or the
   * gate blocks the callback for it, or the callback stands still for it already, or a review of it is queued or under
   * way. It is answered to the operator if and only if the callback is not blocked and asks for that, and the report is
   * unfinished, has text and meets no gate.
   */
  lemma ReportIsDealtWith(j: Job, seenAt: int, completed: bool, hasText: bool, gate: Option<Gate>, now: int)
    requires Enabled(j, Operate(DoProcessReport(seenAt, completed, hasText, gate), now))
    ensures var k := Next(j, Operate(DoProcessReport(seenAt, completed, hasText, gate), now));
            var posts := IsHandedOn(j, seenAt, completed, hasText, gate, now);
            && IsOutstanding(k) && k.fails == j.fails && k.notBefore == j.notBefore
            && var was, cb := Current(j), Current(k);
               && (posts <==> was.review != Blocked && was.nextAction == ReplyToOperator && !completed && hasText
                              && gate.None?)
               && (posts ==> cb == was.(lastTerminalReportAt := Some(seenAt)))
               && (cb.review == Blocked <==> HeldFor(was, seenAt, gate) || IsGatedBy(was, completed, hasText, gate))
               && (HeldFor(was, seenAt, gate) ==> cb == was.(lastTerminalReportAt := Some(seenAt)))
               && (IsGatedBy(was, completed, hasText, gate) ==>
                     cb.block == Gated(gate.value.text) && cb.blockedReportAt == Some(seenAt)
                       && cb.nextAction == Review)
               && (cb.review == Idle ==> posts)
               && (!posts ==> cb.review == Blocked || (cb.review == Queued && cb.reason == WorkerCallback)
                              || (cb.review == Running && cb.reason == WorkerCallback))
               && (was.review == Blocked && cb.review == Queued ==>
                     cb.block == NotBlocked && cb.blockedReportAt == None && cb.nextAction == Review
                     && cb.stage == QueuedStage)
               && (was.review != Blocked && !posts && cb.review != Blocked ==>
                     cb.state == ReceivedWorkerCallback && cb.nextAction == was.nextAction && cb.block == was.block
                     && ReviewOf(cb) == if IsUnderReview(was) then ReviewOf(was)
                                        else ReviewOf(was).(review := Queued, reason := WorkerCallback))
               && PromiseOf(cb) == PromiseOf(was).(state := cb.state, lastTerminalReportAt := Some(seenAt))
               && (cb.state == was.state || cb.state == ReceivedWorkerCallback)
  {
    hide Backoff, FailedNotBefore;
  }

  /**
   * Looking at the Worker's thread gives the record the state that was seen. A report, or an idle Worker without one,
   * queues the review if it is news, with the reason that goes with it; seeing nothing leaves the review alone.
   */
  lemma ObservationIsRecorded(j: Job, seen: Observed, statusChanged: bool, reportAt: Option<int>, now: int)
    requires Enabled(j, Operate(DoReconcileState(seen, statusChanged, reportAt), now))
    ensures var k := Next(j, Operate(DoReconcileState(seen, statusChanged, reportAt), now));
            && IsOutstanding(k) && k.fails == j.fails && k.notBefore == j.notBefore
            && var was, cb := Current(j), Current(k);
               && (cb.state == ReceivedWorkerCallback <==> seen.SeesReport?)
               && (cb.state == MissingWorkerCallback <==> seen.SeesIdleWithoutReport?)
               && (cb.state == Waiting <==> seen.SeesNothing?)
               && ReviewOf(cb) == (if cb.state == was.state || seen.SeesNothing? then ReviewOf(was)
                                   else ReviewOf(was).(review := Queued,
                                                       reason := if seen.SeesReport? then WorkerCallback
                                                                 else ThreadRecovery))
               && PromiseOf(cb) == PromiseOf(was).(state := cb.state, lastTerminalReportAt := cb.lastTerminalReportAt)
               && cb.lastTerminalReportAt
                  == (if (statusChanged || cb.state != was.state) && reportAt.Some? then reportAt
                      else was.lastTerminalReportAt)
  {
  }

  /**
   * Without a report, a callback that misses its Worker gets its thread reviewed: a review under way goes on for that
   * reason, any other, also a blocked one, is queued. Any other callback is left alone.
   */
  lemma MissingIsReviewed(j: Job, now: int)
    requires Enabled(j, Operate(DoProcessMissing, now))
    ensures var k := Next(j, Operate(DoProcessMissing, now));
            && SamePromise(j, k) && k.fails == j.fails && k.notBefore == j.notBefore
            && ReviewOf(Current(k)) == (if Current(j).state != MissingWorkerCallback then ReviewOf(Current(j))
                                        else ReviewOf(Current(j)).(
                                          review := if IsRunning(j) then Running else Queued,
                                          reason := ThreadRecovery))
            && (Current(j).state != MissingWorkerCallback ==> SlotOf(k) == SlotOf(j))
            && ((Current(j).review == Queued || IsRunning(j)) && Current(j).reason == ThreadRecovery ==>
                  SlotOf(k) == SlotOf(j))
  {
  }

  /** An idle Worker that has not reported gets the thread itself reviewed, however the callback's review stood. */
  lemma SilenceIsDealtWith(j: Job, statusChanged: bool, reportAt: Option<int>, now: int, later: int)
    requires Enabled(j, Operate(DoReconcileState(SeesIdleWithoutReport, statusChanged, reportAt), now)) && now <= later
    ensures var k := Next(j, Operate(DoReconcileState(SeesIdleWithoutReport, statusChanged, reportAt), now));
            && Enabled(k, Operate(DoProcessMissing, later))
            && var m := Next(k, Operate(DoProcessMissing, later));
               && IsOutstanding(m) && Current(m).state == MissingWorkerCallback && Current(m).reason == ThreadRecovery
               && Current(m).review == if IsRunning(k) then Running else Queued
  {
    var k := Next(j, Operate(DoReconcileState(SeesIdleWithoutReport, statusChanged, reportAt), now));
    ObservationIsRecorded(j, SeesIdleWithoutReport, statusChanged, reportAt, now);
    assert k.clock == now && Current(k).dispatch == Ready;
    MissingIsReviewed(k, later);
    hide Next;
  }

  /**
   * The outcomes that end a report's way: an attempt, a pause or block that stands for this report, a closed callback.
   */
  predicate Answered(j: Job, seenAt: int, gate: Option<Gate>) {
    CallbackProgress.Resolved(j) || (HasRecord(j) && Current(j).review == Blocked && Current(j).block != NotBlocked
                                     && Current(j).blockedReportAt == Some(seenAt))
  }

  /**
   * No report stalls: from every reachable state in which a report arrives for an owed, dispatched callback in nobody's
   * hands, idle ones included, a post or a few steps of the runner lead to an attempt, to a pause or block that stands
   * for this report, or to a closed callback. A post needs the callback to be on the job's current work slice.
   */
  lemma NoReportStalls(threadId: ThreadId, clock: int, scope: Option<string>, steps: seq<Step>,
                       seenAt: int, completed: bool, hasText: bool, gate: Option<Gate>, now: int)
      returns (more: seq<Step>)
    requires Legal(Init(threadId, clock, scope), steps)
    requires var j := Run(Init(threadId, clock, scope), steps);
             && IsOutstanding(j) && Current(j).dispatch == Ready && j.turn == Unselected && j.late == []
             && j.clock <= now
             && (IsHandedOn(j, seenAt, completed, hasText, gate, now) && Current(j).workSlice.Some? ==>
                   Current(j).workSlice == j.scope)
    ensures var j := Run(Init(threadId, clock, scope), steps);
            var report := Operate(DoProcessReport(seenAt, completed, hasText, gate), now);
            && |more| <= 3 && Legal(j, [report] + more) && Answered(Run(j, [report] + more), seenAt, gate)
            && (if IsHandedOn(j, seenAt, completed, hasText, gate, now)
                then |more| == 1 && more[0].Operate? && more[0].op.DoPost?
                     && Current(Run(j, [report] + more)).state == Closed
                else forall step <- more :: step.Recover? || step.Select? || step.BeginNext?)
  {
    hide Legal, Run;
    var init := Init(threadId, clock, scope);
    var j := Run(init, steps);
    var report := Operate(DoProcessReport(seenAt, completed, hasText, gate), now);
    var k := Next(j, report);
    ReportIsDealtWith(j, seenAt, completed, hasText, gate, now);
    ReportKeepsTheRunner(j, seenAt, completed, hasText, gate, now);
    hide Next, Enabled, IsHandedOn;
    if IsHandedOn(j, seenAt, completed, hasText, gate, now) {
      var post := Operate(DoPost(ByWorkerCallback, Some(seenAt), now), now);
      CanPost(k, Some(seenAt), now);
      CallbackRollback.OneStep(k, post);
      more := [post];
    } else if Current(k).review == Blocked {
      more := [];
      NoStep(k);
    } else {
      OneMoreStep(init, steps, report);
      more := CallbackProgress.NoReviewStalls(threadId, clock, scope, steps + [report]);
    }
    CallbackProgress.StepThen(j, report, more);
  }

  lemma NoStep(j: Job)
    ensures Legal(j, []) && Run(j, []) == j
  {
  }

  lemma ReportKeepsTheRunner(j: Job, seenAt: int, completed: bool, hasText: bool, gate: Option<Gate>, now: int)
    requires Enabled(j, Operate(DoProcessReport(seenAt, completed, hasText, gate), now))
    ensures var k := Next(j, Operate(DoProcessReport(seenAt, completed, hasText, gate), now));
            k.turn == j.turn && k.late == j.late && k.clock == now && k.scope == j.scope
  {
    hide ProcessReport;
  }

  lemma CanPost(j: Job, reportAt: Option<int>, now: int)
    requires IsOutstanding(j) && (Current(j).workSlice.Some? ==> Current(j).workSlice == j.scope) && j.clock <= now
    ensures var post := Operate(DoPost(ByWorkerCallback, reportAt, now), now);
            && Enabled(j, post) && HasRecord(Next(j, post)) && Current(Next(j, post)).state == Closed
  {
  }

  lemma {:induction false} OneMoreStep(j: Job, steps: seq<Step>, step: Step)
    requires Legal(j, steps) && Enabled(Run(j, steps), step)
    ensures Legal(j, steps + [step]) && Run(j, steps + [step]) == Next(Run(j, steps), step)
    decreases |steps|
  {
    hide Enabled, Next;
    if steps == [] {
      CallbackRollback.OneStep(j, step);
      assert steps + [step] == [step];
    } else {
      OneMoreStep(Next(j, steps[0]), steps[1..], step);
      assert (steps + [step])[0] == steps[0] && (steps + [step])[1..] == steps[1..] + [step];
    }
  }

  // ---------------------------------------------------------------- who gets the next report

  /** The next report goes where `action` says: the record asks for it, and does not stand still. */
  predicate Goes(cb: Callback, action: NextAction) {
    cb.nextAction == action && cb.review != Blocked
  }

  predicate Awaits(j: Job, action: NextAction) {
    HasRecord(j) && Goes(Current(j), action)
  }

  predicate SlotAwaits(s: Slot, action: NextAction) {
    s.cb.Some? && Goes(s.cb.value, action)
  }

  lemma AwaitsIsInTheSlot(j: Job, action: NextAction)
    ensures Awaits(j, action) <==> SlotAwaits(SlotOf(j), action)
  {
  }

  /** The operations that send the next report elsewhere: other registrations, and what queues anew, blocks or ends. */
  predicate OpRedirects(j: Job, op: Op, action: NextAction)
    requires OpEnabled(j, op) && HasRecord(j)
  {
    match op
    case DoRegister(reg) => reg.nextAction != action
    case DoReserve(reg, _) => reg.nextAction != action
    case DoRollback(index, _) => RollbackApplies(j, index) && !SlotAwaits(j.reservations[index].saved, action)
    case DoProcessReport(_, completed, hasText, gate) =>
      action == ReplyToOperator && !completed && hasText && gate.Some?
    case DoPost(_, _, _) => action == ReplyToOperator
    case DoBlock(_, _, _) => true
    case DoCancel(_) => Current(j).review == Running || Current(j).review == Queued
    case DoRemove => true
    case _ => false
  }

  /**
   * A saved record comes back blocked: one that ran comes back paused, and a pause is lifted if the verdict is known.
   */
  predicate ComesBackBlocked(cb: Callback, recorded: bool) {
    (cb.review == Blocked || cb.review == Running)
    && !(recorded && (cb.block == NotBlocked || cb.block == AutomationPaused))
  }

  /** The settlement that is due charges the record in the map with its last failure. */
  predicate LastCharge(j: Job, rec: RecordId, fenced: bool) {
    && j.cur == Some(rec) && IsRunning(j) && j.fails.GetOr(0) >= 2
    && (fenced ==> IsOutstanding(j))
  }

  predicate Redirects(j: Job, step: Step, action: NextAction)
    requires Enabled(j, step) && HasRecord(j)
  {
    match step
    case Operate(op, _) => OpRedirects(j, op, action)
    case Recover(_, _) => j.fails.GetOr(0) >= 2
    case RunSettle(_, _) => LastCharge(j, j.turn.ticket.rec, true)
    case StartCloseout(start, _, _) => CloseoutRuns(j, j.turn.ticket.rec) && start.IsGated?
    case FinishCloseout(end, _, _) =>
      if end.PostDone? && Fenced(j, j.turn.ticket.rec) then action == ReplyToOperator
      else LastCharge(j, j.turn.ticket.rec, false)
    case RaceTimesOut(_, _) => !j.turn.ticket.Settle? && LastCharge(j, j.turn.ticket.rec, false)
    case RunLate(start, end, _, _) => LateRedirects(j, j.late[0], start, end, action)
    case Restart(recorded, _) =>
      j.disk.None? || j.disk.value.nextAction != action || ComesBackBlocked(j.disk.value, recorded)
    case _ => false
  }

  predicate LateRedirects(j: Job, ticket: Ticket, start: CloseoutStart, end: CloseoutEnd, action: NextAction) {
    match ticket
    case Settle(rec, _) => LastCharge(j, rec, true)
    case Terminal(rec, _) => CloseoutRuns(j, rec) && start.IsGated?
    case Posting(rec, _) => end.PostDone? && Fenced(j, rec) && action == ReplyToOperator
  }

  lemma OperationRedirects(j: Job, op: Op, now: int, action: NextAction)
    requires Awaits(j, action) && OpEnabled(j, op)
    ensures SlotAwaits(OpSlot(j, op, now), action) <==> !OpRedirects(j, op, action)
  {
    hide FreshTime, Outstanding, GuardCurrent, GuardKnown;
    if op.DoRollback? {
      assert RollbackApplies(j, op.index) <==> Current(j).requestedAt == j.reservations[op.index].requestedAt;
    }
  }

  lemma RestartRedirects(cb: Callback, recorded: bool, now: int, action: NextAction)
    ensures SlotAwaits(Restarted(Persisted(cb), recorded, now), action)
            <==> cb.nextAction == action && !ComesBackBlocked(cb, recorded)
  {
    hide RepairEpoch;
  }

  lemma ReloadRedirects(j: Job, recorded: bool, now: int, action: NextAction)
    ensures Awaits(Reloaded(j, recorded, now), action)
            <==> j.disk.Some? && j.disk.value.nextAction == action && !ComesBackBlocked(j.disk.value, recorded)
  {
    hide Persisted, Restarted, MarkFits, Put, Goes, ComesBackBlocked;
    var s := if j.disk.Some? then Restarted(Persisted(j.disk.value), recorded, now) else Slot(None, None, None);
    PutIsTheSlot(Blank(j), s, true,
                 if s.fails.Some? && MarkFits(j.diskMark, s.fails, s.notBefore) then j.diskMark else None);
    AwaitsIsInTheSlot(Reloaded(j, recorded, now), action);
    if j.disk.Some? { RestartRedirects(j.disk.value, recorded, now, action); }
  }

  lemma SettlementRedirects(j: Job, rec: RecordId, now: int, reportAt: Option<int>, action: NextAction)
    requires Awaits(j, action)
    ensures Awaits(FallBack(j, rec, now, reportAt), action) <==> !LastCharge(j, rec, false)
    ensures Awaits(SettleFailure(j, rec, now, reportAt), action) <==> !LastCharge(j, rec, true)
  {
    hide FailedNotBefore, Backoff;
  }

  lemma CloseoutRedirects(j: Job, rec: RecordId, start: CloseoutStart, end: CloseoutEnd, now: int, action: NextAction)
    requires Awaits(j, action)
    ensures Awaits(CloseoutHead(j, start, now), action) <==> !start.IsGated?
    ensures Awaits(CloseoutTail(j, rec, end, now), action)
            <==> !(end.PostDone? && Fenced(j, rec) && action == ReplyToOperator)
  {
  }

  lemma RaceRedirects(j: Job, step: Step, action: NextAction)
    requires Awaits(j, action) && Enabled(j, step)
    requires step.RunSettle? || step.StartCloseout? || step.FinishCloseout? || step.RaceTimesOut?
    ensures Awaits(Stepped(j, step), action) <==> !Redirects(j, step, action)
  {
    hide SettleFailure, CloseoutHead, CloseoutTail, FallBack, OnSlice, Outstanding, Goes, LastCharge;
    var rec := j.turn.ticket.rec;
    SettlementRedirects(j, rec, step.now, step.reportAt, action);
    if step.StartCloseout? { CloseoutRedirects(j, rec, step.start, PostFailed, step.now, action); }
    if step.FinishCloseout? { CloseoutRedirects(j, rec, GoesIdle, step.end, step.now, action); }
  }

  lemma LateRedirectsToo(j: Job, start: CloseoutStart, end: CloseoutEnd, now: int, reportAt: Option<int>,
                         action: NextAction)
    requires Awaits(j, action) && j.late != []
    ensures Awaits(LateRun(j, start, end, now, reportAt), action) <==> !LateRedirects(j, j.late[0], start, end, action)
  {
    hide SettleFailure, CloseoutHead, CloseoutTail, OnSlice, Outstanding, Goes, LastCharge;
    var rest := j.(late := j.late[1..]);
    var rec := j.late[0].rec;
    SettlementRedirects(rest, rec, now, reportAt, action);
    CloseoutRedirects(rest, rec, start, end, now, action);
    assert LastCharge(rest, rec, true) == LastCharge(j, rec, true) by { LateIsNoCharge(j, rest, rec); }
  }

  lemma LateIsNoCharge(j: Job, rest: Job, rec: RecordId)
    requires rest == j.(late := rest.late)
    ensures LastCharge(rest, rec, true) == LastCharge(j, rec, true)
  {
  }

  /** Over every step, the next report stays where it was to go exactly if the step does not send it elsewhere. */
  lemma StepRedirects(j: Job, step: Step, action: NextAction)
    requires Awaits(j, action) && Enabled(j, step)
    ensures Awaits(Next(j, step), action) <==> !Redirects(j, step, action)
  {
    hide OpSlot, OpEnabled, Operated, Charge, BegunNext, Reloaded, LateRun, SettleFailure, StartedCloseout,
         FinishedCloseout, TimedOut, Runnable, OpRedirects, LateRedirects, ComesBackBlocked, Goes, Outstanding;
    AwaitsIsInTheSlot(j, action);
    AwaitsIsInTheSlot(Next(j, step), action);
    match step {
      case Operate(op, now) =>
        OperationRedirects(j, op, now, action);
        OperatedIsTheSlot(j, op, now);
      case Recover(now, reportAt) =>
        SettlementRedirects(j, j.cur.value, now, reportAt, action);
        CallbackRollback.ChargeIsFallBack(j, now, reportAt);
      case BeginNext(now) => BeginRedirectsNothing(j, now, action);
      case RunSettle(_, _) => RaceRedirects(j, step, action);
      case StartCloseout(_, _, _) => RaceRedirects(j, step, action);
      case FinishCloseout(_, _, _) => RaceRedirects(j, step, action);
      case RaceTimesOut(_, _) => RaceRedirects(j, step, action);
      case RunLate(start, end, now, reportAt) => LateRedirectsToo(j, start, end, now, reportAt, action);
      case Restart(recorded, now) => ReloadRedirects(j, recorded, now, action);
      case _ =>
    }
  }

  lemma BeginRedirectsNothing(j: Job, now: int, action: NextAction)
    requires Awaits(j, action)
    ensures Awaits(BegunNext(j, now), action)
  {
    hide OnSlice;
  }

  predicate NoRedirect(j: Job, steps: seq<Step>, action: NextAction)
    requires Legal(j, steps)
    decreases |steps|
  {
    steps != [] ==>
      HasRecord(j) && !Redirects(j, steps[0], action) && NoRedirect(Next(j, steps[0]), steps[1..], action)
  }

  lemma {:induction false} RunRedirects(j: Job, steps: seq<Step>, action: NextAction)
    requires Awaits(j, action) && Legal(j, steps) && NoRedirect(j, steps, action)
    ensures Awaits(Run(j, steps), action)
    decreases |steps|
  {
    hide Next, Enabled, Redirects, Awaits;
    if steps != [] {
      StepRedirects(j, steps[0], action);
      RunRedirects(Next(j, steps[0]), steps[1..], action);
    }
  }

  /**
   * After a registration, over every run without a step that sends the next report elsewhere: the next unfinished
   * report with text and no gate against it is answered to the operator if and only if the registration asked for that.
   */
  lemma ReportGoesWhereItWasAsked(j: Job, op: Op, installedAt: int, steps: seq<Step>, seenAt: int, now: int)
    requires (op.DoRegister? || op.DoReserve?) && Enabled(j, Operate(op, installedAt))
    requires Legal(Next(j, Operate(op, installedAt)), steps)
             && NoRedirect(Next(j, Operate(op, installedAt)), steps, op.reg.nextAction)
    requires Enabled(Run(Next(j, Operate(op, installedAt)), steps),
                     Operate(DoProcessReport(seenAt, false, true, None), now))
    ensures var k := Run(Next(j, Operate(op, installedAt)), steps);
            IsHandedOn(k, seenAt, false, true, None, now) <==> op.reg.nextAction == ReplyToOperator
  {
    hide Legal, Run, NoRedirect, IsHandedOn;
    RegistrationAwaits(j, op, installedAt);
    RunRedirects(Next(j, Operate(op, installedAt)), steps, op.reg.nextAction);
    ReportIsDealtWith(Run(Next(j, Operate(op, installedAt)), steps), seenAt, false, true, None, now);
  }

  lemma RegistrationAwaits(j: Job, op: Op, installedAt: int)
    requires (op.DoRegister? || op.DoReserve?) && Enabled(j, Operate(op, installedAt))
    ensures Awaits(Next(j, Operate(op, installedAt)), op.reg.nextAction)
  {
    hide Next, FreshTime, HandedOn;
    RegistrationIsRecorded(j, op, installedAt);
  }

  /** And the other way round: a report that goes elsewhere was sent there by a step since the registration. */
  lemma {:induction false} RedirectedReport(j: Job, steps: seq<Step>, action: NextAction) returns (i: nat)
    requires Awaits(j, action) && Legal(j, steps) && !Awaits(Run(j, steps), action)
    ensures i < |steps| && Legal(j, steps[..i]) && Enabled(Run(j, steps[..i]), steps[i])
    ensures Awaits(Run(j, steps[..i]), action) && Redirects(Run(j, steps[..i]), steps[i], action)
    decreases |steps|
  {
    hide Next, Enabled, Redirects, Goes;
    if Redirects(j, steps[0], action) {
      i := 0;
      NoStep(j);
    } else {
      StepRedirects(j, steps[0], action);
      var rest := RedirectedReport(Next(j, steps[0]), steps[1..], action);
      i := rest + 1;
      assert steps[..i][0] == steps[0] && steps[..i][1..] == steps[1..][..rest];
    }
  }
}
