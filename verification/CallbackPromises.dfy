/**
 * The promise a record makes, apart from the review of its job: what reviewing, crashing, registering under a running
 * review and seeing a report twice do to it.
 */
module CallbackPromises {
  import opened Options
  import opened Callbacks
  import opened CallbackPersistence
  import opened CallbackProtocol
  import opened CallbackObligations
  import opened CallbackSafety
  import opened CallbackRollback

  /** The part of a record that says what is promised to the operator, and to whom the record belongs. */
  datatype Promise = Promise(
    threadId: ThreadId,
    state: CallbackState,
    resolution: Resolution,
    requestedAt: int,
    operatorRequest: Option<string>,
    workSlice: Option<string>,
    lastTerminalReportAt: Option<int>,
    acceptedTurn: Option<string>,
    steer: Option<string>,
    closeout: CloseoutStatus,
    owes: bool,
    channel: CloseoutChannel,
    dispatch: DispatchState,
    closedAt: Option<int>)

  function PromiseOf(cb: Callback): Promise {
    Promise(cb.threadId, cb.state, cb.resolution, cb.requestedAt, cb.operatorRequest, cb.workSlice,
            cb.lastTerminalReportAt,
            cb.acceptedTurn, cb.steer, cb.closeout, cb.owes, cb.channel, cb.dispatch, cb.closedAt)
  }

  /** The part that is about the review. */
  datatype ReviewPart = ReviewPart(
    review: ReviewState,
    reason: ReviewReason,
    stage: ReviewStage,
    model: string,
    attempt: nat,
    startedAt: Option<int>,
    deadlineAt: Option<int>,
    nextAttemptAt: Option<int>)

  function ReviewOf(cb: Callback): ReviewPart {
    ReviewPart(cb.review, cb.reason, cb.stage, cb.model, cb.attempt, cb.startedAt, cb.deadlineAt, cb.nextAttemptAt)
  }

  // ---------------------------------------------------------------- reviews do not touch the promise

  /** The job has the same promise before and after. */
  predicate SamePromise(j: Job, k: Job) {
    HasRecord(j) && HasRecord(k) && PromiseOf(Current(k)) == PromiseOf(Current(j))
  }

  lemma SettlementKeepsPromise(j: Job, rec: RecordId, now: int, reportAt: Option<int>)
    requires HasRecord(j)
    ensures SamePromise(j, FallBack(j, rec, now, reportAt)) && SamePromise(j, SettleFailure(j, rec, now, reportAt))
  {
    hide FailedNotBefore, Backoff;
  }

  lemma CloseoutHeadKeepsPromise(j: Job, start: CloseoutStart, now: int)
    requires HasRecord(j)
    ensures SamePromise(j, CloseoutHead(j, start, now))
  {
  }

  lemma BeginKeepsPromise(j: Job, now: int)
    requires HasRecord(j) && !BeginSupersedes(j)
    ensures SamePromise(j, BegunNext(j, now))
  {
    hide OnSlice;
  }

  lemma RaceKeepsPromise(j: Job, step: Step)
    requires HasRecord(j) && Enabled(j, step) && !Discharges(j, step)
    requires step.RunSettle? || step.StartCloseout? || step.FinishCloseout? || step.RaceTimesOut?
    ensures SamePromise(j, Stepped(j, step))
  {
    hide SettleFailure, CloseoutHead, FallBack, OnSlice, PromiseOf, Outstanding;
    var rec := j.turn.ticket.rec;
    SettlementKeepsPromise(j, rec, step.now, step.reportAt);
    if step.StartCloseout? { CloseoutHeadKeepsPromise(j, step.start, step.now); }
  }

  lemma LateKeepsPromise(j: Job, step: Step)
    requires HasRecord(j) && Enabled(j, step) && !Discharges(j, step) && step.RunLate?
    ensures SamePromise(j, Stepped(j, step))
  {
    hide SettleFailure, CloseoutHead, OnSlice, PromiseOf, Outstanding;
    var rest := j.(late := j.late[1..]);
    SettlementKeepsPromise(rest, j.late[0].rec, step.now, step.reportAt);
    CloseoutHeadKeepsPromise(rest, step.start, step.now);
  }

  /** Nothing that the review runner does changes the promise, unless it ends it. */
  lemma RunnerKeepsPromise(j: Job, step: Step)
    requires HasRecord(j) && Enabled(j, step) && !Discharges(j, step) && !step.Operate? && !step.Restart?
    ensures SamePromise(j, Next(j, step))
  {
    hide PromiseOf, Charge, BegunNext, LateRun, StartedCloseout, FinishedCloseout, TimedOut, SettleFailure, Runnable;
    match step {
      case Recover(now, reportAt) =>
        SettlementKeepsPromise(j, j.cur.value, now, reportAt);
        ChargeIsFallBack(j, now, reportAt);
      case BeginNext(now) => BeginKeepsPromise(j, now);
      case RunSettle(_, _) => RaceKeepsPromise(j, step);
      case StartCloseout(_, _, _) => RaceKeepsPromise(j, step);
      case FinishCloseout(_, _, _) => RaceKeepsPromise(j, step);
      case RaceTimesOut(_, _) => RaceKeepsPromise(j, step);
      case RunLate(_, _, _, _) => LateKeepsPromise(j, step);
      case _ =>
    }
  }

  /**
   * Over any run of selections, attempts, failures, timeouts, late settlements, recoveries, blocks and saves, the
   * promise is word for word what it was, unless the run ends it.
   */
  lemma {:induction false} PromiseOutlivesReviews(j: Job, steps: seq<Step>)
    requires HasRecord(j) && Legal(j, steps) && NoDischarge(j, steps)
    requires forall step <- steps :: !step.Operate? && !step.Restart?
    ensures SamePromise(j, Run(j, steps))
    decreases |steps|
  {
    hide Next, Enabled, Discharges, PromiseOf;
    if steps != [] {
      assert steps[0] in steps && forall step <- steps[1..] :: step in steps;
      RunnerKeepsPromise(j, steps[0]);
      PromiseOutlivesReviews(Next(j, steps[0]), steps[1..]);
    }
  }

  // ---------------------------------------------------------------- a crash

  /** A reload keeps the promise; only a missing resolution is filled in for a job whose Worker was heard of. */
  lemma ReloadKeepsPromise(cb: Callback, now: int)
    requires Fine(cb) && SaneTime(cb.requestedAt, now)
    ensures var back := Normalize(Persisted(cb), now).value;
            && PromiseOf(back) == PromiseOf(cb).(resolution := back.resolution)
            && (back.resolution == cb.resolution
                || (cb.resolution == Unresolved
                    && back.resolution
                       == if cb.state == ReceivedWorkerCallback then ByWorkerCallback else ByThreadState))
  {
    hide EntryReview, EntryStage;
  }

  lemma RequeueKeepsPromise(cb: Callback, reviewRecorded: bool, now: int)
    ensures var s := Restarted(Persisted(cb), reviewRecorded, now);
            s.cb.Some? && PromiseOf(s.cb.value) == PromiseOf(Normalize(Persisted(cb), now).value)
              && s.cb.value.review != Running
  {
    hide EntryReason, EntryState, RepairEpoch;
  }

  /**
   * A crash right after a save, anywhere in a life: the promise comes back word for word, but for a missing resolution,
   * and no review comes back running.
   */
  lemma CrashKeepsThePromise(threadId: ThreadId, clock: int, scope: Option<string>, steps: seq<Step>,
                             reviewRecorded: bool, now: int)
    requires Legal(Init(threadId, clock, scope), steps)
    requires var j := Run(Init(threadId, clock, scope), steps);
             HasRecord(j) && j.clock <= now && SaneTime(Current(j).requestedAt, now)
    ensures var j := Run(Init(threadId, clock, scope), steps);
            var back := Survivor(j, reviewRecorded, now).cb;
            && back.Some? && back.value.review != Running
            && PromiseOf(back.value) == PromiseOf(Current(j)).(resolution := back.value.resolution)
            && (back.value.resolution == Current(j).resolution || Current(j).resolution == Unresolved)
  {
    hide Legal, Run, Survivor, PromiseOf;
    var init := Init(threadId, clock, scope);
    assert AllFine(init);
    RunKeepsFine(init, steps);
    var j := Run(init, steps);
    CurrentIsFine(j);
    SurvivorIsRestarted(j, reviewRecorded, now);
    ReloadKeepsPromise(Current(j), now);
    RequeueKeepsPromise(Current(j), reviewRecorded, now);
  }

  lemma SurvivorIsRestarted(j: Job, reviewRecorded: bool, now: int)
    requires HasRecord(j) && j.clock <= now
    ensures Survivor(j, reviewRecorded, now) == Restarted(Persisted(Current(j)), reviewRecorded, now)
  {
    hide Restarted, Persisted, Reloaded;
    var saved := Next(j, Save);
    assert saved.disk == Some(Current(j));
    ReloadedIsTheSlot(saved, reviewRecorded, now);
    assert SlotOf(Next(saved, Restart(reviewRecorded, now))) == SlotOf(Reloaded(saved, reviewRecorded, now));
  }

  // ---------------------------------------------------------------- registering under a running review

  /**
   * A reservation made by the attempt's own tool makes the same new promise as any other, and the attempt goes on: it
   * still holds the record, and its review is as it was. Made from anywhere else, the reservation puts the attempt off:
   * its record is replaced and left as it is, and the attempt can no longer act.
   */
  lemma GuardDecidesTheAttempt(j: Job, reg: Registration, now: int)
    requires AttemptsSound(j) && Enabled(j, Operate(DoReserve(reg, true), now))
    ensures var kept := Next(j, Operate(DoReserve(reg, true), now));
            && GuardCurrent(kept) && kept.turn == j.turn && kept.cur == j.cur
            && ReviewOf(Current(kept)) == ReviewOf(Current(j))
    ensures var off := Next(j, Operate(DoReserve(reg, false), now));
            && !GuardCurrent(off) && off.turn == j.turn && off.cur != j.cur && off.recs[j.cur.value] == Current(j)
    ensures SamePromise(Next(j, Operate(DoReserve(reg, false), now)), Next(j, Operate(DoReserve(reg, true), now)))
  {
    hide ChargesSound, FreshTime;
  }

  // ---------------------------------------------------------------- a report seen twice

  /** The record stands still on account of this very report: paused, or blocked by this verdict. */
  predicate HeldFor(cb: Callback, seenAt: int, gate: Option<Gate>) {
    && cb.review == Blocked && cb.blockedReportAt == Some(seenAt)
    && (cb.block == AutomationPaused || cb.block == OperatorStopped
        || (gate.Some? && !gate.value.mustFinish && cb.block == Gated(gate.value.text)))
  }

  /** A blocked callback that this report, with this verdict, queues again. */
  predicate Requeues(cb: Callback, seenAt: int, gate: Option<Gate>) {
    cb.review == Blocked && !HeldFor(cb, seenAt, gate)
  }

  /** A callback that is not blocked, and that this report, with this verdict, blocks. */
  predicate IsGatedBy(cb: Callback, completed: bool, hasText: bool, gate: Option<Gate>) {
    cb.review != Blocked && cb.nextAction == ReplyToOperator && !completed && hasText && gate.Some?
  }

  /**
   * Processing the same report again later, with the same verdict, changes nothing, exactly unless the first time has
   * queued a blocked callback that did not yet say that the report was received, or has blocked one with the verdict
   * that the review must finish, which the second time takes for no reason to stay blocked.
   */
  lemma ReportSeenTwice(j: Job, seenAt: int, completed: bool, hasText: bool, gate: Option<Gate>, now: int, later: int)
    requires Enabled(j, Operate(DoProcessReport(seenAt, completed, hasText, gate), now)) && now < later
    ensures var op := DoProcessReport(seenAt, completed, hasText, gate);
            var once := Next(j, Operate(op, now));
            && Enabled(once, Operate(op, later))
            && (Next(once, Operate(op, later)) == once.(clock := later)
                <==> !(Requeues(Current(j), seenAt, gate) && Current(j).state != ReceivedWorkerCallback)
                     && !(IsGatedBy(Current(j), completed, hasText, gate) && gate.value.mustFinish))
  {
    hide BlockReview, Requeues, IsGatedBy;
    var op := DoProcessReport(seenAt, completed, hasText, gate);
    var once := Next(j, Operate(op, now));
    ReportSettles(Current(j), seenAt, completed, hasText, gate, now, later);
    hide ProcessReport;
    assert Current(once) == ProcessReport(Current(j), seenAt, completed, hasText, gate, now).cb;
    assert once.recs[once.cur.value := Current(once)] == once.recs;
    var twice := Next(once, Operate(op, later));
    assert HasRecord(twice)
           && Current(twice) == ProcessReport(Current(once), seenAt, completed, hasText, gate, later).cb;
  }

  lemma ReportSettles(cb: Callback, seenAt: int, completed: bool, hasText: bool, gate: Option<Gate>, now: int,
                      later: int)
    requires Outstanding(cb) && cb.dispatch == Ready && now < later
    ensures var once := ProcessReport(cb, seenAt, completed, hasText, gate, now).cb;
            && Outstanding(once) && once.dispatch == Ready
            && (ProcessReport(once, seenAt, completed, hasText, gate, later).cb == once
                <==> !(Requeues(cb, seenAt, gate) && cb.state != ReceivedWorkerCallback)
                     && !(IsGatedBy(cb, completed, hasText, gate) && gate.value.mustFinish))
  {
  }
}
