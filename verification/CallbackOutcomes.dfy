/**
 * What the steps of a callback's life leave behind, read off the record: how a callback is closed and that it stays so,
 * how long an attempt may take, what a failure, a cancel, a retry and a closeout's head mean for what comes next.
 */
module CallbackOutcomes {
  import opened Options
  import opened Callbacks
  import opened CallbackPersistence
  import opened CallbackProtocol
  import opened CallbackTiming
  import opened CallbackPromises
  import CallbackHolds
  import CallbackRollback

  // ---------------------------------------------------------------- closed for good

  /** How a callback was closed: with a reply or without, from what, on which report, where, and when. */
  datatype Closing = Closing(
    closeout: CloseoutStatus,
    resolution: Resolution,
    reportAt: Option<int>,
    channel: CloseoutChannel,
    closedAt: Option<int>)

  predicate IsClosedAs(j: Job, how: Closing) {
    HasRecord(j) && var cb := Current(j);
    && cb.state == Closed && !cb.owes && cb.review == Idle
    && how == Closing(cb.closeout, cb.resolution, cb.lastTerminalReportAt, cb.channel, cb.closedAt)
  }

  /** The steps that put another record in the place of a closed one, or none. */
  predicate Reopens(j: Job, step: Step)
    requires Enabled(j, step)
  {
    match step
    case Operate(op, _) =>
      op.DoRegister? || op.DoReserve? || op.DoStop? || op.DoRemove? || (op.DoRollback? && RollbackApplies(j, op.index))
    case Restart(_, _) => true
    case _ => false
  }

  lemma OpStaysClosed(j: Job, op: Op, now: int, how: Closing)
    requires IsClosedAs(j, how) && Enabled(j, Operate(op, now)) && !Reopens(j, Operate(op, now))
    ensures IsClosedAs(Next(j, Operate(op, now)), how)
  {
    hide FreshTime, GuardCurrent, GuardKnown;
    if op.DoRollback? { CallbackRollback.StaleRollbackIsStill(j, op.index, op.guarded, now); }
  }

  lemma StepStaysClosed(j: Job, step: Step, how: Closing)
    requires IsClosedAs(j, how) && Enabled(j, step) && !Reopens(j, step)
    ensures IsClosedAs(Next(j, step), how)
  {
    hide Enabled, Next;
    if step.Operate? {
      hide IsClosedAs, Reopens;
      OpStaysClosed(j, step.op, step.now, how);
    } else {
      CallbackHolds.RunnerPassesBy(j, step);
    }
  }

  predicate NoReopening(j: Job, steps: seq<Step>)
    requires Legal(j, steps)
    decreases |steps|
  {
    steps != [] ==> !Reopens(j, steps[0]) && NoReopening(Next(j, steps[0]), steps[1..])
  }

  /** A closed callback stays closed, as it was closed, and begins no attempt, until another record takes its place. */
  lemma {:induction false} ClosedForGood(j: Job, steps: seq<Step>, how: Closing)
    requires IsClosedAs(j, how) && Legal(j, steps) && NoReopening(j, steps)
    ensures IsClosedAs(Run(j, steps), how) && !BeginTakes(Run(j, steps))
    decreases |steps|
  {
    hide Next, Enabled, Reopens;
    if steps != [] {
      StepStaysClosed(j, steps[0], how);
      ClosedForGood(Next(j, steps[0]), steps[1..], how);
    }
  }

  /**
   * A tool's post finds its callback only if it is owed, and on just the job's work slice if it is bound to one; so
   * does a post that the gate then refuses.
   */
  lemma PostNeedsTheSlice(j: Job, resolution: Resolution, reportAt: Option<int>, postedAt: int, why: string,
                          reason: ReviewReason, now: int)
    ensures Enabled(j, Operate(DoPost(resolution, reportAt, postedAt), now))
            <==> j.clock <= now && IsOutstanding(j)
                 && (Current(j).workSlice == None || (j.scope.Some? && Current(j).workSlice == Some(j.scope.value)))
    ensures Enabled(j, Operate(DoBlock(why, reason, reportAt), now))
            <==> Enabled(j, Operate(DoPost(resolution, reportAt, postedAt), now))
  {
  }

  /** A removal leaves neither a record nor its counters. */
  lemma RemovalLeavesNothing(j: Job, now: int)
    requires j.clock <= now && HasRecord(j)
    ensures SlotOf(Next(j, Operate(DoRemove, now))) == Slot(None, None, None)
  {
  }

  /** The steps that post the reply, each if it finds the record owed. */
  predicate Posts(j: Job, step: Step, resolution: Resolution, reportAt: Option<int>, postedAt: int)
    requires Enabled(j, step)
  {
    match step
    case Operate(op, _) => op == DoPost(resolution, reportAt, postedAt)
    case FinishCloseout(end, _, _) => end == PostDone(resolution, reportAt, postedAt) && Fenced(j, j.turn.ticket.rec)
    case RunLate(_, end, _, _) =>
      j.late[0].Posting? && end == PostDone(resolution, reportAt, postedAt) && Fenced(j, j.late[0].rec)
    case _ => false
  }

  lemma PostCloses(j: Job, step: Step, resolution: Resolution, reportAt: Option<int>, postedAt: int)
    requires Enabled(j, step) && Posts(j, step, resolution, reportAt, postedAt)
    ensures HasRecord(j)
    ensures IsClosedAs(Next(j, step), Closing(Posted, resolution,
                                              if reportAt.Some? then reportAt else Current(j).lastTerminalReportAt,
                                              MainChat, Some(postedAt)))
  {
    hide OnSlice, CloseoutHead, SettleFailure, FallBack, FreshTime;
  }

  /**
   * A posted reply is final: the callback is closed as posted, in the main chat, from the resolution, report and time
   * it was posted with, and over every run in which no other record takes its place it stays so and begins no attempt.
   */
  lemma PostIsFinal(j: Job, step: Step, resolution: Resolution, reportAt: Option<int>, postedAt: int, steps: seq<Step>)
    requires Enabled(j, step) && Posts(j, step, resolution, reportAt, postedAt)
    requires Legal(Next(j, step), steps) && NoReopening(Next(j, step), steps)
    ensures HasRecord(j)
    ensures IsClosedAs(Run(Next(j, step), steps),
                       Closing(Posted, resolution,
                               if reportAt.Some? then reportAt else Current(j).lastTerminalReportAt,
                               MainChat, Some(postedAt)))
    ensures !BeginTakes(Run(Next(j, step), steps))
  {
    hide Legal, Run, NoReopening, Posts, IsClosedAs;
    PostCloses(j, step, resolution, reportAt, postedAt);
    var at := if reportAt.Some? then reportAt else Current(j).lastTerminalReportAt;
    ClosedForGood(Next(j, step), steps, Closing(Posted, resolution, at, MainChat, Some(postedAt)));
  }

  /** The reply is owed and the review queued: what a begin looks for. */
  predicate AwaitsBegin(j: Job) {
    IsOutstanding(j) && Current(j).review == Queued
  }

  /** The record is not bound to another work slice than the job's. */
  predicate SameSlice(j: Job)
    requires HasRecord(j)
  {
    match Current(j).workSlice
    case None => true
    case Some(slice) => j.scope == None || j.scope == Some(slice)
  }

  lemma SliceMeans(j: Job)
    requires HasRecord(j)
    ensures SameSlice(j) <==> OnSlice(Current(j), j.scope)
  {
  }

  /**
   * So is a stop by the operator, also of a job without a record, and the end of a review whose work slice is no longer
   * the job's: no reply is required any more, and none is posted.
   */
  lemma EndWithoutReplyIsFinal(j: Job, step: Step, steps: seq<Step>)
    requires Enabled(j, step)
    requires (step.Operate? && step.op.DoStop?) || (step.BeginNext? && AwaitsBegin(j) && !SameSlice(j))
    requires Legal(Next(j, step), steps) && NoReopening(Next(j, step), steps)
    ensures IsClosedAs(Run(Next(j, step), steps),
                       Closing(NotRequired,
                               if step.BeginNext? then Current(j).resolution else Unresolved,
                               if HasRecord(j) then Current(j).lastTerminalReportAt else None,
                               NoChannel, Some(step.now)))
    ensures !BeginTakes(Run(Next(j, step), steps))
  {
    hide Legal, Run, NoReopening, IsClosedAs;
    var how := Closing(NotRequired, if step.BeginNext? then Current(j).resolution else Unresolved,
                       if HasRecord(j) then Current(j).lastTerminalReportAt else None, NoChannel, Some(step.now));
    assert IsClosedAs(Next(j, step), how) by { EndsWithoutReply(j, step); }
    ClosedForGood(Next(j, step), steps, how);
  }

  lemma EndsWithoutReply(j: Job, step: Step)
    requires Enabled(j, step)
    requires (step.Operate? && step.op.DoStop?) || (step.BeginNext? && AwaitsBegin(j) && !SameSlice(j))
    ensures IsClosedAs(Next(j, step),
                       Closing(NotRequired,
                               if step.BeginNext? then Current(j).resolution else Unresolved,
                               if HasRecord(j) then Current(j).lastTerminalReportAt else None,
                               NoChannel, Some(step.now)))
  {
    if step.BeginNext? { SliceMeans(j); }
    hide FreshTime, OnSlice, SameSlice;
  }

  /** A job that moves to another work slice under a selected review has that review closed without a reply. */
  lemma LeftSliceEndsTheReview(j: Job, other: string, now: int)
    requires Enabled(j, BeginNext(now)) && AwaitsBegin(j)
    requires Current(j).workSlice.Some? && Current(j).workSlice.value != other
    ensures var moved := Next(j, ChangeScope(Some(other)));
            && moved == j.(scope := Some(other)) && Enabled(moved, BeginNext(now))
            && IsClosedAs(Next(moved, BeginNext(now)),
                          Closing(NotRequired, Current(j).resolution, Current(j).lastTerminalReportAt, NoChannel,
                                  Some(now)))
  {
    hide IsClosedAs, OnSlice;
    EndsWithoutReply(Next(j, ChangeScope(Some(other))), BeginNext(now));
  }

  /**
   * A stop leaves nothing of a review open, and no failure counted; what was asked, and for which slice, it leaves as
   * it was, and it makes the record of a job that had none.
   */
  lemma StopLeavesNothingOpen(j: Job, model: string, now: int)
    requires j.clock <= now
    ensures var k := Next(j, Operate(DoStop(model), now));
            && HasRecord(k) && k.fails == None && k.notBefore == None && k.mark == None
            && var cb := Current(k);
               && cb.review == Idle && cb.reason == NoReason && cb.stage == NoStage && cb.startedAt == None
               && cb.deadlineAt == None && cb.nextAttemptAt == None && cb.block == NotBlocked
               && cb.blockedReportAt == None
               && (if HasRecord(j) then
                     PromiseOf(cb) == PromiseOf(Current(j)).(state := Closed, resolution := Unresolved, owes := false,
                                                             closeout := NotRequired, channel := NoChannel,
                                                             closedAt := Some(now))
                     && cb.nextAction == Current(j).nextAction && cb.model == Current(j).model
                     && cb.attempt == Current(j).attempt
                   else
                     cb.threadId == j.threadId && cb.requestedAt == now && cb.operatorRequest == None
                       && cb.steer == None
                     && cb.workSlice == j.scope && cb.nextAction == Review && cb.dispatch == Ready && cb.model == model)
  {
  }

  // ---------------------------------------------------------------- how long an attempt may take

  /**
   * An attempt that begins has two minutes: if it is lost, orphan recovery may take its review from then on and not
   * before. It is one more than the failures counted, and the promise is not touched.
   */
  lemma AttemptHasTwoMinutes(j: Job, begunAt: int, now: int, reportAt: Option<int>)
    requires Enabled(j, BeginNext(begunAt)) && AwaitsBegin(j) && SameSlice(j) && begunAt <= now && !j.active
    ensures var k := Next(j, BeginNext(begunAt));
            && SamePromise(j, k)
            && ReviewOf(Current(k)) == ReviewPart(Running, Current(j).reason, Preparing, Current(j).model,
                                                  j.fails.GetOr(0) + 1, Some(begunAt), Some(begunAt + 120_000), None)
            && Enabled(k, Abandon)
            && (Enabled(Next(k, Abandon), Recover(now, reportAt)) <==> now >= begunAt + 120_000)
  {
    SliceMeans(j);
    hide OnSlice, SameSlice;
  }

  /**
   * Progress of the attempt moves its deadline, if it brings one, and says how far the review is; nothing else changes.
   */
  lemma ProgressMovesTheDeadline(j: Job, stage: ReviewStage, deadline: Option<int>, now: int)
    requires Enabled(j, Operate(DoProgress(stage, deadline), now))
    ensures var k := Next(j, Operate(DoProgress(stage, deadline), now));
            && SamePromise(j, k) && k.fails == j.fails && k.notBefore == j.notBefore
            && ReviewOf(Current(k)) == ReviewOf(Current(j)).(
                 stage := stage, deadlineAt := if deadline.Some? then deadline else Current(j).deadlineAt)
  {
  }

  // ---------------------------------------------------------------- failures, and what clears them

  /** What a failure leaves on the record it is charged to: a wait that doubles, or from the third on a pause. */
  predicate FailureShows(was: Callback, cb: Callback, failures: nat, now: int, reportAt: Option<int>) {
    && PromiseOf(cb) == PromiseOf(was) && cb.attempt == was.attempt && cb.model == was.model && cb.reason == was.reason
    && cb.deadlineAt == None
    && if failures >= 3
       then cb.review == Blocked && cb.stage == BlockedStage && cb.block == AutomationPaused
            && cb.blockedReportAt == reportAt && cb.nextAttemptAt == None
       else cb.review == Queued && cb.stage == RetryWait
            && cb.nextAttemptAt == Some(now + if failures == 1 then 30_000 else 60_000)
  }

  /**
   * A failed attempt, settled in time and still the record's, and a lost one found by orphan recovery, count the same:
   * one failure more; the first lets the review wait thirty seconds, the second sixty, the third pauses it for this
   * report until the operator retries it.
   */
  lemma FailureIsCounted(j: Job, step: Step)
    requires Enabled(j, step)
    requires step.Recover? || (step.RunSettle? && Fenced(j, j.turn.ticket.rec))
    ensures HasRecord(j) && IsOutstanding(j)
    ensures var k := Next(j, step);
            var failures := j.fails.GetOr(0) + 1;
            && HasRecord(k) && k.cur == j.cur && k.fails == Some(failures)
            && FailureShows(Current(j), Current(k), failures, step.now, step.reportAt)
            && k.notBefore == if failures >= 3 then j.notBefore else Current(k).nextAttemptAt
  {
    assert Pow2(0) == 1 && Pow2(1) == 2;
  }

  /**
   * A cancel stops the review of a job, whatever it waited for, on account of the report there is, and clears the
   * failures; a job without an open review is left alone. The promise stays.
   */
  lemma CancelStopsTheReview(j: Job, reportAt: Option<int>, now: int)
    requires j.clock <= now && HasRecord(j)
    ensures var k := Next(j, Operate(DoCancel(reportAt), now));
            if Current(j).review == Running || Current(j).review == Queued
            then SamePromise(j, k) && k.fails == None && k.notBefore == None
                 && Current(k).block == OperatorStopped && Current(k).blockedReportAt == reportAt
                 && ReviewOf(Current(k)) == ReviewOf(Current(j)).(
                      review := Blocked, stage := BlockedStage, startedAt := None, deadlineAt := None,
                      nextAttemptAt := None)
            else SlotOf(k) == SlotOf(j)
  {
  }

  /** The review is queued afresh: nothing is left of the pause, and its reason stays, or is the Worker's report. */
  predicate IsQueuedAfresh(was: Callback, cb: Callback) {
    && PromiseOf(cb) == PromiseOf(was) && cb.block == NotBlocked && cb.blockedReportAt == None
    && cb.nextAction == Review
    && cb.review == Queued && cb.stage == QueuedStage && cb.startedAt == None && cb.deadlineAt == None
    && cb.nextAttemptAt == None && cb.reason == if was.reason == NoReason then WorkerCallback else was.reason
  }

  /** A retry queues a paused review afresh, for the chosen model, from attempt zero; any other review is left alone. */
  lemma RetryStartsAfresh(j: Job, model: string, now: int)
    requires j.clock <= now && HasRecord(j)
    ensures var k := Next(j, Operate(DoRetry(model), now));
            if Current(j).review == Blocked
              && (Current(j).block == AutomationPaused || Current(j).block == OperatorStopped)
            then HasRecord(k) && IsQueuedAfresh(Current(j), Current(k)) && Current(k).model == model
                 && Current(k).attempt == 0 && k.fails == None && k.notBefore == None
            else SlotOf(k) == SlotOf(j)
  {
  }

  /** A reset clears the failures of any record, and queues a review that was paused after its failures afresh. */
  lemma ResetClearsFailures(j: Job, now: int)
    requires j.clock <= now && HasRecord(j)
    ensures var k := Next(j, Operate(DoResetFailures, now));
            && HasRecord(k) && k.fails == None && k.notBefore == None
            && if Current(j).review == Blocked && Current(j).block == AutomationPaused
               then IsQueuedAfresh(Current(j), Current(k)) && Current(k).model == Current(j).model
                    && Current(k).attempt == Current(j).attempt
               else Current(k) == Current(j)
  {
  }

  // ---------------------------------------------------------------- how a closeout begins

  /**
   * The head of a closeout, if it runs, clears the failures and leaves the reply owed. With nothing to post the review
   * is at rest, and a later report starts it again; a gate blocks it for the report it looked at; else it goes on to
   * post, the record as it is.
   */
  lemma CloseoutHeadLeaves(j: Job, start: CloseoutStart, now: int, reportAt: Option<int>)
    requires Enabled(j, StartCloseout(start, now, reportAt)) && Fenced(j, j.turn.ticket.rec) && SameSlice(j)
    ensures HasRecord(j)
    ensures var k := Next(j, StartCloseout(start, now, reportAt));
            && SamePromise(j, k) && IsOutstanding(k) && k.fails == None && k.notBefore == None
            && Current(k).model == Current(j).model && Current(k).attempt == Current(j).attempt
            && match start
               case GoesIdle =>
                 && Current(k).review == Idle && Current(k).stage == NoStage && Current(k).block == NotBlocked
                 && Current(k).blockedReportAt == None && Current(k).startedAt == None && Current(k).deadlineAt == None
                 && Current(k).reason == Current(j).reason && Current(k).nextAction == Current(j).nextAction
                 && k.turn == Unselected
               case IsGated(gate, reason, at) =>
                 && Current(k).review == Blocked && Current(k).stage == BlockedStage && Current(k).block == Gated(gate)
                 && Current(k).blockedReportAt == at && Current(k).reason == reason && Current(k).deadlineAt == None
                 && Current(k).nextAction == Review && k.turn == Unselected
               case StartsPost => Current(k) == Current(j) && k.turn.Racing? && k.turn.ticket.Posting?
  {
    SliceMeans(j);
    hide OnSlice, SameSlice;
  }

  // ---------------------------------------------------------------- the dispatch is noted

  /** Only the record of the request named can be bound to a work slice, and it gets just that. */
  lemma BindingIsForItsRequest(j: Job, requestedAt: int, slice: string, now: int)
    requires HasRecord(j) && j.clock <= now
    ensures Enabled(j, Operate(DoBind(requestedAt, slice), now)) <==> Current(j).requestedAt == requestedAt
    ensures Current(j).requestedAt == requestedAt ==>
              var k := Next(j, Operate(DoBind(requestedAt, slice), now));
              && HasRecord(k) && PromiseOf(Current(k)) == PromiseOf(Current(j)).(workSlice := Some(slice))
              && ReviewOf(Current(k)) == ReviewOf(Current(j)) && k.fails == j.fails && k.notBefore == j.notBefore
  {
  }

  /** Only the record of the request named is marked dispatched, with the accepted turn; another's is left alone. */
  lemma MarkIsForItsRequest(j: Job, requestedAt: int, turn: Option<string>, now: int)
    requires HasRecord(j) && j.clock <= now
    ensures var k := Next(j, Operate(DoMark(requestedAt, turn), now));
            if Current(j).requestedAt == requestedAt
            then HasRecord(k)
                 && PromiseOf(Current(k)) == PromiseOf(Current(j)).(dispatch := Ready, acceptedTurn := turn)
                 && ReviewOf(Current(k)) == ReviewOf(Current(j)) && k.fails == j.fails && k.notBefore == j.notBefore
            else SlotOf(k) == SlotOf(j)
  {
  }

  /** A closeout whose attempt has lost its record, or whose work slice has been left, does nothing. */
  lemma LostCloseoutHeadDoesNothing(j: Job, start: CloseoutStart, now: int, reportAt: Option<int>)
    requires Enabled(j, StartCloseout(start, now, reportAt))
    requires !(Fenced(j, j.turn.ticket.rec) && SameSlice(j))
    ensures var k := Next(j, StartCloseout(start, now, reportAt));
            SlotOf(k) == SlotOf(j) && k.recs == j.recs && k.turn == Unselected
  {
    if HasRecord(j) { SliceMeans(j); }
    hide OnSlice, SameSlice, Fenced;
    FencedHasRecord(j);
  }

  lemma FencedHasRecord(j: Job)
    requires j.turn.Racing?
    ensures Fenced(j, j.turn.ticket.rec) ==> HasRecord(j)
  {
  }

  // ---------------------------------------------------------------- changes are stamped

  /** The record in the map is the same, or has the time of its change for a stamp. */
  predicate IsStamped(j: Job, k: Job, now: int) {
    HasRecord(j) && HasRecord(k) && (Current(k) == Current(j) || Current(k).updatedAt == now)
  }

  lemma SettlementStamps(j: Job, rec: RecordId, now: int, reportAt: Option<int>)
    requires HasRecord(j)
    ensures IsStamped(j, FallBack(j, rec, now, reportAt), now)
            && IsStamped(j, SettleFailure(j, rec, now, reportAt), now)
    ensures rec in j.recs ==> IsStamped(j, Charge(j, rec, now, reportAt), now)
  {
    hide FailedNotBefore, Outstanding;
  }

  lemma CloseoutStamps(j: Job, rec: RecordId, start: CloseoutStart, end: CloseoutEnd, now: int)
    requires HasRecord(j)
    ensures IsStamped(j, CloseoutHead(j, start, now), now) && IsStamped(j, CloseoutTail(j, rec, end, now), now)
  {
    hide Outstanding;
  }

  lemma BeginStamps(j: Job, now: int)
    requires HasRecord(j)
    ensures IsStamped(j, BegunNext(j, now), now)
  {
    hide OnSlice, Outstanding;
  }

  lemma LateStamps(j: Job, start: CloseoutStart, end: CloseoutEnd, now: int, reportAt: Option<int>)
    requires j.late != [] && HasRecord(j)
    ensures IsStamped(j, LateRun(j, start, end, now, reportAt), now)
  {
    hide SettleFailure, CloseoutHead, CloseoutTail, OnSlice, Outstanding;
    var rest := j.(late := j.late[1..]);
    SettlementStamps(rest, j.late[0].rec, now, reportAt);
    CloseoutStamps(rest, j.late[0].rec, start, end, now);
  }

  /** Whether a record is stamped does not depend on the runner's own bookkeeping. */
  lemma StampCarries(j: Job, k: Job, m: Job, now: int)
    requires HasRecord(j) && m.recs == k.recs && m.cur == k.cur && (k == j || IsStamped(j, k, now))
    ensures IsStamped(j, m, now)
  {
  }

  lemma RaceStamps(j: Job, step: Step)
    requires Enabled(j, step) && HasRecord(j)
    requires step.RunSettle? || step.StartCloseout? || step.FinishCloseout? || step.RaceTimesOut?
    ensures IsStamped(j, Stepped(j, step), step.now)
  {
    hide SettleFailure, CloseoutHead, CloseoutTail, FallBack, OnSlice, Outstanding, IsStamped, Fenced;
    var rec := j.turn.ticket.rec;
    SettlementStamps(j, rec, step.now, step.reportAt);
    match step
    case RunSettle(now, reportAt) => StampCarries(j, SettleFailure(j, rec, now, reportAt), Stepped(j, step), now);
    case StartCloseout(start, now, _) =>
      CloseoutStamps(j, rec, start, PostFailed, now);
      StampCarries(j, if CloseoutRuns(j, rec) then CloseoutHead(j, start, now) else j, Stepped(j, step), now);
    case FinishCloseout(end, now, reportAt) =>
      CloseoutStamps(j, rec, GoesIdle, end, now);
      StampCarries(
        j, if end.PostDone? && Fenced(j, rec) then CloseoutTail(j, rec, end, now) else FallBack(j, rec, now, reportAt),
        Stepped(j, step), now);
    case RaceTimesOut(now, reportAt) =>
      StampCarries(j, if j.turn.ticket.Settle? then j else FallBack(j, rec, now, reportAt), Stepped(j, step), now);
  }

  /** What the review runner changes is stamped. */
  lemma RunnerStamps(j: Job, step: Step)
    requires Enabled(j, step) && HasRecord(j) && !step.Operate? && !step.Restart?
    ensures IsStamped(j, Next(j, step), TimeOf(j, step))
  {
    hide SettleFailure, FallBack, Charge, BegunNext, StartedCloseout, FinishedCloseout, TimedOut, LateRun, Outstanding,
         Runnable, IsStamped;
    var k := Stepped(j, step);
    match step {
      case Recover(now, reportAt) => SettlementStamps(j, j.cur.value, now, reportAt);
      case BeginNext(now) => BeginStamps(j, now);
      case RunSettle(now, reportAt) => RaceStamps(j, step);
      case StartCloseout(start, now, _) => RaceStamps(j, step);
      case FinishCloseout(end, now, reportAt) => RaceStamps(j, step);
      case RaceTimesOut(now, reportAt) => RaceStamps(j, step);
      case RunLate(start, end, now, reportAt) => LateStamps(j, start, end, now, reportAt);
      case _ => StampCarries(j, j, k, TimeOf(j, step));
    }
    StampCarries(j, k, Next(j, step), TimeOf(j, step));
  }

  /**
   * A record that changes is stamped with the time of the step that changes it, so that passes take the record that has
   * waited longest first. Only noting a report's time needs no stamp; a rollback and a restart put a record back as it
   * was saved.
   */
  lemma ChangesAreStamped(j: Job, step: Step)
    requires Enabled(j, step) && HasRecord(j) && HasRecord(Next(j, step)) && !step.Restart?
    requires step.Operate? && step.op.DoRollback? ==> !RollbackApplies(j, step.op.index)
    ensures var was, cb := Current(j), Current(Next(j, step));
            cb.updatedAt == TimeOf(j, step) || cb == was.(lastTerminalReportAt := cb.lastTerminalReportAt)
  {
    hide Next, Enabled, TimeOf;
    if step.Operate? {
      OpStamps(j, step.op, step.now);
      OpTime(j, step.op, step.now);
    } else {
      RunnerStamps(j, step);
    }
  }

  lemma OpTime(j: Job, op: Op, now: int)
    ensures TimeOf(j, Operate(op, now)) == now
  {
  }

  lemma OpStamps(j: Job, op: Op, now: int)
    requires Enabled(j, Operate(op, now)) && HasRecord(j) && HasRecord(Next(j, Operate(op, now)))
    requires op.DoRollback? ==> !RollbackApplies(j, op.index)
    ensures var was, cb := Current(j), Current(Next(j, Operate(op, now)));
            cb.updatedAt == now || cb == was.(lastTerminalReportAt := cb.lastTerminalReportAt)
  {
    if op.DoRegister? || op.DoReserve? {
      hide Next, Enabled;
      RegistrationStamps(j, op, now);
    } else {
      hide FreshTime, GuardCurrent, GuardKnown, Outstanding, Register;
      if op.DoRollback? { CallbackRollback.StaleRollbackIsStill(j, op.index, op.guarded, now); }
    }
  }

  lemma RegistrationStamps(j: Job, op: Op, now: int)
    requires (op.DoRegister? || op.DoReserve?) && Enabled(j, Operate(op, now))
    ensures HasRecord(Next(j, Operate(op, now))) && Current(Next(j, Operate(op, now))).updatedAt == now
  {
    hide FreshTime, GuardCurrent, Outstanding;
  }

  // ---------------------------------------------------------------- settlements that come late

  /**
   * A settlement that was not done within its five seconds takes its place behind those that wait already, and the pass
   * goes on; no attempt of the job begins before all of them have run.
   */
  lemma LateSettlementsWaitInLine(j: Job, now: int, reportAt: Option<int>)
    requires Enabled(j, RaceTimesOut(now, reportAt))
    ensures now >= j.turn.endedAt + 5_000
    ensures var k := Next(j, RaceTimesOut(now, reportAt));
            && k.late == j.late + [j.turn.ticket] && k.turn == Unselected && !k.active
            && forall m: Job, begunAt :: m.late != [] ==> !Enabled(m, BeginNext(begunAt))
  {
    hide FallBack;
    FallBackKeepsLate(j, j.turn.ticket.rec, now, reportAt);
  }

  lemma FallBackKeepsLate(j: Job, rec: RecordId, now: int, reportAt: Option<int>)
    ensures FallBack(j, rec, now, reportAt).late == j.late
  {
  }

  // ---------------------------------------------------------------- the service's sweep

  /** The service's sweep charges exactly the reviews that orphan recovery may take here, and in the same way. */
  lemma SweepTakesTheOrphans(j: Job, now: int, reportAt: Option<int>)
    requires j.clock <= now
    ensures Orphaned(SlotOf(j), j.active, now) <==> Enabled(j, Recover(now, reportAt))
    ensures Enabled(j, Recover(now, reportAt)) ==>
              SlotOf(Next(j, Recover(now, reportAt))) == Recovered(SlotOf(j), j.active, now, reportAt)
  {
  }
}
