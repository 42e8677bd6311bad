/**
 * No review stalls: one that runs without an attempt at work is recovered once its deadline has passed, and one that is
 * queued can begin once its wait is over.
 */
module CallbackProgress {
  import opened Options
  import opened Callbacks
  import opened CallbackPersistence
  import opened CallbackProtocol
  import opened CallbackTiming
  import CallbackRollback

  // ---------------------------------------------------------------- deadlines

  predicate HasDeadline(cb: Callback) {
    cb.review == Running ==> cb.deadlineAt.Some?
  }

  predicate SlotHasDeadline(s: Slot) {
    s.cb.Some? ==> HasDeadline(s.cb.value)
  }

  /** Every record that runs, live or saved, has a deadline; a job is active only while its attempt is. */
  ghost predicate Clocked(j: Job) {
    && (forall rec <- j.recs :: HasDeadline(j.recs[rec]))
    && (forall r <- j.reservations :: SlotHasDeadline(r.saved))
    && (j.active ==> j.turn.Attempting? || j.turn.Racing?)
  }

  lemma PutKeepsClock(j: Job, s: Slot, anew: bool, mark: Option<Mark>)
    requires Clocked(j) && SlotHasDeadline(s)
    ensures Clocked(Put(j, s, anew, mark))
  {
  }

  lemma OpSlotHasDeadline(j: Job, op: Op, now: int)
    requires Clocked(j) && OpEnabled(j, op)
    ensures SlotHasDeadline(OpSlot(j, op, now)) && SlotHasDeadline(SlotOf(j))
  {
    if op.DoRollback? {
      assert j.reservations[op.index] in j.reservations;
    }
    hide FreshTime, Outstanding, GuardCurrent, GuardKnown;
  }

  lemma OperateKeepsClock(j: Job, op: Op, now: int)
    requires Clocked(j) && OpEnabled(j, op)
    ensures Clocked(Operated(j, op, now))
  {
    hide OpSlot, OpIsFresh, OpMark, OpEnabled, Put, SlotHasDeadline, HasDeadline;
    OpSlotHasDeadline(j, op, now);
    PutKeepsClock(j, OpSlot(j, op, now), OpIsFresh(j, op), OpMark(j, op));
  }

  lemma ChargeKeepsClock(j: Job, rec: RecordId, now: int, reportAt: Option<int>)
    requires Clocked(j)
    ensures rec in j.recs ==> Clocked(Charge(j, rec, now, reportAt))
    ensures Clocked(FallBack(j, rec, now, reportAt)) && Clocked(SettleFailure(j, rec, now, reportAt))
  {
    hide FailedNotBefore, Outstanding;
  }

  lemma CloseoutKeepsClock(j: Job, rec: RecordId, start: CloseoutStart, end: CloseoutEnd, now: int)
    requires Clocked(j)
    ensures HasRecord(j) ==> Clocked(CloseoutHead(j, start, now))
    ensures Clocked(CloseoutTail(j, rec, end, now))
  {
    hide Put;
    if HasRecord(j) {
      var cb := match start
                case GoesIdle => IdleReview(Current(j), now)
                case IsGated(gate, reason, at) => BlockReview(Current(j), gate, reason, at, now)
                case StartsPost => Current(j);
      PutKeepsClock(j, Slot(Some(cb), None, None), false, None);
      if end.PostDone? {
        var posted := PostedCloseout(Current(j), end.resolution, end.reportAt, end.postedAt, now);
        PutKeepsClock(j, SlotOf(j).(cb := Some(posted)), false, j.mark);
      }
    }
  }

  /** The clocks do not depend on the runner's own bookkeeping. */
  lemma SameClock(j: Job, k: Job)
    requires Clocked(j) && k.recs == j.recs && k.reservations == j.reservations
    requires k.active ==> k.turn.Attempting? || k.turn.Racing?
    ensures Clocked(k)
  {
  }

  lemma BeginNextKeepsClock(j: Job, now: int)
    requires Clocked(j) && j.turn.Selected?
    ensures Clocked(BegunNext(j, now))
  {
    hide Put, OnSlice;
    if BeginSupersedes(j) {
      var s := SlotOf(j).(cb := Some(Supersede(Current(j), now)));
      PutKeepsClock(j, s, false, j.mark);
      PutIsTheSlot(j, s, false, j.mark);
      PutKeepsActive(j, s, false, j.mark);
    }
  }

  lemma PutKeepsActive(j: Job, s: Slot, anew: bool, mark: Option<Mark>)
    ensures Put(j, s, anew, mark).active == j.active
  {
  }

  lemma RaceKeepsClock(j: Job, step: Step)
    requires Clocked(j) && Enabled(j, step)
    requires step.RunSettle? || step.StartCloseout? || step.FinishCloseout? || step.RaceTimesOut?
    ensures Clocked(Stepped(j, step))
  {
    hide SettleFailure, CloseoutHead, CloseoutTail, FallBack, OnSlice, Clocked, Outstanding;
    var rec := j.turn.ticket.rec;
    ChargeKeepsClock(j, rec, step.now, step.reportAt);
    match step
    case RunSettle(now, reportAt) => SameClock(SettleFailure(j, rec, now, reportAt), Stepped(j, step));
    case StartCloseout(start, now, _) =>
      if CloseoutRuns(j, rec) {
        CloseoutKeepsClock(j, rec, start, PostFailed, now);
        SameClock(CloseoutHead(j, start, now), Stepped(j, step));
      } else {
        SameClock(j, Stepped(j, step));
      }
    case FinishCloseout(end, now, reportAt) =>
      CloseoutKeepsClock(j, rec, GoesIdle, end, now);
      SameClock(
        if end.PostDone? && Fenced(j, rec) then CloseoutTail(j, rec, end, now) else FallBack(j, rec, now, reportAt),
        Stepped(j, step));
    case RaceTimesOut(now, reportAt) =>
      SameClock(if j.turn.ticket.Settle? then j else FallBack(j, rec, now, reportAt), Stepped(j, step));
  }

  lemma LateKeepsClock(j: Job, start: CloseoutStart, end: CloseoutEnd, now: int, reportAt: Option<int>)
    requires Clocked(j) && j.late != []
    ensures Clocked(LateRun(j, start, end, now, reportAt))
  {
    hide SettleFailure, CloseoutHead, CloseoutTail, OnSlice, Clocked, Outstanding;
    var rest := j.(late := j.late[1..]);
    assert Clocked(rest) by { LateIsNoClock(j, rest); }
    ChargeKeepsClock(rest, j.late[0].rec, now, reportAt);
    CloseoutKeepsClock(rest, j.late[0].rec, start, end, now);
    if j.late[0].Terminal? && CloseoutRuns(rest, j.late[0].rec) {
      LateIsNoClock(CloseoutHead(rest, start, now),
                    CloseoutHead(rest, start, now).(late := [Posting(j.late[0].rec, j.late[0].id)] + rest.late));
    }
  }

  lemma LateIsNoClock(j: Job, k: Job)
    requires Clocked(j) && k == j.(late := k.late)
    ensures Clocked(k)
  {
  }

  lemma RestartKeepsClock(j: Job, reviewRecorded: bool, now: int)
    ensures Clocked(Reloaded(j, reviewRecorded, now))
  {
    hide Put, MarkFits, Persisted;
    var s := if j.disk.Some? then Restarted(Persisted(j.disk.value), reviewRecorded, now) else Slot(None, None, None);
    var mark := if s.fails.Some? && MarkFits(j.diskMark, s.fails, s.notBefore) then j.diskMark else None;
    assert s.cb.Some? ==> s.cb.value.review != Running;
    PutKeepsClock(Blank(j), s, true, mark);
  }

  lemma StepKeepsClock(j: Job, step: Step)
    requires Clocked(j) && Enabled(j, step)
    ensures Clocked(Next(j, step))
  {
    hide Operated, OpEnabled, BegunNext, Reloaded, LateRun, SettleFailure, StartedCloseout, FinishedCloseout, TimedOut,
         Charge,
         Runnable, HasDeadline, SlotHasDeadline, Outstanding;
    match step
    case Operate(op, now) => OperateKeepsClock(j, op, now);
    case Recover(now, reportAt) => ChargeKeepsClock(j, j.cur.value, now, reportAt);
    case BeginNext(now) => BeginNextKeepsClock(j, now);
    case RunSettle(_, _) => RaceKeepsClock(j, step);
    case StartCloseout(_, _, _) => RaceKeepsClock(j, step);
    case FinishCloseout(_, _, _) => RaceKeepsClock(j, step);
    case RaceTimesOut(_, _) => RaceKeepsClock(j, step);
    case RunLate(start, end, now, reportAt) => LateKeepsClock(j, start, end, now, reportAt);
    case Restart(reviewRecorded, now) => RestartKeepsClock(j, reviewRecorded, now);
    case _ =>
  }

  lemma {:induction false} RunKeepsClock(j: Job, steps: seq<Step>)
    requires Clocked(j) && Legal(j, steps)
    ensures Clocked(Run(j, steps))
    decreases |steps|
  {
    hide Clocked, Next, Enabled;
    if steps != [] {
      StepKeepsClock(j, steps[0]);
      RunKeepsClock(Next(j, steps[0]), steps[1..]);
    }
  }

  // ---------------------------------------------------------------- theorems

  function Later(a: int, b: int): int {
    if a <= b then b else a
  }

  /**
   * A review that runs while no attempt is at work on it can be recovered from its deadline on, and then no longer
   * runs.
   */
  lemma AbandonedReviewIsRecovered(threadId: ThreadId, clock: int, scope: Option<string>, steps: seq<Step>,
                                   reportAt: Option<int>) returns (due: int)
    requires Legal(Init(threadId, clock, scope), steps)
    requires var j := Run(Init(threadId, clock, scope), steps);
             IsOutstanding(j) && IsRunning(j) && !j.turn.Attempting? && !j.turn.Racing?
    ensures var j := Run(Init(threadId, clock, scope), steps);
            && due >= j.clock && Current(j).deadlineAt.Some? && due == Later(j.clock, Current(j).deadlineAt.value)
            && forall now :: due <= now ==> Enabled(j, Recover(now, reportAt)) && Recovers(j, now, reportAt)
  {
    hide Legal, Run;
    var init := Init(threadId, clock, scope);
    RunKeepsClock(init, steps);
    var j := Run(init, steps);
    assert HasDeadline(Current(j));
    due := Later(j.clock, Current(j).deadlineAt.value);
    forall now | due <= now ensures Enabled(j, Recover(now, reportAt)) && Recovers(j, now, reportAt) {
      RecoveryEndsTheReview(j, now, reportAt);
    }
  }

  /**
   * After the recovery the reply is still owed, and the review waits to retry or stands paused after its third failure.
   */
  predicate Recovers(j: Job, now: int, reportAt: Option<int>)
    requires Enabled(j, Recover(now, reportAt))
  {
    var k := Next(j, Recover(now, reportAt));
    && IsOutstanding(k)
    && k.fails == Some(j.fails.GetOr(0) + 1)
    && if j.fails.GetOr(0) >= 2 then AutomationPause(Current(k), Some(reportAt))
       else InRetryWait(Current(k)) && k.notBefore == Some(now + Backoff(j.fails.GetOr(0) + 1))
  }

  lemma RecoveryEndsTheReview(j: Job, now: int, reportAt: Option<int>)
    requires Enabled(j, Recover(now, reportAt))
    ensures Recovers(j, now, reportAt)
  {
  }

  /**
   * A queued review whose request has been dispatched, in no pass's hands and with nothing before it in the job's lock,
   * can be selected and begun as soon as its wait is over: then an attempt runs, unless the job has moved to a newer
   * work slice, in which case the callback is closed.
   */
  lemma WaitingReviewCanBegin(j: Job, now: int)
    requires IsOutstanding(j) && Current(j).dispatch == Ready && Current(j).review == Queued && j.turn == Unselected
             && j.late == []
    requires 0 <= now && j.clock <= now && j.notBefore.GetOr(0) <= now
    ensures var steps := [Select(now, now), BeginNext(now)];
            && Legal(j, steps)
            && var k := Run(j, steps);
               if OnSlice(Current(j), j.scope)
                 then k.turn.Begun? && Fenced(k, k.turn.rec) && Current(k).attempt == j.fails.GetOr(0) + 1
               else HasRecord(k) && Current(k).state == Closed && !Current(k).owes
  {
    CallbackRollback.TwoSteps(j, Select(now, now), BeginNext(now));
    hide OnSlice, Legal, Run;
  }

  /**
   * A reservation whose sender never reports back does not hold the callback for ever: it is released when the
   * request's marker shows up in the thread, or five minutes after the request, and by nothing else that the thread
   * shows. The turn that carries the marker is noted as the accepted one, unless one was accepted already and nothing
   * was reserved.
   */
  lemma ReservationIsReleased(j: Job, found: Option<string>, now: int)
    requires IsOutstanding(j) && j.clock <= now
    ensures var step := Operate(DoReconcileDispatch(found), now);
            && Enabled(j, step)
            && IsOutstanding(Next(j, step))
            && (Current(Next(j, step)).dispatch == Ready
                <==> Current(j).dispatch == Ready || found.Some? || now >= Current(j).requestedAt + 300_000)
            && Current(Next(j, step)).acceptedTurn
               == (if found.Some? && (Current(j).acceptedTurn == None || Current(j).dispatch == Reserving) then found
                   else Current(j).acceptedTurn)
            && Current(Next(j, step)).review == Current(j).review && Next(j, step).fails == j.fails
            && Next(j, step).notBefore == j.notBefore
  {
  }

  /** An attempt runs, the review stands paused, or the callback is closed. */
  predicate Resolved(j: Job) {
    HasRecord(j) && ((j.turn.Begun? && Fenced(j, j.turn.rec)) || AutomationPause(Current(j), None)
                     || Current(j).state == Closed)
  }

  /**
   * Together: from every reachable state in which an owed, dispatched review is queued or running in nobody's hands, a
   * few steps of the runner lead to an attempt, to a pause that only the operator ends, or to a closed callback.
   */
  lemma NoReviewStalls(threadId: ThreadId, clock: int, scope: Option<string>, steps: seq<Step>)
      returns (more: seq<Step>)
    requires Legal(Init(threadId, clock, scope), steps)
    requires var j := Run(Init(threadId, clock, scope), steps);
             && IsOutstanding(j) && Current(j).dispatch == Ready && (Current(j).review == Queued || IsRunning(j))
             && j.turn == Unselected && j.late == []
    ensures |more| <= 3 && Legal(Run(Init(threadId, clock, scope), steps), more)
    ensures forall step <- more :: step.Recover? || step.Select? || step.BeginNext?
    ensures Resolved(Run(Run(Init(threadId, clock, scope), steps), more))
  {
    hide Legal, Run, Next, Enabled, OnSlice, Recovers;
    var j := Run(Init(threadId, clock, scope), steps);
    if IsRunning(j) {
      var due := AbandonedReviewIsRecovered(threadId, clock, scope, steps, None);
      assert Enabled(j, Recover(due, None)) && Recovers(j, due, None);
      more := FromRecovery(j, due);
    } else {
      var at := Later(Later(j.clock, 0), j.notBefore.GetOr(0));
      WaitingReviewCanBegin(j, at);
      more := [Select(at, at), BeginNext(at)];
    }
  }

  lemma FromRecovery(j: Job, due: int) returns (more: seq<Step>)
    requires Enabled(j, Recover(due, None)) && Recovers(j, due, None) && j.turn == Unselected && j.late == []
             && Current(j).dispatch == Ready
    ensures |more| <= 3 && Legal(j, more)
    ensures forall step <- more :: step.Recover? || step.Select? || step.BeginNext?
    ensures Resolved(Run(j, more))
  {
    hide OnSlice, Legal, Run, Enabled;
    var k := Next(j, Recover(due, None));
    assert k.turn == Unselected && k.late == [] && k.clock == due && Current(k).dispatch == Ready;
    if j.fails.GetOr(0) >= 2 {
      more := [Recover(due, None)];
      CallbackRollback.OneStep(j, Recover(due, None));
    } else {
      var at := Later(Later(due, 0), k.notBefore.GetOr(0));
      hide Next, Recovers;
      WaitingReviewCanBegin(k, at);
      more := [Recover(due, None)] + [Select(at, at), BeginNext(at)];
      StepThen(j, Recover(due, None), [Select(at, at), BeginNext(at)]);
    }
  }

  lemma StepThen(j: Job, step: Step, more: seq<Step>)
    requires Enabled(j, step) && Legal(Next(j, step), more)
    ensures Legal(j, [step] + more) && Run(j, [step] + more) == Run(Next(j, step), more)
  {
    hide Enabled, Next;
    assert ([step] + more)[1..] == more;
  }
}
