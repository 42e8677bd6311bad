/** Reservations and their rollbacks, and what a reload gives back of the retry counters. */
module CallbackRollback {
  import opened Options
  import opened Callbacks
  import opened CallbackPersistence
  import opened CallbackProtocol
  import opened CallbackSafety
  import opened CallbackTiming

  // ---------------------------------------------------------------- rollback undoes its reservation

  predicate NoRestart(steps: seq<Step>) {
    forall step <- steps :: !step.Restart?
  }

  /** The reservation log and the state file are the same. */
  predicate SameNotes(j: Job, k: Job) {
    k.reservations == j.reservations && k.disk == j.disk
  }

  lemma RunnerKeepsNotes(j: Job, rec: RecordId, start: CloseoutStart, end: CloseoutEnd, now: int, reportAt: Option<int>)
    ensures SameNotes(j, FallBack(j, rec, now, reportAt)) && SameNotes(j, SettleFailure(j, rec, now, reportAt))
    ensures HasRecord(j) ==> SameNotes(j, CloseoutHead(j, start, now)) && SameNotes(j, Begin(j, now))
    ensures SameNotes(j, CloseoutTail(j, rec, end, now))
  {
    hide FailAttempt, FailedNotBefore, BeginAttempt, IdleReview, BlockReview, PostedCloseout, Outstanding;
  }

  lemma PutKeepsNotes(j: Job, s: Slot, anew: bool, mark: Option<Mark>)
    ensures SameNotes(j, Put(j, s, anew, mark))
  {
  }

  lemma LateKeepsNotes(j: Job, start: CloseoutStart, end: CloseoutEnd, now: int, reportAt: Option<int>)
    requires j.late != []
    ensures SameNotes(j, LateRun(j, start, end, now, reportAt))
  {
    hide OnSlice, SettleFailure, CloseoutHead, CloseoutTail;
    RunnerKeepsNotes(j.(late := j.late[1..]), j.late[0].rec, start, end, now, reportAt);
  }

  lemma RaceKeepsNotes(j: Job, step: Step)
    requires Enabled(j, step)
    requires step.RunSettle? || step.StartCloseout? || step.FinishCloseout? || step.RaceTimesOut?
    ensures SameNotes(j, Stepped(j, step))
  {
    hide OnSlice, SettleFailure, CloseoutHead, CloseoutTail, FallBack, Outstanding;
    var start := if step.StartCloseout? then step.start else GoesIdle;
    var end := if step.FinishCloseout? then step.end else PostFailed;
    RunnerKeepsNotes(j, j.turn.ticket.rec, start, end, step.now, step.reportAt);
  }

  /** Only reservations extend the log, and only a save writes the state file. */
  lemma RunnerStepKeepsNotes(j: Job, step: Step)
    requires Enabled(j, step) && !step.Operate? && !step.Restart? && !step.Save?
    ensures SameNotes(j, Stepped(j, step))
  {
    hide Runnable, Fenced, OnSlice, Outstanding, FallBack, Begin, Put, Charge, LateRun, FinishedCloseout,
         StartedCloseout, SettleFailure, TimedOut;
    match step
    case Recover(now, reportAt) =>
      RunnerKeepsNotes(j, j.cur.value, GoesIdle, PostFailed, now, reportAt);
      ChargeIsFallBack(j, now, reportAt);
    case BeginNext(now) =>
      RunnerKeepsNotes(j, 0, GoesIdle, PostFailed, now, None);
      if BeginSupersedes(j) {
        PutKeepsNotes(j, SlotOf(j).(cb := Some(Supersede(Current(j), now))), false, j.mark);
      }
    case RunSettle(_, _) => RaceKeepsNotes(j, step);
    case StartCloseout(_, _, _) => RaceKeepsNotes(j, step);
    case FinishCloseout(_, _, _) => RaceKeepsNotes(j, step);
    case RaceTimesOut(_, _) => RaceKeepsNotes(j, step);
    case RunLate(start, end, now, reportAt) => LateKeepsNotes(j, start, end, now, reportAt);
    case _ =>
  }

  lemma ChargeIsFallBack(j: Job, now: int, reportAt: Option<int>)
    requires IsRunning(j)
    ensures Charge(j, j.cur.value, now, reportAt) == FallBack(j, j.cur.value, now, reportAt)
  {
  }

  lemma StepKeepsReservations(j: Job, step: Step)
    requires Enabled(j, step) && !step.Restart?
    ensures j.reservations <= Next(j, step).reservations
  {
    if step.Operate? {
      OperatedIsTheSlot(j, step.op, step.now);
    } else if !step.Save? {
      RunnerStepKeepsNotes(j, step);
    }
    hide Operated, OpEnabled, OpMark, OpSlot, Runnable, Reloaded, Charge, BegunNext, FinishedCloseout, StartedCloseout,
         SettleFailure, TimedOut, LateRun;
  }

  lemma {:induction false} ReservationsOnlyGrow(j: Job, steps: seq<Step>)
    requires Legal(j, steps) && NoRestart(steps)
    ensures j.reservations <= Run(j, steps).reservations
    decreases |steps|
  {
    hide Next, Enabled;
    if steps != [] {
      assert steps[0] in steps && forall step <- steps[1..] :: step in steps;
      StepKeepsReservations(j, steps[0]);
      ReservationsOnlyGrow(Next(j, steps[0]), steps[1..]);
    }
  }

  /** The slot a rollback puts back: the saved one, except that a cancelled running review comes back queued. */
  function PutBack(saved: Slot, guardCurrent: bool, now: int): Slot {
    if saved.cb.Some? && saved.cb.value.review == Running && !guardCurrent
    then saved.(cb := Some(saved.cb.value.(review := Queued, stage := QueuedStage, updatedAt := now)))
    else saved
  }

  /**
   * A reservation, then anything at all short of a restart, then its rollback: the record, the failure
   * count and the not-before time are those from before the reservation, provided the reservation's
   * request is still the record's; otherwise the rollback changes nothing.
   */
  lemma RollbackUndoesReservation(j: Job, reg: Registration, guarded: bool, reservedAt: int, steps: seq<Step>,
                                  underGuard: bool, now: int)
    requires Enabled(j, Operate(DoReserve(reg, guarded), reservedAt)) && NoRestart(steps)
    requires Legal(Next(j, Operate(DoReserve(reg, guarded), reservedAt)), steps)
    requires var k := Run(Next(j, Operate(DoReserve(reg, guarded), reservedAt)), steps);
             Enabled(k, Operate(DoRollback(|j.reservations|, underGuard), now))
    ensures var k := Run(Next(j, Operate(DoReserve(reg, guarded), reservedAt)), steps);
            var back := Next(k, Operate(DoRollback(|j.reservations|, underGuard), now));
            if HasRecord(k) && Current(k).requestedAt == reg.requestedAt
            then SlotOf(back) == PutBack(SlotOf(j), underGuard && GuardKnown(k), now)
            else SlotOf(back) == SlotOf(k) && back.recs == k.recs && (HasRecord(k) ==> back.cur == k.cur)
  {
    hide Operated, OpMark, GuardCurrent, GuardKnown, Legal, Run;
    var reserve := DoReserve(reg, guarded);
    OperatedIsTheSlot(j, reserve, reservedAt);
    var reserved := Next(j, Operate(reserve, reservedAt));
    ReservationsOnlyGrow(reserved, steps);
    var k := Run(reserved, steps);
    assert k.reservations[|j.reservations|] == reserved.reservations[|j.reservations|];
    OperatedIsTheSlot(k, DoRollback(|j.reservations|, underGuard), now);
    StaleRollbackIsIdle(k, |j.reservations|, underGuard, now);
  }

  lemma StaleRollbackIsIdle(j: Job, index: nat, guarded: bool, now: int)
    requires index < |j.reservations|
    ensures !RollbackApplies(j, index) ==> Operated(j, DoRollback(index, guarded), now).recs == j.recs
    ensures !RollbackApplies(j, index) && (j.cur.Some? ==> HasRecord(j))
            ==> Operated(j, DoRollback(index, guarded), now).cur == j.cur
    ensures !RollbackApplies(j, index) && !HasRecord(j) ==> Operated(j, DoRollback(index, guarded), now).cur == None
  {
    hide GuardCurrent, GuardKnown, RestoredCallback;
  }

  /**
   * Once a newer registration is installed, and for as long as the record is that registration's, the rollback of any
   * older reservation changes nothing, whatever has happened since short of a restart.
   */
  lemma NewerRegistrationShieldsOlder(j: Job, op: Op, installedAt: int, steps: seq<Step>, index: nat, guarded: bool,
                                      now: int)
    requires op.DoRegister? || op.DoReserve?
    requires Enabled(j, Operate(op, installedAt)) && index < |j.reservations|
    requires Legal(Next(j, Operate(op, installedAt)), steps) && NoRestart(steps)
    requires var k := Run(Next(j, Operate(op, installedAt)), steps);
             HasRecord(k) && Current(k).requestedAt == op.reg.requestedAt && k.clock <= now
    ensures var k := Run(Next(j, Operate(op, installedAt)), steps);
            && Enabled(k, Operate(DoRollback(index, guarded), now))
            && Next(k, Operate(DoRollback(index, guarded), now)) == k.(clock := now)
  {
    hide OpMark, GuardCurrent, GuardKnown, Legal, Run, RestoredCallback, OpIsFresh, Operated;
    OperatedIsTheSlot(j, op, installedAt);
    var installed := Next(j, Operate(op, installedAt));
    ReservationsOnlyGrow(installed, steps);
    var k := Run(installed, steps);
    assert k.reservations[index] == installed.reservations[index] == j.reservations[index];
    StaleRollbackIsStill(k, index, guarded, now);
  }

  /** A newer registration holds the record from its first moment on. */
  lemma RegistrationTakesTheRecord(j: Job, op: Op, installedAt: int)
    requires op.DoRegister? || op.DoReserve?
    requires Enabled(j, Operate(op, installedAt))
    ensures var k := Next(j, Operate(op, installedAt)); HasRecord(k) && Current(k).requestedAt == op.reg.requestedAt
  {
    hide OpMark, GuardCurrent, GuardKnown, OpIsFresh, Operated;
    OperatedIsTheSlot(j, op, installedAt);
    assert SlotOf(Next(j, Operate(op, installedAt))) == OpSlot(j, op, installedAt);
  }

  lemma StaleRollbackIsStill(j: Job, index: nat, guarded: bool, now: int)
    requires index < |j.reservations| && HasRecord(j) && !RollbackApplies(j, index)
    ensures Operated(j, DoRollback(index, guarded), now) == j
  {
    hide GuardCurrent, GuardKnown, RestoredCallback;
    assert j.recs[j.cur.value := j.recs[j.cur.value]] == j.recs;
  }

  // ---------------------------------------------------------------- retry counters across a reload

  /**
   * The attempt number, the announced next attempt and the counters agree: a running attempt is one past
   * the failures counted, and a record waiting to retry announces what the counters say.
   */
  predicate RetryAgrees(s: Slot) {
    s.cb.Some? ==>
      && (s.cb.value.stage == RetryWait ==> s.cb.value.review == Queued)
      && (s.cb.value.review == Running ==> s.cb.value.attempt == s.fails.GetOr(0) + 1)
      && (InRetryWait(s.cb.value) ==>
            s.cb.value.attempt >= 1 && s.fails == Some(s.cb.value.attempt) && s.notBefore == s.cb.value.nextAttemptAt)
  }

  ghost predicate RetrySound(j: Job) {
    && RetryAgrees(SlotOf(j))
    && (forall r <- j.reservations :: RetryAgrees(r.saved))
    && (j.disk.Some? ==> (InRetryWait(j.disk.value) ==> j.disk.value.attempt >= 1))
  }

  /** The operations that part the record from the counters, each with its guard. */
  predicate OpUndisturbed(j: Job, op: Op)
    requires OpEnabled(j, op)
  {
    match op
    case DoReserve(_, guarded) => KeepsRunning(SlotOf(j).cb, guarded) ==> j.fails.GetOr(0) == 0
    case DoResetFailures =>
      HasRecord(j) ==> !InRetryWait(Current(j)) && (Current(j).review == Running ==> j.fails.GetOr(0) == 0)
    case _ => true
  }

  /** A fallback for `rec` counts a failure although the job's record is another one, which runs or waits to retry. */
  predicate FallsOnStranger(j: Job, rec: RecordId) {
    && rec in j.recs && j.recs[rec].review == Running && j.cur != Some(rec)
    && HasRecord(j) && (Current(j).review == Running || InRetryWait(Current(j)))
  }

  predicate Undisturbed(j: Job, step: Step)
    requires Enabled(j, step)
  {
    match step
    case Operate(op, _) => OpUndisturbed(j, op)
    case StartCloseout(start, _, _) => CloseoutRuns(j, j.turn.ticket.rec) && start.StartsPost? ==> j.fails.GetOr(0) == 0
    case FinishCloseout(_, _, _) => !FallsOnStranger(j, j.turn.ticket.rec)
    case RaceTimesOut(_, _) => j.turn.ticket.Settle? || !FallsOnStranger(j, j.turn.ticket.rec)
    case _ => true
  }

  lemma OpKeepsRetry(j: Job, op: Op, now: int)
    requires RetrySound(j) && OpEnabled(j, op)
    ensures RetryAgrees(OpSlot(j, op, now)) <==> OpUndisturbed(j, op)
  {
    if op.DoRollback? {
      var r := j.reservations[op.index];
      assert r in j.reservations;
    }
    hide FreshTime, GuardCurrent, GuardKnown, Outstanding;
  }

  lemma SlotKeepsRetry(j: Job, k: Job)
    requires RetrySound(j) && RetryAgrees(SlotOf(k))
    requires k.reservations == j.reservations && (k.disk == j.disk || k.disk == SlotOf(j).cb)
    ensures RetrySound(k)
  {
  }

  lemma OperateKeepsRetry(j: Job, op: Op, now: int)
    requires RetrySound(j) && OpEnabled(j, op)
    ensures RetrySound(Operated(j, op, now).(clock := now)) <==> OpUndisturbed(j, op)
  {
    OpKeepsRetry(j, op, now);
    OperatedIsTheSlot(j, op, now);
    hide OpSlot, OpEnabled, OpMark, RetryAgrees, OpIsFresh, Put, OpUndisturbed;
    var after := Operated(j, op, now).(clock := now);
    assert SlotOf(after) == OpSlot(j, op, now) && after.disk == j.disk;
  }

  lemma ChargeKeepsRetry(j: Job, now: int, reportAt: Option<int>)
    requires RetrySound(j) && IsRunning(j)
    ensures RetryAgrees(SlotOf(Charge(j, j.cur.value, now, reportAt)))
  {
  }

  lemma CloseoutHeadKeepsRetry(j: Job, start: CloseoutStart, now: int)
    requires HasRecord(j) && (start.StartsPost? ==> IsRunning(j) && RetrySound(j) && j.fails.GetOr(0) == 0)
    ensures RetryAgrees(SlotOf(CloseoutHead(j, start, now)))
  {
    var cb := match start
              case GoesIdle => IdleReview(Current(j), now)
              case IsGated(gate, reason, at) => BlockReview(Current(j), gate, reason, at, now)
              case StartsPost => Current(j);
    PutIsTheSlot(j, Slot(Some(cb), None, None), false, None);
    hide Put;
  }

  lemma CloseoutTailKeepsRetry(j: Job, rec: RecordId, end: CloseoutEnd, now: int)
    requires RetrySound(j)
    ensures RetryAgrees(SlotOf(CloseoutTail(j, rec, end, now)))
  {
    if end.PostDone? && Fenced(j, rec) {
      PutIsTheSlot(j,
                   SlotOf(j).(cb := Some(PostedCloseout(Current(j), end.resolution, end.reportAt, end.postedAt, now))),
                   false, j.mark);
    }
    hide Put;
  }

  lemma FallBackKeepsRetry(j: Job, rec: RecordId, now: int, reportAt: Option<int>)
    requires RetrySound(j)
    ensures RetryAgrees(SlotOf(SettleFailure(j, rec, now, reportAt)))
    ensures RetryAgrees(SlotOf(FallBack(j, rec, now, reportAt))) <==> !FallsOnStranger(j, rec)
  {
    if j.cur == Some(rec) && IsRunning(j) {
      ChargeKeepsRetry(j, now, reportAt);
    } else if rec in j.recs && j.recs[rec].review == Running {
      StrangerIsCharged(j, rec, now, reportAt);
    }
    hide Charge;
  }

  lemma StrangerIsCharged(j: Job, rec: RecordId, now: int, reportAt: Option<int>)
    requires RetrySound(j) && rec in j.recs && j.cur != Some(rec)
    ensures RetryAgrees(SlotOf(Charge(j, rec, now, reportAt)))
            <==> !HasRecord(j) || !(IsRunning(j) || InRetryWait(Current(j)))
    ensures HasRecord(j) ==>
            HasRecord(Charge(j, rec, now, reportAt))
            && Current(Charge(j, rec, now, reportAt)) == Current(j)
    ensures Charge(j, rec, now, reportAt).fails == Some(FailedCount(j.fails))
            && Charge(j, rec, now, reportAt).cur == j.cur
  {
    hide FailAttempt, FailedNotBefore;
  }

  lemma BeginNextKeepsRetry(j: Job, now: int)
    requires RetrySound(j)
    ensures RetryAgrees(SlotOf(BegunNext(j, now)))
  {
    if BeginSupersedes(j) {
      PutIsTheSlot(j, SlotOf(j).(cb := Some(Supersede(Current(j), now))), false, j.mark);
    }
    hide Put, OnSlice;
  }

  lemma RestartKeepsRetry(j: Job, reviewRecorded: bool, now: int)
    requires RetrySound(j)
    ensures RetrySound(Reloaded(j, reviewRecorded, now))
  {
    var s := if j.disk.Some? then Restarted(Persisted(j.disk.value), reviewRecorded, now) else Slot(None, None, None);
    assert RetryAgrees(s);
    hide MarkFits, Persisted, Restarted, Put, RetryAgrees;
    var mark := if s.fails.Some? && MarkFits(j.diskMark, s.fails, s.notBefore) then j.diskMark else None;
    PutIsTheSlot(Blank(j), s, true, mark);
    PutKeepsDisk(Blank(j), s, mark);
  }

  lemma PutKeepsDisk(j: Job, s: Slot, mark: Option<Mark>)
    ensures Put(j, s, true, mark).disk == j.disk
  {
  }

  lemma LateKeepsRetry(j: Job, start: CloseoutStart, end: CloseoutEnd, now: int, reportAt: Option<int>)
    requires RetrySound(j) && AttemptsSound(j) && LateIsSpent(j.recs, j.late)
             && Enabled(j, RunLate(start, end, now, reportAt))
    ensures RetryAgrees(SlotOf(LateRun(j, start, end, now, reportAt)))
  {
    hide RetryAgrees, AttemptsSound, LateIsSpent, SettleFailure, CloseoutHead, CloseoutTail, OnSlice;
    SpentRunsIdle(j, RunLate(start, end, now, reportAt));
    var rest := j.(late := j.late[1..]);
    assert SlotOf(rest) == SlotOf(j);
    SlotKeepsRetry(j, rest);
    if j.late[0].Settle? {
      FallBackKeepsRetry(rest, j.late[0].rec, now, reportAt);
    } else {
      assert SlotOf(LateRun(j, start, end, now, reportAt)) == SlotOf(rest);
      SlotAgrees(j);
    }
  }

  lemma CloseoutHeadClears(j: Job, now: int)
    requires RetrySound(j) && IsRunning(j)
    ensures RetryAgrees(SlotOf(CloseoutHead(j, StartsPost, now))) <==> j.fails.GetOr(0) == 0
    ensures SlotOf(CloseoutHead(j, StartsPost, now)) == Slot(Some(Current(j)), None, None)
  {
    PutIsTheSlot(j, Slot(Some(Current(j)), None, None), false, None);
    hide Put;
  }

  lemma RaceKeepsRetry(j: Job, step: Step)
    requires RetrySound(j) && Enabled(j, step)
    requires step.RunSettle? || step.StartCloseout? || step.FinishCloseout? || step.RaceTimesOut?
    ensures RetryAgrees(SlotOf(Stepped(j, step))) <==> Undisturbed(j, step)
  {
    hide RetrySound, RetryAgrees, SettleFailure, CloseoutHead, CloseoutTail, FallBack, OnSlice, FallsOnStranger;
    assert RetryAgrees(SlotOf(j)) by { SlotAgrees(j); }
    var rec := j.turn.ticket.rec;
    FallBackKeepsRetry(j, rec, step.now, step.reportAt);
    match step
    case RunSettle(now, reportAt) => assert SlotOf(Stepped(j, step)) == SlotOf(SettleFailure(j, rec, now, reportAt));
    case StartCloseout(start, now, _) =>
      if CloseoutRuns(j, rec) {
        if start.StartsPost? { CloseoutHeadClears(j, now); } else { CloseoutHeadKeepsRetry(j, start, now); }
        assert SlotOf(Stepped(j, step)) == SlotOf(CloseoutHead(j, start, now));
      } else {
        assert SlotOf(Stepped(j, step)) == SlotOf(j);
      }
    case FinishCloseout(end, now, reportAt) =>
      CloseoutTailKeepsRetry(j, rec, end, now);
      if end.PostDone? && Fenced(j, rec) {
        assert SlotOf(Stepped(j, step)) == SlotOf(CloseoutTail(j, rec, end, now));
        assert !FallsOnStranger(j, rec) by { FencedIsNoStranger(j, rec); }
      } else {
        assert SlotOf(Stepped(j, step)) == SlotOf(FallBack(j, rec, now, reportAt));
      }
    case RaceTimesOut(now, reportAt) =>
      assert SlotOf(Stepped(j, step)) == SlotOf(if j.turn.ticket.Settle? then j else FallBack(j, rec, now, reportAt));
  }

  lemma FencedIsNoStranger(j: Job, rec: RecordId)
    requires Fenced(j, rec)
    ensures !FallsOnStranger(j, rec)
  {
  }

  lemma SlotAgrees(j: Job)
    requires RetrySound(j)
    ensures RetryAgrees(SlotOf(j))
  {
  }

  /** A step keeps the record and the counters in agreement exactly when it is undisturbed. */
  lemma StepKeepsRetry(j: Job, step: Step)
    requires RetrySound(j) && AttemptsSound(j) && LateIsSpent(j.recs, j.late) && Enabled(j, step)
    ensures RetrySound(Next(j, step)) <==> Undisturbed(j, step)
  {
    hide RetrySound, RetryAgrees, AttemptsSound, LateIsSpent, Operated, OpEnabled, OpUndisturbed, Reloaded, LateRun,
         SettleFailure,
         StartedCloseout, FinishedCloseout, TimedOut, BegunNext, Charge, Runnable, CloseoutRuns, FallsOnStranger;
    SlotAgrees(j);
    match step {
      case Operate(op, now) => OperateKeepsRetry(j, op, now);
      case Recover(now, reportAt) => ChargeKeepsRetry(j, now, reportAt);
      case BeginNext(now) => BeginNextKeepsRetry(j, now);
      case RunSettle(_, _) => RaceKeepsRetry(j, step);
      case StartCloseout(_, _, _) => RaceKeepsRetry(j, step);
      case FinishCloseout(_, _, _) => RaceKeepsRetry(j, step);
      case RaceTimesOut(_, _) => RaceKeepsRetry(j, step);
      case RunLate(start, end, now, reportAt) => LateKeepsRetry(j, start, end, now, reportAt);
      case Restart(reviewRecorded, now) =>
        RestartKeepsRetry(j, reviewRecorded, now);
        var k := Stepped(j, step);
        assert SlotOf(Next(j, step)) == SlotOf(k);
        SlotAgrees(k);
        SlotKeepsRetry(k, Next(j, step));
      case _ => assert SlotOf(Stepped(j, step)) == SlotOf(j);
    }
    if !step.Operate? && !step.Restart? {
      RunnerStepKeepsRetry(j, step);
    }
  }

  lemma RunnerStepKeepsRetry(j: Job, step: Step)
    requires RetrySound(j) && Enabled(j, step) && !step.Operate? && !step.Restart?
    ensures RetrySound(Next(j, step)) <==> RetryAgrees(SlotOf(Stepped(j, step)))
  {
    hide RetrySound, RetryAgrees, Enabled, TimeOf, Operated, Charge, BegunNext, Reloaded, LateRun, SettleFailure,
         StartedCloseout,
         FinishedCloseout, TimedOut;
    var k := Next(j, step);
    assert SlotOf(k) == SlotOf(Stepped(j, step));
    if !step.Save? {
      RunnerStepKeepsNotes(j, step);
    }
    if RetryAgrees(SlotOf(k)) { SlotKeepsRetry(j, k); } else if RetrySound(k) { SlotAgrees(k); }
  }

  predicate UndisturbedRun(j: Job, steps: seq<Step>)
    requires Legal(j, steps)
    decreases |steps|
  {
    steps != [] ==> Undisturbed(j, steps[0]) && UndisturbedRun(Next(j, steps[0]), steps[1..])
  }

  lemma {:induction false} RunKeepsRetry(j: Job, steps: seq<Step>)
    requires RetrySound(j) && AttemptsSound(j) && LateIsSpent(j.recs, j.late) && Legal(j, steps)
             && UndisturbedRun(j, steps)
    ensures RetrySound(Run(j, steps))
    decreases |steps|
  {
    hide RetrySound, AttemptsSound, LateIsSpent, Next, Enabled, Undisturbed;
    if steps != [] {
      StepKeepsRetry(j, steps[0]);
      StepKeepsAttempts(j, steps[0]);
      StepKeepsSpent(j, steps[0]);
      RunKeepsRetry(Next(j, steps[0]), steps[1..]);
    }
  }

  /** The first disturbing step of a run is the first after which record and counters disagree. */
  lemma {:induction false} FirstDisturbance(j: Job, steps: seq<Step>) returns (k: nat)
    requires RetrySound(j) && AttemptsSound(j) && LateIsSpent(j.recs, j.late) && Legal(j, steps)
             && !UndisturbedRun(j, steps)
    ensures k < |steps| && Legal(j, steps[..k]) && Enabled(Run(j, steps[..k]), steps[k])
            && !Undisturbed(Run(j, steps[..k]), steps[k])
    ensures RetrySound(Run(j, steps[..k])) && !RetrySound(Next(Run(j, steps[..k]), steps[k]))
    decreases |steps|
  {
    hide RetrySound, AttemptsSound, LateIsSpent, Next, Enabled, Undisturbed;
    StepKeepsRetry(j, steps[0]);
    if !Undisturbed(j, steps[0]) {
      k := 0;
    } else {
      StepKeepsAttempts(j, steps[0]);
      StepKeepsSpent(j, steps[0]);
      var rest := FirstDisturbance(Next(j, steps[0]), steps[1..]);
      k := rest + 1;
      assert steps[..k][0] == steps[0] && steps[..k][1..] == steps[1..][..rest];
    }
  }

  lemma InitIsSound(threadId: ThreadId, clock: int, scope: Option<string>)
    ensures var j := Init(threadId, clock, scope); RetrySound(j) && AttemptsSound(j) && LateIsSpent(j.recs, j.late)
  {
  }

  /** What a save followed by a crash and a reload leaves in the slot. */
  function Survivor(j: Job, reviewRecorded: bool, now: int): Slot
    requires j.clock <= now
  {
    SlotOf(Next(Next(j, Save), Restart(reviewRecorded, now)))
  }

  /** After any undisturbed run, a crash gives a record waiting to retry its count and not-before time back. */
  lemma CrashRestoresRetry(threadId: ThreadId, clock: int, scope: Option<string>, steps: seq<Step>,
                           reviewRecorded: bool, now: int)
    requires Legal(Init(threadId, clock, scope), steps) && UndisturbedRun(Init(threadId, clock, scope), steps)
    requires var j := Run(Init(threadId, clock, scope), steps);
             HasRecord(j) && InRetryWait(Current(j)) && j.clock <= now
    ensures var j := Run(Init(threadId, clock, scope), steps);
            var back := Survivor(j, reviewRecorded, now);
            && back.fails == j.fails && back.notBefore == j.notBefore
            && back.cb.Some? && InRetryWait(back.cb.value) && back.cb.value.attempt == Current(j).attempt
  {
    var init := Init(threadId, clock, scope);
    hide Legal, Run, UndisturbedRun;
    InitIsSound(threadId, clock, scope);
    RunKeepsRetry(init, steps);
    SurvivorIsLoaded(Run(init, steps), reviewRecorded, now);
    SlotAgrees(Run(init, steps));
  }

  /**
   * And only a disturbance can cost a crash the count: if the count or the not-before time does not come back, some
   * step of the run parted the record from the counters.
   */
  lemma MiscountFollowsADisturbance(threadId: ThreadId, clock: int, scope: Option<string>, steps: seq<Step>,
                                    reviewRecorded: bool, now: int)
    returns (k: nat)
    requires Legal(Init(threadId, clock, scope), steps)
    requires var j := Run(Init(threadId, clock, scope), steps);
             && HasRecord(j) && InRetryWait(Current(j)) && j.clock <= now
             && !(Survivor(j, reviewRecorded, now).fails == j.fails
                  && Survivor(j, reviewRecorded, now).notBefore == j.notBefore)
    ensures k < |steps| && Legal(Init(threadId, clock, scope), steps[..k])
    ensures var j := Run(Init(threadId, clock, scope), steps[..k]); Enabled(j, steps[k]) && !Undisturbed(j, steps[k])
  {
    var init := Init(threadId, clock, scope);
    hide Legal, Run, UndisturbedRun, Undisturbed, Enabled, RetrySound, AttemptsSound, LateIsSpent, Survivor;
    InitIsSound(threadId, clock, scope);
    if UndisturbedRun(init, steps) {
      CrashRestoresRetry(threadId, clock, scope, steps, reviewRecorded, now);
    }
    k := FirstDisturbance(init, steps);
  }

  lemma ReloadedIsTheSlot(j: Job, reviewRecorded: bool, now: int)
    requires j.disk.Some?
    ensures SlotOf(Reloaded(j, reviewRecorded, now)) == Restarted(Persisted(j.disk.value), reviewRecorded, now)
  {
    hide Persisted, Restarted, MarkFits, Put;
    var s := Restarted(Persisted(j.disk.value), reviewRecorded, now);
    PutIsTheSlot(Blank(j), s, true,
                 if s.fails.Some? && MarkFits(j.diskMark, s.fails, s.notBefore) then j.diskMark else None);
  }

  lemma RetryIsNotRequeued(cb: Callback, reviewRecorded: bool, now: int)
    requires InRetryWait(cb)
    ensures Restarted(Persisted(cb), reviewRecorded, now) == Load(Persisted(cb), now)
  {
  }

  lemma SurvivorIsLoaded(j: Job, reviewRecorded: bool, now: int)
    requires HasRecord(j) && InRetryWait(Current(j)) && j.clock <= now
    ensures Survivor(j, reviewRecorded, now) == Load(Persisted(Current(j)), now)
  {
    hide Restarted, Persisted, Load, Reloaded, InRetryWait;
    var saved := Next(j, Save);
    assert saved.disk == Some(Current(j));
    ReloadedIsTheSlot(saved, reviewRecorded, now);
    RetryIsNotRequeued(Current(j), reviewRecorded, now);
    assert SlotOf(Next(saved, Restart(reviewRecorded, now))) == SlotOf(Reloaded(saved, reviewRecorded, now));
  }

  // ---------------------------------------------------------------- each disturbance miscounts

  /** A crash of `j` brings back a wrong count or not-before time for a record that waits to retry. */
  predicate Miscounted(j: Job, reviewRecorded: bool, now: int)
    requires j.clock <= now
  {
    && HasRecord(j) && InRetryWait(Current(j))
    && !(Survivor(j, reviewRecorded, now).fails == j.fails && Survivor(j, reviewRecorded, now).notBefore == j.notBefore)
  }

  lemma SurvivorCounts(j: Job, reviewRecorded: bool, now: int)
    requires HasRecord(j) && InRetryWait(Current(j)) && Current(j).attempt >= 1 && j.clock <= now
    ensures Survivor(j, reviewRecorded, now).fails == Some(Current(j).attempt)
    ensures Survivor(j, reviewRecorded, now).notBefore == Current(j).nextAttemptAt
  {
    hide Survivor;
    SurvivorIsLoaded(j, reviewRecorded, now);
  }

  /** An attempt that is under way with its count cleared, although it is not the first, is miscounted once it fails. */
  lemma ClearedAttemptIsMiscounted(j: Job, failedAt: int, settledAt: int, reportAt: Option<int>, reviewRecorded: bool,
                                   now: int)
    requires GuardCurrent(j) && j.late == [] && j.fails.GetOr(0) == 0 && Current(j).attempt > 1
    requires j.clock <= failedAt <= settledAt <= now
    ensures var steps := [AttemptFails(failedAt), RunSettle(settledAt, reportAt)];
            && Legal(j, steps) && Run(j, steps).clock <= now && Miscounted(Run(j, steps), reviewRecorded, now)
            && Run(j, steps).fails == Some(1)
            && Survivor(Run(j, steps), reviewRecorded, now).fails == Some(Current(j).attempt)
  {
    hide Survivor, FailedNotBefore, Outstanding;
    var failed := Next(j, AttemptFails(failedAt));
    var k := Next(failed, RunSettle(settledAt, reportAt));
    TwoSteps(j, AttemptFails(failedAt), RunSettle(settledAt, reportAt));
    assert k.fails == Some(1) && HasRecord(k) && InRetryWait(Current(k)) && Current(k).attempt == Current(j).attempt;
    SurvivorCounts(k, reviewRecorded, now);
  }

  lemma OneStep(j: Job, step: Step)
    requires Enabled(j, step)
    ensures Legal(j, [step]) && Run(j, [step]) == Next(j, step)
  {
    hide Enabled, Next;
    assert [step][1..] == [];
  }

  lemma TwoSteps(j: Job, first: Step, second: Step)
    requires Enabled(j, first) && Enabled(Next(j, first), second)
    ensures Legal(j, [first, second]) && Run(j, [first, second]) == Next(Next(j, first), second)
  {
    hide Enabled, Next;
    assert [first, second][1..] == [second];
    OneStep(Next(j, first), second);
  }

  /** The first guard: an attempt that is not the first and whose own tool registers the job anew. */
  lemma KeptReviewIsMiscounted(j: Job, reg: Registration, reservedAt: int, failedAt: int, settledAt: int,
                               reportAt: Option<int>,
                               reviewRecorded: bool, now: int)
    requires RetrySound(j) && AttemptsSound(j) && Enabled(j, Operate(DoReserve(reg, true), reservedAt))
    requires reservedAt <= failedAt <= settledAt <= now && j.fails.GetOr(0) > 0
    ensures var kept := Next(j, Operate(DoReserve(reg, true), reservedAt));
            var steps := [AttemptFails(failedAt), RunSettle(settledAt, reportAt)];
            Legal(kept, steps) && Run(kept, steps).clock <= now && Miscounted(Run(kept, steps), reviewRecorded, now)
  {
    hide RetrySound, OwnersSound, ChargesSound, FreshTime, Operated, OpMark, OpIsFresh, Miscounted, BuildPending;
    var op := DoReserve(reg, true);
    SlotAgrees(j);
    KeptIsGuarded(j, reg, reservedAt);
    ClearedAttemptIsMiscounted(Next(j, Operate(op, reservedAt)), failedAt, settledAt, reportAt, reviewRecorded, now);
  }

  lemma KeptIsGuarded(j: Job, reg: Registration, reservedAt: int)
    requires AttemptsSound(j) && Enabled(j, Operate(DoReserve(reg, true), reservedAt))
    ensures var kept := Next(j, Operate(DoReserve(reg, true), reservedAt));
            GuardCurrent(kept) && kept.late == [] && kept.fails == None && Current(kept).attempt == Current(j).attempt
              && kept.clock == reservedAt
  {
    hide OwnersSound, ChargesSound, FreshTime;
  }

  /** The second guard: the counters are reset while a review that is not the first attempt is under way. */
  lemma ResetReviewIsMiscounted(j: Job, resetAt: int, failedAt: int, settledAt: int, reportAt: Option<int>,
                                reviewRecorded: bool, now: int)
    requires RetrySound(j) && AttemptsSound(j) && Enabled(j, Operate(DoResetFailures, resetAt)) && GuardCurrent(j)
    requires resetAt <= failedAt <= settledAt <= now && j.fails.GetOr(0) > 0
    ensures var cleared := Next(j, Operate(DoResetFailures, resetAt));
            var steps := [AttemptFails(failedAt), RunSettle(settledAt, reportAt)];
            Legal(cleared, steps) && Run(cleared, steps).clock <= now
              && Miscounted(Run(cleared, steps), reviewRecorded, now)
  {
    hide OwnersSound, ChargesSound, Miscounted;
    var cleared := Next(j, Operate(DoResetFailures, resetAt));
    SlotAgrees(j);
    assert GuardCurrent(cleared) && cleared.late == [] && Current(cleared) == Current(j);
    ClearedAttemptIsMiscounted(cleared, failedAt, settledAt, reportAt, reviewRecorded, now);
  }

  /** The same guard: the counters are reset while the record waits to retry. */
  lemma ResetWaitIsMiscounted(j: Job, resetAt: int, reviewRecorded: bool, now: int)
    requires RetrySound(j) && Enabled(j, Operate(DoResetFailures, resetAt)) && HasRecord(j) && InRetryWait(Current(j))
             && resetAt <= now
    ensures Miscounted(Next(j, Operate(DoResetFailures, resetAt)), reviewRecorded, now)
  {
    hide Survivor;
    var cleared := Next(j, Operate(DoResetFailures, resetAt));
    SlotAgrees(j);
    assert Current(cleared) == Current(j) && cleared.fails == None;
    SurvivorCounts(cleared, reviewRecorded, now);
  }

  /**
   * The third guard: an attempt that is not the first ends well, and its closeout clears the count and then fails to
   * post.
   */
  lemma FailedPostIsMiscounted(j: Job, startedAt: int, endedAt: int, reportAt: Option<int>, reviewRecorded: bool,
                               now: int)
    requires RetrySound(j) && AttemptsSound(j) && Enabled(j, StartCloseout(StartsPost, startedAt, reportAt))
    requires CloseoutRuns(j, j.turn.ticket.rec) && startedAt <= endedAt <= now && j.fails.GetOr(0) > 0
    ensures var steps := [StartCloseout(StartsPost, startedAt, reportAt),
                          FinishCloseout(PostFailed, endedAt, reportAt)];
            Legal(j, steps) && Run(j, steps).clock <= now && Miscounted(Run(j, steps), reviewRecorded, now)
  {
    PostBegins(j, startedAt, reportAt);
    RunningIsPastTheCount(j);
    hide Survivor, OwnersSound, ChargesSound, RetrySound, AttemptsSound, OnSlice, Next, Enabled;
    var posting := Next(j, StartCloseout(StartsPost, startedAt, reportAt));
    PostFails(posting, endedAt, reportAt);
    var k := Next(posting, FinishCloseout(PostFailed, endedAt, reportAt));
    TwoSteps(j, StartCloseout(StartsPost, startedAt, reportAt), FinishCloseout(PostFailed, endedAt, reportAt));
    SurvivorCounts(k, reviewRecorded, now);
  }

  lemma RunningIsPastTheCount(j: Job)
    requires RetrySound(j) && IsRunning(j)
    ensures Current(j).attempt == j.fails.GetOr(0) + 1
  {
    hide RetrySound;
    SlotAgrees(j);
  }

  lemma PostBegins(j: Job, startedAt: int, reportAt: Option<int>)
    requires Enabled(j, StartCloseout(StartsPost, startedAt, reportAt)) && CloseoutRuns(j, j.turn.ticket.rec)
    ensures HasRecord(j) && IsRunning(j)
    ensures var posting := Next(j, StartCloseout(StartsPost, startedAt, reportAt));
            && posting.turn.Racing? && posting.turn.ticket.Posting? && posting.cur == Some(posting.turn.ticket.rec)
            && HasRecord(posting) && Current(posting) == Current(j) && posting.fails == None
            && posting.clock == startedAt
  {
    hide OnSlice;
  }

  /** A post that fails charges the attempt's own running record with the first failure. */
  lemma PostFails(j: Job, endedAt: int, reportAt: Option<int>)
    requires j.turn.Racing? && j.turn.ticket.Posting? && j.cur == Some(j.turn.ticket.rec) && IsRunning(j)
    requires j.fails == None && j.clock <= endedAt
    ensures Enabled(j, FinishCloseout(PostFailed, endedAt, reportAt))
    ensures var k := Next(j, FinishCloseout(PostFailed, endedAt, reportAt));
            && HasRecord(k) && k.fails == Some(1) && InRetryWait(Current(k)) && Current(k).attempt == Current(j).attempt
            && k.clock == endedAt
  {
    hide FailedNotBefore;
  }

  /** The fourth guard: the closeout of a replaced record fails while the record in its place waits to retry. */
  lemma StrangerIsMiscounted(j: Job, step: Step, reviewRecorded: bool, now: int)
    requires RetrySound(j) && Enabled(j, step)
             && (step.FinishCloseout? || (step.RaceTimesOut? && !j.turn.ticket.Settle?)) && step.now <= now
    requires FallsOnStranger(j, j.turn.ticket.rec) && InRetryWait(Current(j))
    ensures Miscounted(Next(j, step), reviewRecorded, now)
  {
    hide Survivor, Charge, RetrySound;
    SlotAgrees(j);
    var rec := j.turn.ticket.rec;
    StrangerIsCharged(j, rec, step.now, step.reportAt);
    var k := Next(j, step);
    assert k.cur == j.cur && SlotOf(k) == SlotOf(Charge(j, rec, step.now, step.reportAt));
    SurvivorCounts(k, reviewRecorded, now);
  }
}
