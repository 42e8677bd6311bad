/** The operator's reply: when it is owed, and the only steps that discharge the debt. */
module CallbackObligations {
  import opened Options
  import opened Callbacks
  import opened CallbackPersistence
  import opened CallbackProtocol

  predicate Fine(cb: Callback) {
    ClosedIsSettled(cb) && (cb.closeout == Posted ==> cb.state == Closed)
  }

  predicate FineSlot(s: Slot) {
    s.cb.Some? ==> Fine(s.cb.value)
  }

  /** Every record anyone holds, saved or live, is either owed and open or closed and idle. */
  ghost predicate AllFine(j: Job) {
    && (j.cur.Some? ==> j.cur.value in j.recs)
    && (forall rec <- j.recs :: Fine(j.recs[rec]))
    && (forall r <- j.reservations :: FineSlot(r.saved))
    && (j.disk.Some? ==> Fine(j.disk.value))
  }

  lemma PutKeepsFine(j: Job, s: Slot, anew: bool, mark: Option<Mark>)
    requires AllFine(j) && FineSlot(s)
    ensures AllFine(Put(j, s, anew, mark))
    ensures Put(j, s, anew, mark).reservations == j.reservations
  {
    hide Fine;
  }

  lemma ChargeKeepsFine(j: Job, rec: RecordId, now: int, reportAt: Option<int>)
    requires AllFine(j) && rec in j.recs && j.recs[rec].review == Running
    ensures AllFine(Charge(j, rec, now, reportAt))
    ensures Outstanding(Charge(j, rec, now, reportAt).recs[rec]) == Outstanding(j.recs[rec])
  {
    var charged := FailAttempt(j.recs[rec], FailedCount(j.fails), now, reportAt);
    assert Fine(charged);
    hide Fine, FailAttempt;
  }

  lemma BeginKeepsFine(j: Job, now: int)
    requires AllFine(j) && IsOutstanding(j)
    ensures AllFine(Begin(j, now)) && IsOutstanding(Begin(j, now))
  {
    assert Fine(BeginAttempt(Current(j), j.fails.GetOr(0), now));
    hide Fine, BeginAttempt;
  }

  lemma OpSlotIsFine(j: Job, op: Op, now: int)
    requires AllFine(j) && OpEnabled(j, op)
    ensures FineSlot(OpSlot(j, op, now))
  {
    if op.DoRollback? {
      assert FineSlot(j.reservations[op.index].saved);
    }
    hide FreshTime, GuardCurrent, GuardKnown, BuildPending;
  }

  lemma OperateKeepsFine(j: Job, op: Op, now: int)
    requires AllFine(j) && OpEnabled(j, op)
    ensures AllFine(Operated(j, op, now))
  {
    hide OpSlot, OpIsFresh, OpMark, OpEnabled, Put, Fine;
    OpSlotIsFine(j, op, now);
    var put := Put(j, OpSlot(j, op, now), OpIsFresh(j, op), OpMark(j, op));
    PutKeepsFine(j, OpSlot(j, op, now), OpIsFresh(j, op), OpMark(j, op));
    assert FineSlot(SlotOf(j));
  }

  lemma SetKeepsFine(j: Job, cb: Callback, fails: Option<nat>, notBefore: Option<int>, mark: Option<Mark>)
    requires AllFine(j) && HasRecord(j) && Fine(cb)
    ensures AllFine(Put(j, Slot(Some(cb), fails, notBefore), false, mark))
    ensures Current(Put(j, Slot(Some(cb), fails, notBefore), false, mark)) == cb
    ensures HasRecord(Put(j, Slot(Some(cb), fails, notBefore), false, mark))
  {
    PutKeepsFine(j, Slot(Some(cb), fails, notBefore), false, mark);
  }

  lemma CloseoutHeadKeepsFine(j: Job, start: CloseoutStart, now: int)
    requires AllFine(j) && IsOutstanding(j)
    ensures AllFine(CloseoutHead(j, start, now)) && IsOutstanding(CloseoutHead(j, start, now))
  {
    hide AllFine, Put;
    var cb := match start
              case GoesIdle => IdleReview(Current(j), now)
              case IsGated(gate, reason, reportAt) => BlockReview(Current(j), gate, reason, reportAt, now)
              case StartsPost => Current(j);
    assert Fine(cb) && Outstanding(cb) by { CurrentIsFine(j); }
    SetKeepsFine(j, cb, None, None, None);
  }

  lemma CurrentIsFine(j: Job)
    requires AllFine(j)
    ensures HasRecord(j) ==> Fine(Current(j))
  {
  }

  lemma CloseoutTailKeepsFine(j: Job, rec: RecordId, end: CloseoutEnd, now: int)
    requires AllFine(j)
    ensures AllFine(CloseoutTail(j, rec, end, now))
    ensures IsOutstanding(CloseoutTail(j, rec, end, now)) <==> IsOutstanding(j) && !(end.PostDone? && Fenced(j, rec))
  {
    hide AllFine, Put;
    if end.PostDone? && Fenced(j, rec) {
      var cb := PostedCloseout(Current(j), end.resolution, end.reportAt, end.postedAt, now);
      assert Fine(cb) && !Outstanding(cb);
      SetKeepsFine(j, cb, j.fails, j.notBefore, j.mark);
    }
  }

  lemma FallBackKeepsFine(j: Job, rec: RecordId, now: int, reportAt: Option<int>)
    requires AllFine(j)
    ensures AllFine(FallBack(j, rec, now, reportAt)) && AllFine(SettleFailure(j, rec, now, reportAt))
    ensures IsOutstanding(FallBack(j, rec, now, reportAt)) == IsOutstanding(j)
    ensures IsOutstanding(SettleFailure(j, rec, now, reportAt)) == IsOutstanding(j)
  {
    hide AllFine, FailAttempt, FailedNotBefore;
    if rec in j.recs && j.recs[rec].review == Running {
      ChargeKeepsFine(j, rec, now, reportAt);
    }
  }

  lemma BeginNextKeepsFine(j: Job, now: int)
    requires AllFine(j)
    ensures AllFine(BegunNext(j, now))
    ensures IsOutstanding(BegunNext(j, now)) <==> IsOutstanding(j) && !BeginSupersedes(j)
  {
    hide AllFine, Begin, Put, OnSlice;
    if BeginsAttempt(j) {
      BeginKeepsFine(j, now);
    } else if BeginSupersedes(j) {
      var cb := Supersede(Current(j), now);
      assert Fine(cb) && !Outstanding(cb);
      SetKeepsFine(j, cb, j.fails, j.notBefore, j.mark);
      SameRecords(Put(j, SlotOf(j).(cb := Some(cb)), false, j.mark), BegunNext(j, now));
    } else {
      SameRecords(j, BegunNext(j, now));
    }
  }

  lemma SameRecords(j: Job, k: Job)
    requires AllFine(j)
    requires k.recs == j.recs && k.cur == j.cur && k.reservations == j.reservations
    requires k.disk == j.disk || k.disk == SlotOf(j).cb
    ensures AllFine(k) && IsOutstanding(k) == IsOutstanding(j)
  {
  }

  lemma LateKeepsFine(j: Job, start: CloseoutStart, end: CloseoutEnd, now: int, reportAt: Option<int>)
    requires AllFine(j) && j.late != []
    ensures AllFine(LateRun(j, start, end, now, reportAt))
    ensures IsOutstanding(LateRun(j, start, end, now, reportAt))
            <==> IsOutstanding(j) && !(j.late[0].Posting? && end.PostDone? && Fenced(j, j.late[0].rec))
  {
    hide AllFine, SettleFailure, CloseoutHead, CloseoutTail, OnSlice;
    var ticket := j.late[0];
    var rest := j.(late := j.late[1..]);
    SameRecords(j, rest);
    match ticket
    case Settle(rec, _) => FallBackKeepsFine(rest, rec, now, reportAt);
    case Terminal(rec, id) =>
      if CloseoutRuns(rest, rec) {
        CloseoutHeadKeepsFine(rest, start, now);
        var head := CloseoutHead(rest, start, now);
        SameRecords(head, head.(late := [Posting(rec, id)] + rest.late));
      }
    case Posting(rec, _) => CloseoutTailKeepsFine(rest, rec, end, now);
  }

  lemma RaceKeepsFine(j: Job, step: Step)
    requires AllFine(j) && Enabled(j, step)
    requires step.RunSettle? || step.StartCloseout? || step.FinishCloseout? || step.RaceTimesOut?
    ensures AllFine(Stepped(j, step))
    ensures IsOutstanding(Stepped(j, step))
            <==> IsOutstanding(j) && !(step.FinishCloseout? && step.end.PostDone? && Fenced(j, j.turn.ticket.rec))
  {
    hide AllFine, SettleFailure, CloseoutHead, CloseoutTail, FallBack, OnSlice;
    var rec := j.turn.ticket.rec;
    FallBackKeepsFine(j, rec, step.now, step.reportAt);
    match step
    case RunSettle(now, reportAt) => SameRecords(SettleFailure(j, rec, now, reportAt), Stepped(j, step));
    case StartCloseout(start, now, _) =>
      if CloseoutRuns(j, rec) {
        CloseoutHeadKeepsFine(j, start, now);
        SameRecords(CloseoutHead(j, start, now), Stepped(j, step));
      } else {
        SameRecords(j, Stepped(j, step));
      }
    case FinishCloseout(end, now, reportAt) =>
      CloseoutTailKeepsFine(j, rec, end, now);
      if end.PostDone? && Fenced(j, rec) {
        SameRecords(CloseoutTail(j, rec, end, now), Stepped(j, step));
      } else {
        SameRecords(FallBack(j, rec, now, reportAt), Stepped(j, step));
      }
    case RaceTimesOut(now, reportAt) =>
      SameRecords(if j.turn.ticket.Settle? then j else FallBack(j, rec, now, reportAt), Stepped(j, step));
  }

  lemma RestartSlotIsFine(cb: Callback, reviewRecorded: bool, now: int)
    requires Fine(cb)
    ensures FineSlot(Restarted(Persisted(cb), reviewRecorded, now))
    ensures Restarted(Persisted(cb), reviewRecorded, now).cb.Some?
    ensures Outstanding(Restarted(Persisted(cb), reviewRecorded, now).cb.value) == Outstanding(cb)
  {
    ReloadKeepsObligation(cb, now);
    ReloadKeepsSettled(cb, now);
    hide Normalize, Persisted;
  }

  lemma RestartKeepsFine(j: Job, reviewRecorded: bool, now: int)
    requires AllFine(j)
    ensures AllFine(Reloaded(j, reviewRecorded, now))
    ensures IsOutstanding(Reloaded(j, reviewRecorded, now)) <==> j.disk.Some? && Outstanding(j.disk.value)
  {
    hide Fine, Persisted, Restarted, MarkFits, Put;
    var s := if j.disk.Some? then Restarted(Persisted(j.disk.value), reviewRecorded, now) else Slot(None, None, None);
    if j.disk.Some? {
      RestartSlotIsFine(j.disk.value, reviewRecorded, now);
    }
    var mark := if s.fails.Some? && MarkFits(j.diskMark, s.fails, s.notBefore) then j.diskMark else None;
    assert AllFine(Blank(j));
    PutKeepsFine(Blank(j), s, true, mark);
    PutOwes(Blank(j), s, true, mark);
  }

  lemma PutOwes(j: Job, s: Slot, anew: bool, mark: Option<Mark>)
    ensures IsOutstanding(Put(j, s, anew, mark)) <==> s.cb.Some? && Outstanding(s.cb.value)
  {
    hide Outstanding;
  }

  // ---------------------------------------------------------------- theorems

  /** What each operation leaves owed. */
  predicate OwedAfterOp(j: Job, op: Op)
    requires OpEnabled(j, op)
  {
    match op
    case DoRegister(_) => true
    case DoReserve(_, _) => true
    case DoPost(_, _, _) => false
    case DoStop(_) => false
    case DoRemove => false
    case DoRollback(index, _) =>
      if RollbackApplies(j, index)
      then j.reservations[index].saved.cb.Some? && Outstanding(j.reservations[index].saved.cb.value)
      else IsOutstanding(j)
    case _ => IsOutstanding(j)
  }

  /** What each step leaves owed: registration incurs the debt, six kinds of step may discharge it. */
  predicate OwedAfter(j: Job, step: Step)
    requires Enabled(j, step)
  {
    match step
    case Operate(op, _) => OwedAfterOp(j, op)
    case BeginNext(_) => IsOutstanding(j) && !BeginSupersedes(j)
    case FinishCloseout(end, _, _) => IsOutstanding(j) && !(end.PostDone? && Fenced(j, j.turn.ticket.rec))
    case RunLate(_, end, _, _) => IsOutstanding(j) && !(j.late[0].Posting? && end.PostDone? && Fenced(j, j.late[0].rec))
    case Restart(_, _) => j.disk.Some? && Outstanding(j.disk.value)
    case _ => IsOutstanding(j)
  }

  lemma OperationOwes(j: Job, op: Op, now: int)
    requires AllFine(j) && OpEnabled(j, op)
    ensures OpSlot(j, op, now).cb.Some? && Outstanding(OpSlot(j, op, now).cb.value) <==> OwedAfterOp(j, op)
  {
    hide FreshTime, GuardCurrent, GuardKnown, EntryReview, EntryStage, Normalize, Persisted, Stepped, Put, Runnable,
         Fine;
  }

  /** Every step keeps every record settled, and leaves the reply owed exactly as `OwedAfter` says. */
  lemma StepOwes(j: Job, step: Step)
    requires AllFine(j) && Enabled(j, step)
    ensures AllFine(Next(j, step))
    ensures IsOutstanding(Next(j, step)) <==> OwedAfter(j, step)
  {
    hide AllFine, Operated, Charge, BegunNext, Reloaded, LateRun, OpEnabled, SettleFailure, StartedCloseout,
         FinishedCloseout,
         TimedOut, Runnable, OwedAfterOp, Put, OpSlot, Outstanding;
    match step {
    case Operate(op, now) =>
      OperateKeepsFine(j, op, now);
      OperationOwes(j, op, now);
      OperatedOwes(j, op, now);
    case Recover(now, reportAt) => FallBackKeepsFine(j, j.cur.value, now, reportAt);
      assert Stepped(j, step) == FallBack(j, j.cur.value, now, reportAt);
    case BeginNext(now) => BeginNextKeepsFine(j, now);
    case RunSettle(now, reportAt) => RaceKeepsFine(j, step);
    case StartCloseout(start, now, reportAt) => RaceKeepsFine(j, step);
    case FinishCloseout(end, now, reportAt) => RaceKeepsFine(j, step);
    case RaceTimesOut(now, reportAt) => RaceKeepsFine(j, step);
    case RunLate(start, end, now, reportAt) => LateKeepsFine(j, start, end, now, reportAt);
    case Restart(reviewRecorded, now) => RestartKeepsFine(j, reviewRecorded, now);
    case _ => SameRecords(j, Stepped(j, step));
    }
    SameRecords(Stepped(j, step), Next(j, step));
  }

  lemma OperatedOwes(j: Job, op: Op, now: int)
    requires OpEnabled(j, op)
    ensures IsOutstanding(Operated(j, op, now))
            <==> OpSlot(j, op, now).cb.Some? && Outstanding(OpSlot(j, op, now).cb.value)
  {
    hide OpSlot, OpIsFresh, OpMark, OpEnabled, Outstanding, Put;
    var put := Put(j, OpSlot(j, op, now), OpIsFresh(j, op), OpMark(j, op));
    PutOwes(j, OpSlot(j, op, now), OpIsFresh(j, op), OpMark(j, op));
    assert Operated(j, op, now).recs == put.recs && Operated(j, op, now).cur == put.cur;
  }

  lemma {:induction false} RunKeepsFine(j: Job, steps: seq<Step>)
    requires AllFine(j) && Legal(j, steps)
    ensures AllFine(Run(j, steps))
    decreases |steps|
  {
    hide AllFine, Next, Enabled;
    if steps != [] {
      StepOwes(j, steps[0]);
      RunKeepsFine(Next(j, steps[0]), steps[1..]);
    }
  }

  /** In every interleaving, a closed callback owes nothing and has no open review. */
  lemma ClosedIsAlwaysSettled(threadId: ThreadId, clock: int, scope: Option<string>, steps: seq<Step>)
    requires Legal(Init(threadId, clock, scope), steps)
    ensures var j := Run(Init(threadId, clock, scope), steps);
            HasRecord(j) ==> (Current(j).state == Closed <==> !Current(j).owes)
                             && (Current(j).state == Closed ==> Current(j).review == Idle)
  {
    hide Legal, Run;
    assert AllFine(Init(threadId, clock, scope));
    RunKeepsFine(Init(threadId, clock, scope), steps);
    CurrentIsFine(Run(Init(threadId, clock, scope), steps));
  }

  // ---------------------------------------------------------------- the steps that discharge a debt

  /**
   * The steps that may end a debt, as far as can be told before they are taken: a reply that goes out, the operator's
   * stop, removal, a begin that finds the job on a newer work slice, an applied rollback that puts back nothing owed,
   * and a restart from a file that says nothing is owed.
   */
  predicate Discharges(j: Job, step: Step)
    requires Enabled(j, step)
  {
    match step
    case Operate(op, _) => OpDischarges(j, op)
    case BeginNext(_) => HasRecord(j) && Current(j).review == Queued && !OnSlice(Current(j), j.scope)
    case FinishCloseout(end, _, _) => end.PostDone? && j.cur == Some(j.turn.ticket.rec) && IsRunning(j)
    case RunLate(_, end, _, _) => j.late[0].Posting? && end.PostDone? && j.cur == Some(j.late[0].rec) && IsRunning(j)
    case Restart(_, _) => j.disk.Some? ==> !Outstanding(j.disk.value)
    case _ => false
  }

  predicate OpDischarges(j: Job, op: Op)
    requires OpEnabled(j, op)
  {
    match op
    case DoPost(_, _, _) => true
    case DoStop(_) => true
    case DoRemove => true
    case DoRollback(index, _) =>
      RollbackApplies(j, index)
        && (j.reservations[index].saved.cb.Some? ==> !Outstanding(j.reservations[index].saved.cb.value))
    case _ => false
  }

  /** A debt ends with exactly these steps. */
  lemma DebtEndsWithItsDischarge(j: Job, step: Step)
    requires AllFine(j) && Enabled(j, step) && IsOutstanding(j)
    ensures IsOutstanding(Next(j, step)) <==> !Discharges(j, step)
  {
    hide AllFine, Next, Enabled;
    StepOwes(j, step);
  }

  predicate NoDischarge(j: Job, steps: seq<Step>)
    requires Legal(j, steps)
    decreases |steps|
  {
    steps != [] ==> !Discharges(j, steps[0]) && NoDischarge(Next(j, steps[0]), steps[1..])
  }

  /** Once owed, the reply stays owed over every run without such a step: no failure, pause, block or retry ends it. */
  lemma {:induction false} OwedUntilDischarged(j: Job, steps: seq<Step>)
    requires AllFine(j) && IsOutstanding(j) && Legal(j, steps) && NoDischarge(j, steps)
    ensures IsOutstanding(Run(j, steps))
    decreases |steps|
  {
    hide AllFine, Next, Enabled, Discharges, IsOutstanding;
    if steps != [] {
      DebtEndsWithItsDischarge(j, steps[0]);
      StepOwes(j, steps[0]);
      OwedUntilDischarged(Next(j, steps[0]), steps[1..]);
    }
  }

  /**
   * And the other way round: a reply that is owed at one point of a life and not at a later one was discharged by a
   * step between them.
   */
  lemma {:induction false} EndedDebtWasDischarged(j: Job, steps: seq<Step>) returns (k: nat)
    requires AllFine(j) && IsOutstanding(j) && Legal(j, steps) && !IsOutstanding(Run(j, steps))
    ensures k < |steps| && Legal(j, steps[..k]) && Enabled(Run(j, steps[..k]), steps[k])
    ensures IsOutstanding(Run(j, steps[..k])) && Discharges(Run(j, steps[..k]), steps[k])
    decreases |steps|
  {
    hide AllFine, Next, Enabled, Discharges, IsOutstanding;
    if Discharges(j, steps[0]) {
      k := 0;
    } else {
      DebtEndsWithItsDischarge(j, steps[0]);
      StepOwes(j, steps[0]);
      var rest := EndedDebtWasDischarged(Next(j, steps[0]), steps[1..]);
      k := rest + 1;
      assert steps[..k][0] == steps[0] && steps[..k][1..] == steps[1..][..rest];
    }
  }
}
