/** What every interleaving of the callback protocol keeps. */
module CallbackSafety {
  import opened Options
  import opened Callbacks
  import opened CallbackPersistence
  import opened CallbackProtocol

  // ---------------------------------------------------------------- attempts and charges

  predicate Holds(j: Job, rec: RecordId, id: AttemptId) {
    rec in j.recs && rec in j.owner && j.owner[rec] == id
  }

  predicate TurnHolds(j: Job) {
    match j.turn
    case Begun(rec, id) => Holds(j, rec, id) && j.late == []
    case Attempting(rec, id) => Holds(j, rec, id) && j.late == []
    case Racing(ticket, _) => Holds(j, ticket.rec, ticket.id) && j.late == []
    case _ => true
  }

  /** A record that is running belongs to one attempt, and that attempt has not been charged yet. */
  ghost predicate RunningIsOwned(j: Job) {
    forall rec <- j.recs :: j.recs[rec].review == Running ==> rec in j.owner && ChargesOf(j, j.owner[rec]) == 0
  }

  ghost predicate OneOwnerEach(owner: map<RecordId, AttemptId>) {
    forall r1 <- owner, r2 <- owner :: owner[r1] == owner[r2] ==> r1 == r2
  }

  ghost predicate OwnersSound(j: Job) {
    && (j.cur.Some? ==> j.cur.value in j.recs)
    && (forall rec <- j.recs :: rec < j.nextRec)
    && (forall rec <- j.owner :: rec in j.recs && j.owner[rec] < j.nextId)
    && OneOwnerEach(j.owner)
  }

  ghost predicate ChargesSound(j: Job) {
    && (forall id <- j.charges :: id < j.nextId && j.charges[id] <= 1)
    && RunningIsOwned(j)
  }

  predicate HoldersSound(j: Job) {
    && |j.late| <= 1
    && (j.late != [] ==> Holds(j, j.late[0].rec, j.late[0].id))
    && TurnHolds(j)
  }

  ghost predicate AttemptsSound(j: Job) {
    OwnersSound(j) && ChargesSound(j) && HoldersSound(j)
  }

  lemma PutKeepsAttempts(j: Job, s: Slot, anew: bool, mark: Option<Mark>)
    requires AttemptsSound(j)
    requires s.cb.Some? && s.cb.value.review == Running ==> !anew && IsRunning(j)
    ensures AttemptsSound(Put(j, s, anew, mark))
  {
    PutKeepsOwners(j, s, anew, mark);
    PutKeepsCharges(j, s, anew, mark);
  }

  lemma PutKeepsOwners(j: Job, s: Slot, anew: bool, mark: Option<Mark>)
    requires OwnersSound(j)
    ensures OwnersSound(Put(j, s, anew, mark))
    ensures Put(j, s, anew, mark).owner == j.owner && j.recs.Keys <= Put(j, s, anew, mark).recs.Keys
  {
    hide OneOwnerEach;
    var after := Put(j, s, anew, mark);
    assert after.owner == j.owner && after.nextId == j.nextId;
  }

  lemma PutKeepsCharges(j: Job, s: Slot, anew: bool, mark: Option<Mark>)
    requires OwnersSound(j) && ChargesSound(j)
    requires s.cb.Some? && s.cb.value.review == Running ==> !anew && IsRunning(j)
    ensures ChargesSound(Put(j, s, anew, mark))
  {
    var after := Put(j, s, anew, mark);
    assert after.owner == j.owner && after.charges == j.charges && after.nextId == j.nextId;
    forall r <- after.recs | after.recs[r].review == Running
      ensures r in after.owner && ChargesOf(after, after.owner[r]) == 0
    {
      hide OwnersSound;
      assert r in j.recs && j.recs[r].review == Running;
    }
  }

  lemma ChargeKeepsAttempts(j: Job, rec: RecordId, now: int, reportAt: Option<int>)
    requires AttemptsSound(j) && rec in j.recs && j.recs[rec].review == Running
    ensures AttemptsSound(Charge(j, rec, now, reportAt))
  {
    ChargeKeepsCharges(j, rec, now, reportAt);
  }

  lemma ChargeKeepsCharges(j: Job, rec: RecordId, now: int, reportAt: Option<int>)
    requires OwnersSound(j) && ChargesSound(j) && rec in j.recs && j.recs[rec].review == Running
    ensures ChargesSound(Charge(j, rec, now, reportAt))
    ensures Charge(j, rec, now, reportAt).recs[rec].review != Running
  {
    var after := Charge(j, rec, now, reportAt);
    forall r <- after.recs | after.recs[r].review == Running
      ensures r in after.owner && ChargesOf(after, after.owner[r]) == 0
    {
      assert r != rec && j.owner[r] != j.owner[rec];
    }
  }

  lemma BeginKeepsAttempts(j: Job, now: int)
    requires AttemptsSound(j) && j.turn.Selected? && j.late == [] && HasRecord(j)
    ensures AttemptsSound(Begin(j, now))
  {
  }

  /** No operation makes a record run; at most it leaves, in place, the one that runs. */
  lemma OpStartsNothing(j: Job, op: Op, now: int)
    requires OpEnabled(j, op) && OpSlot(j, op, now).cb.Some? && OpSlot(j, op, now).cb.value.review == Running
    ensures !OpIsFresh(j, op) && IsRunning(j)
  {
  }

  lemma OperateKeepsAttempts(j: Job, op: Op, now: int)
    requires AttemptsSound(j) && OpEnabled(j, op)
    ensures AttemptsSound(Operated(j, op, now))
  {
    hide OpSlot, OpIsFresh, OpMark, OpEnabled, Put, AttemptsSound;
    var s := OpSlot(j, op, now);
    if s.cb.Some? && s.cb.value.review == Running {
      OpStartsNothing(j, op, now);
    }
    PutKeepsAttempts(j, s, OpIsFresh(j, op), OpMark(j, op));
    SameAccounts(Put(j, s, OpIsFresh(j, op), OpMark(j, op)), Operated(j, op, now));
  }

  lemma BeginNextKeepsAttempts(j: Job, now: int)
    requires AttemptsSound(j) && j.turn.Selected? && j.late == []
    ensures AttemptsSound(BegunNext(j, now))
  {
    hide OwnersSound, ChargesSound, Begin, Put, OnSlice;
    if BeginsAttempt(j) {
      BeginKeepsAttempts(j, now);
    } else if BeginSupersedes(j) {
      var put := Put(j, SlotOf(j).(cb := Some(Supersede(Current(j), now))), false, j.mark);
      PutKeepsAttempts(j, SlotOf(j).(cb := Some(Supersede(Current(j), now))), false, j.mark);
      LeaveKeepsAttempts(put, Unselected, put.active);
    } else {
      LeaveKeepsAttempts(j, Unselected, j.active);
    }
  }

  /** A job that is in nobody's hands keeps its accounts; so does one whose attempt changes hands. */
  lemma LeaveKeepsAttempts(j: Job, turn: Turn, active: bool)
    requires AttemptsSound(j)
    requires TurnHolds(j.(turn := turn))
    ensures AttemptsSound(j.(turn := turn, active := active))
  {
  }

  /** The late queue may lose its head or be replaced by a ticket of the same attempt. */
  lemma QueueKeepsAttempts(j: Job, late: seq<Ticket>)
    requires AttemptsSound(j) && (j.late == [] ==> j.turn == Unselected)
    requires |late| <= 1 && (late != [] ==> Holds(j, late[0].rec, late[0].id))
    requires late == [] || TurnHolds(j.(late := late))
    ensures AttemptsSound(j.(late := late))
  {
  }

  lemma CloseoutHeadKeepsAttempts(j: Job, start: CloseoutStart, now: int)
    requires AttemptsSound(j) && IsRunning(j)
    ensures var k := CloseoutHead(j, start, now);
            && AttemptsSound(k) && k.turn == j.turn && k.late == j.late && k.owner == j.owner
            && j.recs.Keys <= k.recs.Keys
  {
    hide OwnersSound, ChargesSound, HoldersSound, IdleReview, BlockReview;
    var cb := match start
              case GoesIdle => IdleReview(Current(j), now)
              case IsGated(gate, reason, reportAt) => BlockReview(Current(j), gate, reason, reportAt, now)
              case StartsPost => Current(j);
    PutKeepsAttempts(j, Slot(Some(cb), None, None), false, None);
  }

  lemma CloseoutTailKeepsAttempts(j: Job, rec: RecordId, end: CloseoutEnd, now: int)
    requires AttemptsSound(j)
    ensures var k := CloseoutTail(j, rec, end, now);
            && AttemptsSound(k) && k.turn == j.turn && k.late == j.late
  {
    hide OwnersSound, ChargesSound, HoldersSound;
    if end.PostDone? && Fenced(j, rec) {
      var posted := PostedCloseout(Current(j), end.resolution, end.reportAt, end.postedAt, now);
      PutKeepsAttempts(j, SlotOf(j).(cb := Some(posted)), false, j.mark);
    }
  }

  lemma FallBackKeepsAttempts(j: Job, rec: RecordId, now: int, reportAt: Option<int>)
    requires AttemptsSound(j)
    ensures AttemptsSound(FallBack(j, rec, now, reportAt))
    ensures AttemptsSound(SettleFailure(j, rec, now, reportAt))
    ensures FallBack(j, rec, now, reportAt).owner == j.owner && j.recs.Keys <= FallBack(j, rec, now, reportAt).recs.Keys
    ensures FallBack(j, rec, now, reportAt).late == j.late
  {
    hide OwnersSound, ChargesSound, HoldersSound;
    if rec in j.recs && j.recs[rec].review == Running {
      ChargeKeepsAttempts(j, rec, now, reportAt);
    }
  }

  lemma TimedOutKeepsAttempts(j: Job, now: int, reportAt: Option<int>)
    requires AttemptsSound(j) && j.turn.Racing?
    ensures AttemptsSound(TimedOut(j, now, reportAt))
  {
    hide OwnersSound, ChargesSound, FallBack;
    var ticket := j.turn.ticket;
    FallBackKeepsAttempts(j, ticket.rec, now, reportAt);
    var settled := if ticket.Settle? then j else FallBack(j, ticket.rec, now, reportAt);
    LeaveKeepsAttempts(settled, Unselected, false);
    QueueKeepsAttempts(Leave(settled), j.late + [ticket]);
  }

  lemma StartedKeepsAttempts(j: Job, start: CloseoutStart, now: int)
    requires AttemptsSound(j) && j.turn.Racing?
    ensures AttemptsSound(StartedCloseout(j, start, now))
  {
    hide OwnersSound, ChargesSound, CloseoutHead, OnSlice;
    var ticket := j.turn.ticket;
    if CloseoutRuns(j, ticket.rec) {
      CloseoutHeadKeepsAttempts(j, start, now);
      var head := CloseoutHead(j, start, now);
      LeaveKeepsAttempts(head, Unselected, false);
      LeaveKeepsAttempts(head, Racing(Posting(ticket.rec, ticket.id), j.turn.endedAt), head.active);
    } else {
      LeaveKeepsAttempts(j, Unselected, false);
    }
  }

  lemma FinishedKeepsAttempts(j: Job, end: CloseoutEnd, now: int, reportAt: Option<int>)
    requires AttemptsSound(j) && j.turn.Racing?
    ensures AttemptsSound(FinishedCloseout(j, j.turn.ticket.rec, end, now, reportAt))
  {
    hide OwnersSound, ChargesSound, HoldersSound, CloseoutTail, FallBack, Fenced;
    var rec := j.turn.ticket.rec;
    CloseoutTailKeepsAttempts(j, rec, end, now);
    FallBackKeepsAttempts(j, rec, now, reportAt);
    LeaveKeepsAttempts(CloseoutTail(j, rec, end, now), Unselected, false);
    LeaveKeepsAttempts(FallBack(j, rec, now, reportAt), Unselected, false);
  }

  lemma SettleKeepsAttempts(j: Job, rec: RecordId, now: int, reportAt: Option<int>)
    requires AttemptsSound(j)
    ensures AttemptsSound(Leave(SettleFailure(j, rec, now, reportAt)))
  {
    hide OwnersSound, ChargesSound, HoldersSound, SettleFailure;
    FallBackKeepsAttempts(j, rec, now, reportAt);
    LeaveKeepsAttempts(SettleFailure(j, rec, now, reportAt), Unselected, false);
  }

  lemma LateKeepsAttempts(j: Job, start: CloseoutStart, end: CloseoutEnd, now: int, reportAt: Option<int>)
    requires AttemptsSound(j) && j.late != []
    ensures AttemptsSound(LateRun(j, start, end, now, reportAt))
  {
    hide OwnersSound, ChargesSound, SettleFailure, CloseoutHead, CloseoutTail, OnSlice;
    var ticket := j.late[0];
    var rest := j.(late := j.late[1..]);
    assert rest.late == [];
    QueueKeepsAttempts(j, []);
    match ticket
    case Settle(rec, _) => FallBackKeepsAttempts(rest, rec, now, reportAt);
    case Terminal(rec, id) =>
      if CloseoutRuns(rest, rec) {
        CloseoutHeadKeepsAttempts(rest, start, now);
        LatePostKeepsAttempts(CloseoutHead(rest, start, now), Posting(rec, id));
      }
    case Posting(rec, _) => CloseoutTailKeepsAttempts(rest, rec, end, now);
  }

  lemma LatePostKeepsAttempts(j: Job, ticket: Ticket)
    requires AttemptsSound(j) && j.late == [] && Holds(j, ticket.rec, ticket.id)
    requires j.turn.Unselected? || j.turn.Selected?
    ensures AttemptsSound(j.(late := [ticket] + j.late))
  {
  }

  lemma RestartKeepsAttempts(j: Job, reviewRecorded: bool, now: int)
    requires AttemptsSound(j)
    ensures AttemptsSound(Reloaded(j, reviewRecorded, now))
  {
    hide Put, MarkFits, OwnersSound, Persisted;
    var blank := Blank(j);
    BlankIsSound(j);
    var s := if j.disk.Some? then Restarted(Persisted(j.disk.value), reviewRecorded, now) else Slot(None, None, None);
    var mark := if s.fails.Some? && MarkFits(j.diskMark, s.fails, s.notBefore) then j.diskMark else None;
    assert s.cb.Some? ==> s.cb.value.review != Running;
    PutKeepsAttempts(blank, s, true, mark);
  }

  lemma BlankIsSound(j: Job)
    requires AttemptsSound(j)
    ensures AttemptsSound(Blank(j))
  {
  }

  /** Every step keeps the accounts of the attempts. */
  lemma StepKeepsAttempts(j: Job, step: Step)
    requires AttemptsSound(j) && Enabled(j, step)
    ensures AttemptsSound(Next(j, step))
  {
    hide Stepped, Enabled, TimeOf, OwnersSound, ChargesSound, HoldersSound;
    SteppedKeepsAttempts(j, step);
    SameAccounts(Stepped(j, step), Next(j, step));
  }

  /** The clock, the work slice, the counters, the reservations and the state file are no part of the accounts. */
  lemma SameAccounts(j: Job, k: Job)
    requires AttemptsSound(j)
    requires k.recs == j.recs && k.cur == j.cur && k.nextRec == j.nextRec && k.turn == j.turn && k.late == j.late
    requires k.owner == j.owner && k.charges == j.charges && k.nextId == j.nextId
    ensures AttemptsSound(k)
  {
  }

  lemma SteppedKeepsAttempts(j: Job, step: Step)
    requires AttemptsSound(j) && Enabled(j, step)
    ensures AttemptsSound(Stepped(j, step))
  {
    hide Operated, Charge, BegunNext, Reloaded, LateRun, OpEnabled, SettleFailure, StartedCloseout, FinishedCloseout,
         TimedOut,
         OwnersSound, ChargesSound, Runnable;
    match step
    case Operate(op, now) => OperateKeepsAttempts(j, op, now);
    case Recover(now, reportAt) => ChargeKeepsAttempts(j, j.cur.value, now, reportAt);
    case Select(at, now) => LeaveKeepsAttempts(j, Selected(at, |j.reservations|), j.active);
    case Deselect => LeaveKeepsAttempts(j, Unselected, j.active);
    case BeginNext(now) => BeginNextKeepsAttempts(j, now);
    case Activate => LeaveKeepsAttempts(j, Attempting(j.turn.rec, j.turn.id), true);
    case Abandon => LeaveKeepsAttempts(j, Unselected, j.active);
    case AttemptFails(now) => LeaveKeepsAttempts(j, Racing(Settle(j.turn.rec, j.turn.id), now), j.active);
    case AttemptEnds(now) => LeaveKeepsAttempts(j, Racing(Terminal(j.turn.rec, j.turn.id), now), j.active);
    case RunSettle(now, reportAt) => SettleKeepsAttempts(j, j.turn.ticket.rec, now, reportAt);
    case StartCloseout(start, now, reportAt) => StartedKeepsAttempts(j, start, now);
    case FinishCloseout(end, now, reportAt) => FinishedKeepsAttempts(j, end, now, reportAt);
    case RaceTimesOut(now, reportAt) => TimedOutKeepsAttempts(j, now, reportAt);
    case RunLate(start, end, now, reportAt) => LateKeepsAttempts(j, start, end, now, reportAt);
    case Restart(reviewRecorded, now) => RestartKeepsAttempts(j, reviewRecorded, now);
    case ChangeScope(scope) => SameAccounts(j, j.(scope := scope));
    case Save => SameAccounts(j, j.(disk := SlotOf(j).cb, diskMark := j.mark));
  }

  lemma {:induction false} RunKeepsAttempts(j: Job, steps: seq<Step>)
    requires AttemptsSound(j) && Legal(j, steps)
    ensures AttemptsSound(Run(j, steps))
    decreases |steps|
  {
    hide AttemptsSound, Next, Enabled;
    if steps != [] {
      StepKeepsAttempts(j, steps[0]);
      RunKeepsAttempts(Next(j, steps[0]), steps[1..]);
    }
  }

  /** In every interleaving, no attempt is ever charged with more than one failure. */
  lemma EachAttemptFailsAtMostOnce(threadId: ThreadId, clock: int, scope: Option<string>, steps: seq<Step>,
                                   id: AttemptId)
    requires Legal(Init(threadId, clock, scope), steps)
    ensures ChargesOf(Run(Init(threadId, clock, scope), steps), id) <= 1
  {
    hide Legal, Run;
    assert AttemptsSound(Init(threadId, clock, scope));
    RunKeepsAttempts(Init(threadId, clock, scope), steps);
  }

  // ---------------------------------------------------------------- only a begin starts a review

  /** Every record that runs afterwards is one that ran before. */
  ghost predicate StartsNothing(before: map<RecordId, Callback>, after: map<RecordId, Callback>) {
    forall r <- after :: after[r].review == Running ==> r in before && before[r].review == Running
  }

  lemma PutStartsNothing(j: Job, s: Slot, anew: bool, mark: Option<Mark>)
    requires s.cb.Some? && s.cb.value.review == Running ==> !anew && IsRunning(j)
    ensures StartsNothing(j.recs, Put(j, s, anew, mark).recs)
  {
  }

  lemma SettlementStartsNothing(j: Job, rec: RecordId, now: int, reportAt: Option<int>)
    ensures StartsNothing(j.recs, FallBack(j, rec, now, reportAt).recs)
    ensures StartsNothing(j.recs, SettleFailure(j, rec, now, reportAt).recs)
    ensures rec in FallBack(j, rec, now, reportAt).recs ==> FallBack(j, rec, now, reportAt).recs[rec].review != Running
  {
    hide FailedNotBefore, Outstanding;
  }

  lemma CloseoutHeadStartsNothing(j: Job, start: CloseoutStart, now: int)
    requires IsRunning(j)
    ensures StartsNothing(j.recs, CloseoutHead(j, start, now).recs)
  {
    hide Put, IdleReview, BlockReview;
    var cb := match start
              case GoesIdle => IdleReview(Current(j), now)
              case IsGated(gate, reason, reportAt) => BlockReview(Current(j), gate, reason, reportAt, now)
              case StartsPost => Current(j);
    PutStartsNothing(j, Slot(Some(cb), None, None), false, None);
  }

  lemma CloseoutTailStartsNothing(j: Job, rec: RecordId, end: CloseoutEnd, now: int)
    ensures StartsNothing(j.recs, CloseoutTail(j, rec, end, now).recs)
  {
    hide Put;
    if end.PostDone? && Fenced(j, rec) {
      var posted := PostedCloseout(Current(j), end.resolution, end.reportAt, end.postedAt, now);
      PutStartsNothing(j, SlotOf(j).(cb := Some(posted)), false, j.mark);
    }
  }

  lemma OperateStartsNothing(j: Job, op: Op, now: int)
    requires OpEnabled(j, op)
    ensures StartsNothing(j.recs, Operated(j, op, now).recs)
  {
    hide OpSlot, OpIsFresh, OpMark, OpEnabled, Put, StartsNothing;
    var s := OpSlot(j, op, now);
    if s.cb.Some? && s.cb.value.review == Running {
      OpStartsNothing(j, op, now);
    }
    PutStartsNothing(j, s, OpIsFresh(j, op), OpMark(j, op));
  }

  lemma BeginNextStarts(j: Job, now: int)
    ensures !BeginsAttempt(j) ==> StartsNothing(j.recs, BegunNext(j, now).recs)
  {
    hide Begin, Put, OnSlice;
    if BeginSupersedes(j) {
      PutStartsNothing(j, SlotOf(j).(cb := Some(Supersede(Current(j), now))), false, j.mark);
    }
  }

  lemma RestartStartsNothing(j: Job, reviewRecorded: bool, now: int)
    ensures StartsNothing(j.recs, Reloaded(j, reviewRecorded, now).recs)
  {
    hide Put, MarkFits, Persisted;
    var s := if j.disk.Some? then Restarted(Persisted(j.disk.value), reviewRecorded, now) else Slot(None, None, None);
    var mark := if s.fails.Some? && MarkFits(j.diskMark, s.fails, s.notBefore) then j.diskMark else None;
    assert s.cb.Some? ==> s.cb.value.review != Running;
    PutStartsNothing(Blank(j), s, true, mark);
  }

  lemma RaceStartsNothing(j: Job, step: Step)
    requires Enabled(j, step) && (step.StartCloseout? || step.FinishCloseout? || step.RaceTimesOut? || step.RunSettle?)
    ensures StartsNothing(j.recs, Stepped(j, step).recs)
  {
    hide SettleFailure, CloseoutHead, CloseoutTail, FallBack, OnSlice, StartsNothing, Outstanding;
    var rec := j.turn.ticket.rec;
    assert StartsNothing(j.recs, j.recs) by { SameRecordsRun(j.recs); }
    SettlementStartsNothing(j, rec, step.now, step.reportAt);
    match step
    case StartCloseout(start, now, _) => if CloseoutRuns(j, rec) { CloseoutHeadStartsNothing(j, start, now); }
    case FinishCloseout(end, now, reportAt) => CloseoutTailStartsNothing(j, rec, end, now);
    case _ =>
  }

  lemma SameRecordsRun(recs: map<RecordId, Callback>)
    ensures StartsNothing(recs, recs)
  {
  }

  lemma LateStartsNothing(j: Job, start: CloseoutStart, end: CloseoutEnd, now: int, reportAt: Option<int>)
    requires j.late != []
    ensures StartsNothing(j.recs, LateRun(j, start, end, now, reportAt).recs)
  {
    hide SettleFailure, CloseoutHead, CloseoutTail, OnSlice, StartsNothing, Outstanding;
    var rest := j.(late := j.late[1..]);
    SameRecordsRun(j.recs);
    SettlementStartsNothing(rest, j.late[0].rec, now, reportAt);
    CloseoutTailStartsNothing(rest, j.late[0].rec, end, now);
    if CloseoutRuns(rest, j.late[0].rec) { CloseoutHeadStartsNothing(rest, start, now); }
  }

  /** No step but a begin that takes its job makes a record run. */
  lemma OnlyBeginStartsReviews(j: Job, step: Step)
    requires Enabled(j, step)
    ensures StartsNothing(j.recs, Next(j, step).recs) || (step.BeginNext? && BeginsAttempt(j))
  {
    hide Operated, OpEnabled, BegunNext, Reloaded, LateRun, SettleFailure, StartedCloseout, FinishedCloseout, TimedOut,
         StartsNothing,
         Runnable, IsOutstanding, BeginsAttempt;
    SameRecordsRun(j.recs);
    match step
    case Operate(op, now) => OperateStartsNothing(j, op, now);
    case Recover(now, reportAt) =>
      SettlementStartsNothing(j, j.cur.value, now, reportAt);
      assert Stepped(j, step) == FallBack(j, j.cur.value, now, reportAt);
    case BeginNext(now) => BeginNextStarts(j, now);
    case RunSettle(_, _) => RaceStartsNothing(j, step);
    case StartCloseout(_, _, _) => RaceStartsNothing(j, step);
    case FinishCloseout(_, _, _) => RaceStartsNothing(j, step);
    case RaceTimesOut(_, _) => RaceStartsNothing(j, step);
    case RunLate(start, end, now, reportAt) => LateStartsNothing(j, start, end, now, reportAt);
    case Restart(reviewRecorded, now) => RestartStartsNothing(j, reviewRecorded, now);
    case _ =>
  }

  // ---------------------------------------------------------------- a closeout that lost its race

  /** The record of a closeout that lost its race does not run. */
  ghost predicate LateIsSpent(recs: map<RecordId, Callback>, late: seq<Ticket>) {
    forall ticket <- late :: !ticket.Settle? && ticket.rec in recs ==> recs[ticket.rec].review != Running
  }

  lemma StaysSpent(before: map<RecordId, Callback>, after: map<RecordId, Callback>, late: seq<Ticket>,
                   later: seq<Ticket>)
    requires LateIsSpent(before, late) && StartsNothing(before, after)
    requires forall ticket <- later :: ticket in late
    ensures LateIsSpent(after, later)
  {
  }

  lemma StepKeepsSpent(j: Job, step: Step)
    requires AttemptsSound(j) && LateIsSpent(j.recs, j.late) && Enabled(j, step)
    ensures LateIsSpent(Next(j, step).recs, Next(j, step).late)
  {
    hide AttemptsSound, LateIsSpent, StartsNothing, Stepped, Enabled, TimeOf;
    var k := Next(j, step);
    if step.BeginNext? && BeginsAttempt(j) {
      BegunHasNoLate(j, step.now);
    } else if step.RaceTimesOut? {
      TimedOutIsSpent(j, step.now, step.reportAt);
    } else {
      OnlyBeginStartsReviews(j, step);
      if step.RunLate? {
        SpentRunsIdle(j, step);
      } else {
        LateStays(j, step);
        StaysSpent(j.recs, k.recs, j.late, k.late);
      }
    }
  }

  lemma BegunHasNoLate(j: Job, now: int)
    requires Enabled(j, BeginNext(now)) && BeginsAttempt(j)
    ensures LateIsSpent(Next(j, BeginNext(now)).recs, Next(j, BeginNext(now)).late)
  {
    hide BeginAttempt, Put, OnSlice;
  }

  lemma TimedOutIsSpent(j: Job, now: int, reportAt: Option<int>)
    requires AttemptsSound(j) && Enabled(j, RaceTimesOut(now, reportAt))
    ensures var k := Next(j, RaceTimesOut(now, reportAt)); LateIsSpent(k.recs, k.late)
  {
    hide OwnersSound, ChargesSound, FallBack;
    SettlementStartsNothing(j, j.turn.ticket.rec, now, reportAt);
    assert j.late == [];
  }

  lemma SpentRunsIdle(j: Job, step: Step)
    requires AttemptsSound(j) && LateIsSpent(j.recs, j.late) && Enabled(j, step) && step.RunLate?
    ensures !j.late[0].Settle? ==> Next(j, step) == j.(late := j.late[1..], clock := step.now)
    ensures LateIsSpent(Next(j, step).recs, Next(j, step).late)
  {
    hide OwnersSound, ChargesSound, OnSlice, SettleFailure, CloseoutHead;
    assert j.late[0] in j.late && Holds(j, j.late[0].rec, j.late[0].id);
    if j.late[0].Settle? {
      SettlementKeepsLate(j.(late := j.late[1..]), j.late[0].rec, step.now, step.reportAt);
    }
  }

  lemma SettlementKeepsLate(j: Job, rec: RecordId, now: int, reportAt: Option<int>)
    ensures SettleFailure(j, rec, now, reportAt).late == j.late && FallBack(j, rec, now, reportAt).late == j.late
  {
    hide FailAttempt, FailedNotBefore;
  }

  lemma PutKeepsLate(j: Job, s: Slot, anew: bool, mark: Option<Mark>)
    ensures Put(j, s, anew, mark).late == j.late
  {
  }

  lemma OperationKeepsLate(j: Job, op: Op, now: int)
    requires OpEnabled(j, op)
    ensures Operated(j, op, now).late == j.late
  {
    hide OpSlot, OpMark, OpIsFresh, OpEnabled, Put;
    PutKeepsLate(j, OpSlot(j, op, now), OpIsFresh(j, op), OpMark(j, op));
  }

  lemma CloseoutKeepsLate(j: Job, start: CloseoutStart, end: CloseoutEnd, now: int, reportAt: Option<int>)
    requires j.turn.Racing?
    ensures StartedCloseout(j, start, now).late == j.late
    ensures FinishedCloseout(j, j.turn.ticket.rec, end, now, reportAt).late == j.late
  {
    hide FallBack, OnSlice, Outstanding, IdleReview, BlockReview, PostedCloseout;
    SettlementKeepsLate(j, j.turn.ticket.rec, now, reportAt);
  }

  lemma BeginKeepsLate(j: Job, now: int)
    ensures BegunNext(j, now).late == j.late
  {
    hide Put, OnSlice, BeginAttempt, Outstanding;
    if BeginSupersedes(j) { PutKeepsLate(j, SlotOf(j).(cb := Some(Supersede(Current(j), now))), false, j.mark); }
  }

  lemma LateStays(j: Job, step: Step)
    requires Enabled(j, step) && !step.RaceTimesOut? && !step.RunLate?
    ensures Next(j, step).late == j.late || Next(j, step).late == []
  {
    hide Operated, OpEnabled, BegunNext, StartedCloseout, FinishedCloseout, SettleFailure, FallBack, Fenced,
         IsOutstanding, Runnable,
         Persisted, Restarted, MarkFits;
    match step
    case Operate(op, now) => OperationKeepsLate(j, op, now);
    case BeginNext(now) => BeginKeepsLate(j, now);
    case RunSettle(now, reportAt) => SettlementKeepsLate(j, j.turn.ticket.rec, now, reportAt);
    case StartCloseout(start, now, reportAt) => CloseoutKeepsLate(j, start, PostFailed, now, reportAt);
    case FinishCloseout(end, now, reportAt) => CloseoutKeepsLate(j, GoesIdle, end, now, reportAt);
    case _ =>
  }

  lemma {:induction false} RunKeepsSpent(j: Job, steps: seq<Step>)
    requires AttemptsSound(j) && LateIsSpent(j.recs, j.late) && Legal(j, steps)
    ensures AttemptsSound(Run(j, steps)) && LateIsSpent(Run(j, steps).recs, Run(j, steps).late)
    decreases |steps|
  {
    hide AttemptsSound, LateIsSpent, Next, Enabled;
    if steps != [] {
      StepKeepsAttempts(j, steps[0]);
      StepKeepsSpent(j, steps[0]);
      RunKeepsSpent(Next(j, steps[0]), steps[1..]);
    }
  }

  /**
   * In every interleaving, a closeout that was not done within its five seconds does nothing when the lock reaches it
   * later: it posts no reply, clears no counter and changes no record.
   */
  lemma LostCloseoutDoesNothing(threadId: ThreadId, clock: int, scope: Option<string>, steps: seq<Step>,
                                start: CloseoutStart, end: CloseoutEnd, now: int, reportAt: Option<int>)
    requires Legal(Init(threadId, clock, scope), steps)
    requires var j := Run(Init(threadId, clock, scope), steps);
             Enabled(j, RunLate(start, end, now, reportAt)) && !j.late[0].Settle?
    ensures var j := Run(Init(threadId, clock, scope), steps);
            Next(j, RunLate(start, end, now, reportAt)) == j.(late := j.late[1..], clock := now)
  {
    hide Legal, Run, LateIsSpent, Next, Enabled;
    var init := Init(threadId, clock, scope);
    assert LateIsSpent(init.recs, init.late) by { NothingIsSpent(init.recs); }
    assert AttemptsSound(init);
    RunKeepsSpent(init, steps);
    SpentRunsIdle(Run(init, steps), RunLate(start, end, now, reportAt));
  }

  lemma NothingIsSpent(recs: map<RecordId, Callback>)
    ensures LateIsSpent(recs, [])
  {
  }

  // ---------------------------------------------------------------- an attempt that has ended

  /** The attempt has been given out, and it is not under way. */
  predicate IsOver(j: Job, id: AttemptId) {
    id < j.nextId && (j.turn.Begun? || j.turn.Attempting? ==> j.turn.id != id)
  }

  /** The turn stays or goes on, unless a begin hands out the next attempt. */
  predicate TurnGoesOn(j: Job, k: Job) {
    k.nextId == j.nextId && (k.turn == j.turn || k.turn.Unselected? || k.turn.Racing?)
  }

  lemma SettlementKeepsTurn(j: Job, rec: RecordId, now: int, reportAt: Option<int>)
    ensures TurnGoesOn(j, FallBack(j, rec, now, reportAt)) && TurnGoesOn(j, SettleFailure(j, rec, now, reportAt))
  {
    hide FailAttempt, FailedNotBefore, Outstanding;
  }

  lemma OperationKeepsTurn(j: Job, op: Op, now: int)
    requires OpEnabled(j, op)
    ensures TurnGoesOn(j, Operated(j, op, now))
  {
    hide OpSlot, OpMark, OpIsFresh, OpEnabled;
  }

  lemma PutKeepsTurn(j: Job, s: Slot, anew: bool, mark: Option<Mark>)
    ensures TurnGoesOn(j, Put(j, s, anew, mark))
  {
  }

  lemma CloseoutPartsKeepTurn(j: Job, rec: RecordId, start: CloseoutStart, end: CloseoutEnd, now: int)
    ensures HasRecord(j) ==> TurnGoesOn(j, CloseoutHead(j, start, now))
    ensures TurnGoesOn(j, CloseoutTail(j, rec, end, now))
  {
    hide Put, IdleReview, BlockReview, PostedCloseout, Outstanding;
    if HasRecord(j) {
      var cb := match start
                case GoesIdle => IdleReview(Current(j), now)
                case IsGated(gate, reason, reportAt) => BlockReview(Current(j), gate, reason, reportAt, now)
                case StartsPost => Current(j);
      PutKeepsTurn(j, Slot(Some(cb), None, None), false, None);
      if end.PostDone? {
        var posted := PostedCloseout(Current(j), end.resolution, end.reportAt, end.postedAt, now);
        PutKeepsTurn(j, SlotOf(j).(cb := Some(posted)), false, j.mark);
      }
    }
  }

  lemma CloseoutTurnGoesOn(j: Job, start: CloseoutStart, end: CloseoutEnd, now: int, reportAt: Option<int>)
    requires j.turn.Racing?
    ensures TurnGoesOn(j, StartedCloseout(j, start, now))
    ensures TurnGoesOn(j, FinishedCloseout(j, j.turn.ticket.rec, end, now, reportAt))
  {
    hide FallBack, CloseoutHead, CloseoutTail, OnSlice, Outstanding;
    SettlementKeepsTurn(j, j.turn.ticket.rec, now, reportAt);
    CloseoutPartsKeepTurn(j, j.turn.ticket.rec, start, end, now);
  }

  lemma LateTurnGoesOn(j: Job, start: CloseoutStart, end: CloseoutEnd, now: int, reportAt: Option<int>)
    requires j.late != []
    ensures TurnGoesOn(j, LateRun(j, start, end, now, reportAt))
  {
    hide SettleFailure, OnSlice, Outstanding, IdleReview, BlockReview, PostedCloseout;
    SettlementKeepsTurn(j.(late := j.late[1..]), j.late[0].rec, now, reportAt);
  }

  lemma RestartEndsTurn(j: Job, reviewRecorded: bool, now: int)
    ensures TurnGoesOn(j, Reloaded(j, reviewRecorded, now))
  {
    hide Persisted, Restarted, MarkFits;
  }

  lemma StepKeepsOver(j: Job, step: Step, id: AttemptId)
    requires IsOver(j, id) && Enabled(j, step)
    ensures IsOver(Next(j, step), id)
  {
    hide Operated, OpEnabled, Reloaded, LateRun, SettleFailure, FallBack, StartedCloseout, FinishedCloseout, Runnable,
         Put, BeginAttempt,
         OnSlice, Outstanding;
    match step
    case Operate(op, now) => OperationKeepsTurn(j, op, now);
    case RunSettle(now, reportAt) => SettlementKeepsTurn(j, j.turn.ticket.rec, now, reportAt);
    case StartCloseout(start, now, reportAt) => CloseoutTurnGoesOn(j, start, PostFailed, now, reportAt);
    case FinishCloseout(end, now, reportAt) => CloseoutTurnGoesOn(j, GoesIdle, end, now, reportAt);
    case RaceTimesOut(now, reportAt) => SettlementKeepsTurn(j, j.turn.ticket.rec, now, reportAt);
    case RunLate(start, end, now, reportAt) => LateTurnGoesOn(j, start, end, now, reportAt);
    case Restart(reviewRecorded, now) => RestartEndsTurn(j, reviewRecorded, now);
    case BeginNext(now) => BeginHandsOutTheNext(j, now);
    case _ =>
  }

  lemma BeginHandsOutTheNext(j: Job, now: int)
    ensures var k := BegunNext(j, now);
            k.nextId >= j.nextId
              && (k.turn.Begun? ==> BeginsAttempt(j) && k.turn.id == j.nextId && k.nextId == j.nextId + 1)
            && !k.turn.Attempting? && (!k.turn.Begun? ==> k.turn.Unselected?)
  {
    hide OnSlice, BeginAttempt, Outstanding;
  }

  lemma {:induction false} RunKeepsOver(j: Job, steps: seq<Step>, id: AttemptId)
    requires IsOver(j, id) && Legal(j, steps)
    ensures IsOver(Run(j, steps), id)
    decreases |steps|
  {
    hide Next, Enabled, IsOver;
    if steps != [] {
      StepKeepsOver(j, steps[0], id);
      RunKeepsOver(Next(j, steps[0]), steps[1..], id);
    }
  }

  /**
   * An attempt that has failed, ended or been abandoned never acts again: whatever happens afterwards, its tools do not
   * get their guard back, although their calls may still be under way.
   */
  lemma EndedAttemptHasNoGuard(threadId: ThreadId, clock: int, scope: Option<string>, before: seq<Step>, step: Step,
                               steps: seq<Step>)
    requires Legal(Init(threadId, clock, scope), before)
    requires var j := Run(Init(threadId, clock, scope), before);
             Enabled(j, step) && (step.AttemptFails? || step.AttemptEnds? || step.Abandon?)
               && Legal(Next(j, step), steps)
    ensures var j := Run(Init(threadId, clock, scope), before);
            var k := Run(Next(j, step), steps);
            !(GuardCurrent(k) && k.turn.id == j.turn.id)
  {
    hide Legal, Run, OwnersSound, ChargesSound;
    var init := Init(threadId, clock, scope);
    assert AttemptsSound(init) by { BlankSlate(threadId, clock, scope); }
    RunKeepsAttempts(init, before);
    var j := Run(init, before);
    assert j.turn.id < j.nextId by { HeldIsGivenOut(j); }
    RunKeepsOver(Next(j, step), steps, j.turn.id);
  }

  lemma BlankSlate(threadId: ThreadId, clock: int, scope: Option<string>)
    ensures AttemptsSound(Init(threadId, clock, scope))
  {
  }

  lemma HeldIsGivenOut(j: Job)
    requires AttemptsSound(j) && (j.turn.Begun? || j.turn.Attempting?)
    ensures j.turn.id < j.nextId
  {
  }

  // ---------------------------------------------------------------- what a settlement may touch

  predicate SettlesTicket(j: Job, step: Step) {
    step.RunSettle? || step.FinishCloseout? || step.RaceTimesOut? || step.RunLate?
  }

  function SettledTicket(j: Job, step: Step): Ticket
    requires SettlesTicket(j, step) && Enabled(j, step)
  {
    if step.RunLate? then j.late[0] else j.turn.ticket
  }

  /** The step charges a failure outside the fence: only a closeout that failed or timed out does. */
  predicate FallsBack(j: Job, step: Step)
    requires SettlesTicket(j, step) && Enabled(j, step)
  {
    var ticket := SettledTicket(j, step);
    && ticket.rec in j.recs
    && j.recs[ticket.rec].review == Running
    && match step
       case FinishCloseout(end, _, _) => !(end.PostDone? && Fenced(j, ticket.rec))
       case RaceTimesOut(_, _) => !ticket.Settle?
       case _ => false
  }

  lemma ChargesStay(j: Job, rec: RecordId, start: CloseoutStart, end: CloseoutEnd, now: int, reportAt: Option<int>,
                    other: AttemptId)
    requires rec in j.recs && rec in j.owner && j.owner[rec] != other
    ensures ChargesOf(FallBack(j, rec, now, reportAt), other) == ChargesOf(j, other)
    ensures ChargesOf(SettleFailure(j, rec, now, reportAt), other) == ChargesOf(j, other)
    ensures ChargesOf(CloseoutTail(j, rec, end, now), other) == ChargesOf(j, other)
    ensures HasRecord(j) ==> ChargesOf(CloseoutHead(j, start, now), other) == ChargesOf(j, other)
  {
    hide FailAttempt, FailedNotBefore, IdleReview, BlockReview, PostedCloseout, Outstanding;
  }

  /** A settlement, in time or late, charges no attempt but its own. */
  lemma SettlementChargesItsOwnAttempt(j: Job, step: Step, other: AttemptId)
    requires AttemptsSound(j) && SettlesTicket(j, step) && Enabled(j, step)
    requires other != SettledTicket(j, step).id
    ensures ChargesOf(Next(j, step), other) == ChargesOf(j, other)
  {
    hide OwnersSound, ChargesSound, OnSlice, Outstanding, FallBack, SettleFailure, CloseoutHead, CloseoutTail;
    var ticket := SettledTicket(j, step);
    assert Holds(j, ticket.rec, ticket.id);
    match step
    case RunSettle(now, reportAt) => ChargesStay(j, ticket.rec, GoesIdle, PostFailed, now, reportAt, other);
    case FinishCloseout(end, now, reportAt) => ChargesStay(j, ticket.rec, GoesIdle, end, now, reportAt, other);
    case RaceTimesOut(now, reportAt) => ChargesStay(j, ticket.rec, GoesIdle, PostFailed, now, reportAt, other);
    case RunLate(start, end, now, reportAt) =>
      ChargesStay(j.(late := j.late[1..]), ticket.rec, start, end, now, reportAt, other);
  }

  /** What is done for a replaced record: nothing, but that a fallback charges it if it still says running. */
  lemma ReplacedIsIdle(j: Job, rec: RecordId, end: CloseoutEnd, now: int, reportAt: Option<int>)
    requires j.cur != Some(rec)
    ensures SettleFailure(j, rec, now, reportAt) == j && CloseoutTail(j, rec, end, now) == j && !Fenced(j, rec)
    ensures if rec in j.recs && j.recs[rec].review == Running then FallBack(j, rec, now, reportAt).recs != j.recs
            else FallBack(j, rec, now, reportAt) == j
  {
    hide FailedNotBefore;
    if rec in j.recs && j.recs[rec].review == Running {
      assert FallBack(j, rec, now, reportAt).recs[rec].review != Running;
    }
  }

  /**
   * A settlement whose record has been replaced leaves the records and both counters as they are,
   * exactly when it does not fall back to charging the attempt's own record.
   */
  lemma ReplacedRecordIsLeftAlone(j: Job, step: Step)
    requires AttemptsSound(j) && SettlesTicket(j, step) && Enabled(j, step)
    requires j.cur != Some(SettledTicket(j, step).rec)
    ensures FallsBack(j, step) <==>
            !(Next(j, step).recs == j.recs && Next(j, step).fails == j.fails && Next(j, step).notBefore == j.notBefore)
  {
    hide AttemptsSound, Fenced, OnSlice, FallBack, SettleFailure, CloseoutHead, CloseoutTail;
    var rec := SettledTicket(j, step).rec;
    match step
    case RunSettle(now, reportAt) => ReplacedIsIdle(j, rec, PostFailed, now, reportAt);
    case FinishCloseout(end, now, reportAt) => ReplacedIsIdle(j, rec, end, now, reportAt);
    case RaceTimesOut(now, reportAt) => ReplacedIsIdle(j, rec, PostFailed, now, reportAt);
    case RunLate(start, end, now, reportAt) => ReplacedIsIdle(j.(late := j.late[1..]), rec, end, now, reportAt);
  }
}
