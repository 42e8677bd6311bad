/**
 * When a review attempt may begin: the conditions checked at selection still hold at begin, however
 * long other jobs' attempts take in between, and failures are spaced by the backoff.
 */
module CallbackTiming {
  import opened Options
  import opened Callbacks
  import opened CallbackPersistence
  import opened CallbackProtocol

  // ---------------------------------------------------------------- from selection to begin

  /** No reservation made before the selection is still waiting for its dispatch on this record. */
  ghost predicate NoOldReservation(rs: seq<Reservation>, since: nat, cb: Callback)
    requires since <= |rs|
  {
    forall i | 0 <= i < since :: rs[i].requestedAt == cb.requestedAt ==> cb.dispatch == Ready
  }

  /** What selection established about a slot, as far as the steps until begin can change it. */
  ghost predicate StillSelectable(rs: seq<Reservation>, since: nat, at: int, s: Slot)
    requires since <= |rs|
  {
    s.notBefore.GetOr(0) <= at
    && (s.cb.Some? ==>
          && s.cb.value.review != Running
          && (s.cb.value.dispatch == Reserving
              ==> s.cb.value.review == Idle || (s.cb.value.review == Blocked && s.cb.value.block.Gated?))
          && NoOldReservation(rs, since, s.cb.value))
  }

  ghost predicate SelectionSound(j: Job) {
    j.turn.Selected? ==>
      && 0 <= j.turn.at <= j.clock
      && j.turn.since <= |j.reservations|
      && StillSelectable(j.reservations, j.turn.since, j.turn.at, SlotOf(j))
      && (forall i | j.turn.since <= i < |j.reservations| ::
            StillSelectable(j.reservations, j.turn.since, j.turn.at, j.reservations[i].saved))
  }

  /**
   * A rollback breaks into a selection: it takes back a reservation older than the selection, and puts back a slot that
   * is still reserved or was not yet due when the job was selected.
   */
  predicate OpBreaksSelection(j: Job, op: Op)
    requires OpEnabled(j, op)
  {
    && op.DoRollback? && j.turn.Selected? && op.index < j.turn.since && RollbackApplies(j, op.index)
    && var saved := j.reservations[op.index].saved;
       saved.notBefore.GetOr(0) > j.turn.at || (saved.cb.Some? && saved.cb.value.dispatch == Reserving)
  }

  predicate BreaksSelection(j: Job, step: Step)
    requires Enabled(j, step)
  {
    step.Operate? && OpBreaksSelection(j, step.op)
  }

  /** Such a rollback always comes late: the reservation it takes back no longer waits for its dispatch. */
  lemma BreakingRollbackIsLate(j: Job, step: Step)
    requires SelectionSound(j) && Enabled(j, step) && BreaksSelection(j, step)
    ensures HasRecord(j) && Current(j).dispatch == Ready
  {
    assert j.reservations[step.op.index].requestedAt == Current(j).requestedAt;
  }

  lemma OpStaysSelectable(j: Job, op: Op, now: int)
    requires SelectionSound(j) && j.turn.Selected? && OpEnabled(j, op)
    requires !OpBreaksSelection(j, op)
    ensures StillSelectable(j.reservations, j.turn.since, j.turn.at, OpSlot(j, op, now))
  {
    var s := SlotOf(j);
    var after := OpSlot(j, op, now);
    if op.DoRollback? && RollbackApplies(j, op.index) {
      assert !GuardKnown(j);
      hide GuardKnown;
      var saved := j.reservations[op.index].saved;
      if op.index >= j.turn.since {
        assert StillSelectable(j.reservations, j.turn.since, j.turn.at, saved);
      } else {
        assert saved.cb.Some? ==> saved.cb.value.dispatch == Ready;
      }
    } else if op.DoRegister? || op.DoReserve? {
      assert after.cb.value.requestedAt == op.reg.requestedAt;
    } else if op.DoStop? && s.cb.None? {
      StopIsReady(j, op.model, now);
    } else {
      SmallOpStaysSelectable(j, op, now);
    }
  }

  lemma StopIsReady(j: Job, model: string, now: int)
    ensures OpSlot(j, DoStop(model), now).cb.Some? && OpSlot(j, DoStop(model), now).notBefore == None
    ensures SlotOf(j).cb.None? ==> OpSlot(j, DoStop(model), now).cb.value.dispatch == Ready
    ensures OpSlot(j, DoStop(model), now).cb.value.review == Idle
  {
  }

  lemma SmallOpStaysSelectable(j: Job, op: Op, now: int)
    requires SelectionSound(j) && j.turn.Selected? && OpEnabled(j, op)
    requires !op.DoRegister? && !op.DoReserve?
    requires op.DoRollback? ==> !RollbackApplies(j, op.index)
    requires op.DoStop? ==> HasRecord(j)
    ensures StillSelectable(j.reservations, j.turn.since, j.turn.at, OpSlot(j, op, now))
  {
    hide NoOldReservation, GuardCurrent, GuardKnown, FreshTime;
    var s := SlotOf(j);
    var after := OpSlot(j, op, now);
    if s.cb.Some? && after.cb.Some? {
      assert after.cb.value.requestedAt == s.cb.value.requestedAt;
      assert after.cb.value.dispatch == s.cb.value.dispatch || after.cb.value.dispatch == Ready;
      OldReservationsStay(j.reservations, j.turn.since, s.cb.value, after.cb.value);
    }
  }

  lemma OldReservationsStay(rs: seq<Reservation>, since: nat, before: Callback, after: Callback)
    requires since <= |rs| && NoOldReservation(rs, since, before)
    requires after.requestedAt == before.requestedAt && (after.dispatch == before.dispatch || after.dispatch == Ready)
    ensures NoOldReservation(rs, since, after)
  {
  }

  lemma LaterReservationsDoNotMatter(rs: seq<Reservation>, more: seq<Reservation>, since: nat, at: int, s: Slot)
    requires since <= |rs|
    ensures StillSelectable(rs + more, since, at, s) <==> StillSelectable(rs, since, at, s)
  {
    assert forall i | 0 <= i < since :: (rs + more)[i] == rs[i];
  }

  lemma PutIsTheSlot(j: Job, s: Slot, anew: bool, mark: Option<Mark>)
    ensures SlotOf(Put(j, s, anew, mark)) == s
    ensures Put(j, s, anew, mark).turn == j.turn && Put(j, s, anew, mark).reservations == j.reservations
    ensures Put(j, s, anew, mark).mark == mark
  {
    hide Put;
    PutIsInPlace(j, s, anew, mark);
    PutKeepsTheRest(j, s, anew, mark);
  }

  lemma PutIsInPlace(j: Job, s: Slot, anew: bool, mark: Option<Mark>)
    ensures var k := Put(j, s, anew, mark);
            && k.fails == s.fails && k.notBefore == s.notBefore
            && if s.cb.None? then k.cur == None
               else k.cur.Some? && k.cur.value in k.recs && k.recs[k.cur.value] == s.cb.value
  {
  }

  lemma PutKeepsTheRest(j: Job, s: Slot, anew: bool, mark: Option<Mark>)
    ensures var k := Put(j, s, anew, mark); k.turn == j.turn && k.reservations == j.reservations && k.mark == mark
  {
  }

  lemma OperatedIsTheSlot(j: Job, op: Op, now: int)
    requires OpEnabled(j, op)
    ensures SlotOf(Operated(j, op, now)) == OpSlot(j, op, now)
    ensures Operated(j, op, now).turn == j.turn && Operated(j, op, now).mark == OpMark(j, op)
    ensures Operated(j, op, now).reservations ==
            j.reservations + if op.DoReserve? then [Reservation(op.reg.requestedAt, SlotOf(j), j.mark)] else []
  {
    hide OpSlot, OpMark, OpIsFresh, Put, OpEnabled;
    PutIsTheSlot(j, OpSlot(j, op, now), OpIsFresh(j, op), OpMark(j, op));
  }

  lemma OperateKeepsSelection(j: Job, op: Op, now: int)
    requires SelectionSound(j) && OpEnabled(j, op) && j.clock <= now
    requires !OpBreaksSelection(j, op)
    ensures SelectionSound(Operated(j, op, now).(clock := now))
  {
    hide OpSlot, Operated, OpMark, StillSelectable, OpEnabled;
    OperatedIsTheSlot(j, op, now);
    if j.turn.Selected? {
      var after := Operated(j, op, now);
      var more := if op.DoReserve? then [Reservation(op.reg.requestedAt, SlotOf(j), j.mark)] else [];
      OpStaysSelectable(j, op, now);
      LaterReservationsDoNotMatter(j.reservations, more, j.turn.since, j.turn.at, OpSlot(j, op, now));
      forall i | j.turn.since <= i < |after.reservations|
        ensures StillSelectable(after.reservations, j.turn.since, j.turn.at, after.reservations[i].saved)
      {
        LaterReservationsDoNotMatter(j.reservations, more, j.turn.since, j.turn.at, after.reservations[i].saved);
      }
    }
  }

  lemma SelectedIsNotRunning(j: Job)
    requires SelectionSound(j) && j.turn.Selected?
    ensures !IsRunning(j)
  {
  }

  lemma LateRunIsIdle(j: Job, start: CloseoutStart, end: CloseoutEnd, now: int, reportAt: Option<int>)
    requires j.late != [] && !IsRunning(j)
    ensures LateRun(j, start, end, now, reportAt) == j.(late := j.late[1..])
  {
  }

  lemma SameSelection(j: Job, k: Job)
    requires SelectionSound(j) && j.clock <= k.clock
    requires k.turn == j.turn && k.reservations == j.reservations && SlotOf(k) == SlotOf(j)
    ensures SelectionSound(k)
  {
    hide StillSelectable;
  }

  lemma SelectKeepsSelection(j: Job, at: int, now: int)
    requires Enabled(j, Select(at, now))
    ensures SelectionSound(Next(j, Select(at, now)))
  {
  }

  /** Every step keeps what selection established, unless it is a rollback that breaks into the selection. */
  lemma StepKeepsSelection(j: Job, step: Step)
    requires SelectionSound(j) && Enabled(j, step) && !BreaksSelection(j, step)
    ensures SelectionSound(Next(j, step))
  {
    hide Operated, OpEnabled, SelectionSound, Reloaded, LateRun, SettleFailure, FallBack, Put, CloseoutHead,
         CloseoutTail,
         Begin, OnSlice, Charge;
    match step
    case Operate(op, now) => OperateKeepsSelection(j, op, now);
    case Select(at, now) => SelectKeepsSelection(j, at, now);
    case RunLate(start, end, now, reportAt) =>
      if j.turn.Selected? {
        SelectedIsNotRunning(j);
        LateRunIsIdle(j, start, end, now, reportAt);
        SameSelection(j, Next(j, step));
      } else {
        LateKeepsTurn(j, start, end, now, reportAt);
        UnselectedIsSound(Next(j, step));
      }
    case ChangeScope(scope) => SameSelection(j, Next(j, step));
    case Save => SameSelection(j, Next(j, step));
    case Recover(now, reportAt) =>
      if j.turn.Selected? {
        SelectedIsNotRunning(j);
      } else {
        ChargeKeepsTurn(j, now, reportAt);
        UnselectedIsSound(Next(j, step));
      }
    case BeginNext(now) => BeginLeavesSelection(j, now); UnselectedIsSound(Next(j, step));
    case Restart(reviewRecorded, now) => RestartForgetsTurn(j, reviewRecorded, now); UnselectedIsSound(Next(j, step));
    case _ => UnselectedIsSound(Next(j, step));
  }

  lemma UnselectedIsSound(j: Job)
    requires !j.turn.Selected?
    ensures SelectionSound(j)
  {
  }

  lemma LateKeepsTurn(j: Job, start: CloseoutStart, end: CloseoutEnd, now: int, reportAt: Option<int>)
    requires j.late != []
    ensures LateRun(j, start, end, now, reportAt).turn == j.turn
  {
    hide OnSlice, Fenced, FailAttempt;
  }

  lemma ChargeKeepsTurn(j: Job, now: int, reportAt: Option<int>)
    requires HasRecord(j)
    ensures Charge(j, j.cur.value, now, reportAt).turn == j.turn
  {
  }

  lemma BeginLeavesSelection(j: Job, now: int)
    ensures !BegunNext(j, now).turn.Selected?
  {
    hide OnSlice, Outstanding, Put;
  }

  lemma RestartForgetsTurn(j: Job, reviewRecorded: bool, now: int)
    ensures Reloaded(j, reviewRecorded, now).turn == Unselected
  {
    hide Restarted, Persisted, MarkFits;
  }

  predicate KeepsSelections(j: Job, steps: seq<Step>)
    requires Legal(j, steps)
    decreases |steps|
  {
    steps != [] ==> !BreaksSelection(j, steps[0]) && KeepsSelections(Next(j, steps[0]), steps[1..])
  }

  lemma {:induction false} RunKeepsSelection(j: Job, steps: seq<Step>)
    requires SelectionSound(j) && Legal(j, steps) && KeepsSelections(j, steps)
    ensures SelectionSound(Run(j, steps))
    decreases |steps|
  {
    hide SelectionSound, Next, Enabled, BreaksSelection;
    if steps != [] {
      StepKeepsSelection(j, steps[0]);
      RunKeepsSelection(Next(j, steps[0]), steps[1..]);
    }
  }

  /** An attempt that begins finds its callback owed, dispatched, past its not-before time and on its slice. */
  predicate BeginsWell(j: Job, now: int) {
    && IsOutstanding(j)
    && Current(j).dispatch == Ready
    && j.notBefore.GetOr(0) <= now
    && OnSlice(Current(j), j.scope)
  }

  /**
   * Begin itself checks neither the dispatch nor the not-before time. Yet an attempt always begins well if no rollback
   * has broken into the selection it begins from, whatever else has happened since, and whatever happened before.
   */
  lemma EveryAttemptBeginsWell(j: Job, at: int, selectedAt: int, steps: seq<Step>, now: int)
    requires Enabled(j, Select(at, selectedAt)) && Legal(Next(j, Select(at, selectedAt)), steps)
    requires KeepsSelections(Next(j, Select(at, selectedAt)), steps)
    requires var k := Run(Next(j, Select(at, selectedAt)), steps); Enabled(k, BeginNext(now)) && BeginsAttempt(k)
    ensures BeginsWell(Run(Next(j, Select(at, selectedAt)), steps), now)
  {
    hide Legal, Run, KeepsSelections, OnSlice, NoOldReservation, Next;
    SelectKeepsSelection(j, at, selectedAt);
    RunKeepsSelection(Next(j, Select(at, selectedAt)), steps);
  }

  /**
   * An attempt that begins badly has such a rollback behind it: one that came after the selection it begins from, when
   * its reservation had been taken for dispatched, and that put back a slot which was reserved or not yet due.
   */
  lemma BadBeginFollowsALateRollback(j: Job, at: int, selectedAt: int, steps: seq<Step>, now: int) returns (k: nat)
    requires Enabled(j, Select(at, selectedAt)) && Legal(Next(j, Select(at, selectedAt)), steps)
    requires var k := Run(Next(j, Select(at, selectedAt)), steps);
             Enabled(k, BeginNext(now)) && BeginsAttempt(k) && !BeginsWell(k, now)
    ensures k < |steps| && Legal(Next(j, Select(at, selectedAt)), steps[..k])
    ensures var m := Run(Next(j, Select(at, selectedAt)), steps[..k]);
            Enabled(m, steps[k]) && BreaksSelection(m, steps[k]) && Current(m).dispatch == Ready
  {
    hide Legal, Run, KeepsSelections, OnSlice, NoOldReservation, SelectionSound, Next, BreaksSelection, BeginsWell;
    SelectKeepsSelection(j, at, selectedAt);
    if KeepsSelections(Next(j, Select(at, selectedAt)), steps) {
      EveryAttemptBeginsWell(j, at, selectedAt, steps, now);
    }
    k := FirstBreak(Next(j, Select(at, selectedAt)), steps);
  }

  // ---------------------------------------------------------------- every begin has its selection

  lemma OnlySelectSelects(j: Job, step: Step)
    requires Enabled(j, step) && !step.Select? && !j.turn.Selected?
    ensures !Next(j, step).turn.Selected?
  {
    hide Operated, OpEnabled, Reloaded, LateRun, BegunNext, Charge, IsOutstanding, Runnable, SettleFailure, FallBack,
         StartedCloseout,
         FinishedCloseout;
    match step
    case Operate(op, now) => OperatedIsTheSlot(j, op, now);
    case Recover(now, reportAt) => ChargeKeepsTurn(j, now, reportAt);
    case BeginNext(now) => BeginLeavesSelection(j, now);
    case StartCloseout(start, now, _) => ClosingSelectsNothing(j, start, PostFailed, now, None);
    case FinishCloseout(end, now, reportAt) => ClosingSelectsNothing(j, GoesIdle, end, now, reportAt);
    case RunLate(start, end, now, reportAt) => LateKeepsTurn(j, start, end, now, reportAt);
    case Restart(reviewRecorded, now) => RestartForgetsTurn(j, reviewRecorded, now);
    case _ =>
  }

  lemma ClosingSelectsNothing(j: Job, start: CloseoutStart, end: CloseoutEnd, now: int, reportAt: Option<int>)
    requires j.turn.Racing?
    ensures !StartedCloseout(j, start, now).turn.Selected?
    ensures !FinishedCloseout(j, j.turn.ticket.rec, end, now, reportAt).turn.Selected?
  {
    hide CloseoutHead, CloseoutTail, FallBack, OnSlice, Fenced;
  }

  lemma {:induction false} SplitRun(j: Job, steps: seq<Step>, i: nat)
    requires Legal(j, steps) && i <= |steps|
    ensures Legal(j, steps[..i]) && Legal(Run(j, steps[..i]), steps[i..])
    ensures Run(Run(j, steps[..i]), steps[i..]) == Run(j, steps)
    decreases i
  {
    hide Next, Enabled, Legal, Run;
    RunUnfolds(j, steps[..i]);
    RunUnfolds(j, steps);
    if i == 0 {
      assert steps[..0] == [] && steps[0..] == steps;
    } else {
      SplitRun(Next(j, steps[0]), steps[1..], i - 1);
      assert steps[..i][1..] == steps[1..][..i - 1] && steps[1..][i - 1..] == steps[i..];
    }
  }

  lemma RunUnfolds(j: Job, steps: seq<Step>)
    ensures Legal(j, steps) <==> steps == [] || (Enabled(j, steps[0]) && Legal(Next(j, steps[0]), steps[1..]))
    ensures Legal(j, steps) ==> Run(j, steps) == if steps == [] then j else Run(Next(j, steps[0]), steps[1..])
  {
    hide Next, Enabled;
  }

  lemma {:induction false} UnselectedStays(j: Job, steps: seq<Step>)
    requires Legal(j, steps) && !j.turn.Selected? && forall step <- steps :: !step.Select?
    ensures !Run(j, steps).turn.Selected?
    decreases |steps|
  {
    hide Next, Enabled;
    if steps != [] {
      assert steps[0] in steps && forall step <- steps[1..] :: step in steps;
      OnlySelectSelects(j, steps[0]);
      UnselectedStays(Next(j, steps[0]), steps[1..]);
    }
  }

  function LastSelect(steps: seq<Step>): (i: Option<nat>)
    ensures i.Some? ==>
            i.value < |steps| && steps[i.value].Select?
            && forall k :: i.value < k < |steps| ==> !steps[k].Select?
    ensures i.None? ==> forall step <- steps :: !step.Select?
  {
    if steps == [] then None
    else if steps[|steps| - 1].Select? then Some(|steps| - 1)
    else LastSelect(steps[..|steps| - 1])
  }

  /**
   * Every begin has a last selection before it, from which it follows without another; so the two theorems cover every
   * begin.
   */
  lemma EveryBeginWasSelected(threadId: ThreadId, clock: int, scope: Option<string>, steps: seq<Step>, now: int)
      returns (i: nat)
    requires Legal(Init(threadId, clock, scope), steps)
             && Enabled(Run(Init(threadId, clock, scope), steps), BeginNext(now))
    ensures i < |steps| && steps[i].Select? && forall k :: i < k < |steps| ==> !steps[k].Select?
    ensures Legal(Init(threadId, clock, scope), steps[..i])
    ensures var j := Run(Init(threadId, clock, scope), steps[..i]);
            && Enabled(j, steps[i]) && Legal(Next(j, steps[i]), steps[i + 1..])
            && Run(Next(j, steps[i]), steps[i + 1..]) == Run(Init(threadId, clock, scope), steps)
  {
    hide LastSelect;
    var init := Init(threadId, clock, scope);
    if LastSelect(steps).None? { UnselectedStays(init, steps); }
    i := LastSelect(steps).value;
    SplitRun(init, steps, i);
    assert steps[i..][0] == steps[i] && steps[i..][1..] == steps[i + 1..];
  }

  lemma {:induction false} FirstBreak(j: Job, steps: seq<Step>) returns (k: nat)
    requires SelectionSound(j) && Legal(j, steps) && !KeepsSelections(j, steps)
    ensures k < |steps| && Legal(j, steps[..k]) && Enabled(Run(j, steps[..k]), steps[k])
    ensures BreaksSelection(Run(j, steps[..k]), steps[k])
    ensures HasRecord(Run(j, steps[..k])) && Current(Run(j, steps[..k])).dispatch == Ready
    decreases |steps|
  {
    hide SelectionSound, Next, Enabled, BreaksSelection, HasRecord, Current;
    if BreaksSelection(j, steps[0]) {
      k := 0;
      BreakingRollbackIsLate(j, steps[0]);
    } else {
      StepKeepsSelection(j, steps[0]);
      var rest := FirstBreak(Next(j, steps[0]), steps[1..]);
      k := rest + 1;
      assert steps[..k][0] == steps[0] && steps[..k][1..] == steps[1..][..rest];
    }
  }

  /**
   * What a rollback does to the next begin: it makes it bad exactly when the slot it puts back is queued but reserved,
   * or queued and not yet due.
   */
  lemma LateRollbackMayBeginEarly(j: Job, index: nat, guarded: bool, now: int, later: int)
    requires index < |j.reservations| && RollbackApplies(j, index) && j.clock <= now <= later
    requires Enabled(j, Operate(DoRollback(index, guarded), now))
    ensures var k := Next(j, Operate(DoRollback(index, guarded), now));
            var saved := j.reservations[index].saved;
            (BeginsAttempt(k) && !BeginsWell(k, later)) <==>
            && saved.cb.Some? && Outstanding(saved.cb.value) && OnSlice(saved.cb.value, j.scope)
            && (saved.cb.value.review == Queued || (saved.cb.value.review == Running && !(guarded && GuardKnown(j))))
            && (saved.cb.value.dispatch == Reserving || saved.notBefore.GetOr(0) > later)
  {
    var op := DoRollback(index, guarded);
    OperatedIsTheSlot(j, op, now);
    var k := Next(j, Operate(op, now));
    assert k.scope == j.scope && SlotOf(k) == OpSlot(j, op, now);
    hide Put, OnSlice, GuardCurrent, GuardKnown, Operated;
  }

  // ---------------------------------------------------------------- the backoff

  ghost predicate MarksFit(j: Job) {
    && MarkFits(j.mark, j.fails, j.notBefore)
    && (forall r <- j.reservations :: MarkFits(r.mark, r.saved.fails, r.saved.notBefore))
  }

  lemma OpKeepsMarks(j: Job, op: Op, now: int)
    requires MarksFit(j) && OpEnabled(j, op)
    ensures MarkFits(OpMark(j, op), OpSlot(j, op, now).fails, OpSlot(j, op, now).notBefore)
  {
    if op.DoRollback? && RollbackApplies(j, op.index) {
      var r := j.reservations[op.index];
      assert r in j.reservations;
    }
    hide FreshTime, GuardCurrent, GuardKnown, BuildPending, Backoff, Outstanding;
  }

  lemma OperateKeepsMarks(j: Job, op: Op, now: int)
    requires MarksFit(j) && OpEnabled(j, op)
    ensures MarksFit(Operated(j, op, now).(clock := now))
  {
    hide OpSlot, Operated, OpMark, OpEnabled, MarkFits;
    OperatedIsTheSlot(j, op, now);
    OpKeepsMarks(j, op, now);
    var after := Operated(j, op, now);
    assert after.fails == SlotOf(after).fails && after.notBefore == SlotOf(after).notBefore;
  }

  lemma ChargeFits(j: Job, rec: RecordId, now: int, reportAt: Option<int>)
    requires MarksFit(j) && rec in j.recs
    ensures MarksFit(Charge(j, rec, now, reportAt))
    ensures Charge(j, rec, now, reportAt).mark == Some(Mark(now, FailedCount(j.fails)))
  {
    hide FailAttempt;
  }

  lemma PutFits(j: Job, s: Slot, anew: bool, mark: Option<Mark>)
    requires MarksFit(j) && MarkFits(mark, s.fails, s.notBefore)
    ensures MarksFit(Put(j, s, anew, mark))
  {
    hide MarkFits;
    PutIsTheSlot(j, s, anew, mark);
    var put := Put(j, s, anew, mark);
    assert put.fails == SlotOf(put).fails && put.notBefore == SlotOf(put).notBefore;
  }

  lemma SameMarks(j: Job, k: Job)
    requires MarksFit(j) && k.mark == j.mark && k.fails == j.fails && k.notBefore == j.notBefore
             && k.reservations == j.reservations
    ensures MarksFit(k)
  {
  }

  lemma BeginNextKeepsMarks(j: Job, now: int)
    requires MarksFit(j)
    ensures MarksFit(BegunNext(j, now))
  {
    hide MarksFit, Put, BeginAttempt, OnSlice;
    if BeginsAttempt(j) {
      SameMarks(j, BegunNext(j, now));
    } else if BeginSupersedes(j) {
      assert MarkFits(j.mark, j.fails, j.notBefore) by { assert MarksFit(j); MarkOf(j); }
      PutFits(j, SlotOf(j).(cb := Some(Supersede(Current(j), now))), false, j.mark);
      SameMarks(Put(j, SlotOf(j).(cb := Some(Supersede(Current(j), now))), false, j.mark), BegunNext(j, now));
    } else {
      SameMarks(j, BegunNext(j, now));
    }
  }

  lemma MarkOf(j: Job)
    requires MarksFit(j)
    ensures MarkFits(j.mark, j.fails, j.notBefore)
  {
  }

  lemma NoMarkFits()
    ensures forall fails, notBefore :: MarkFits(None, fails, notBefore)
  {
  }

  lemma CloseoutFits(j: Job, rec: RecordId, start: CloseoutStart, end: CloseoutEnd, now: int, reportAt: Option<int>)
    requires MarksFit(j)
    ensures HasRecord(j) ==> MarksFit(CloseoutHead(j, start, now))
    ensures MarksFit(CloseoutTail(j, rec, end, now))
    ensures MarksFit(FallBack(j, rec, now, reportAt)) && MarksFit(SettleFailure(j, rec, now, reportAt))
  {
    hide MarksFit, MarkFits, Put, FailAttempt, IdleReview, BlockReview, PostedCloseout, FailedNotBefore;
    MarkOf(j);
    if HasRecord(j) {
      var cb := match start
                case GoesIdle => IdleReview(Current(j), now)
                case IsGated(gate, reason, at) => BlockReview(Current(j), gate, reason, at, now)
                case StartsPost => Current(j);
      NoMarkFits();
      PutFits(j, Slot(Some(cb), None, None), false, None);
      if end.PostDone? {
        PutFits(j, SlotOf(j).(cb := Some(PostedCloseout(Current(j), end.resolution, end.reportAt, end.postedAt, now))),
                false, j.mark);
      }
    }
    if rec in j.recs { ChargeFits(j, rec, now, reportAt); }
  }

  lemma LateKeepsMarks(j: Job, start: CloseoutStart, end: CloseoutEnd, now: int, reportAt: Option<int>)
    requires MarksFit(j) && j.late != []
    ensures MarksFit(LateRun(j, start, end, now, reportAt))
  {
    hide MarksFit, SettleFailure, CloseoutHead, CloseoutTail, OnSlice;
    var rest := j.(late := j.late[1..]);
    SameMarks(j, rest);
    CloseoutFits(rest, j.late[0].rec, start, end, now, reportAt);
    if j.late[0].Terminal? && CloseoutRuns(rest, j.late[0].rec) && start.StartsPost? {
      SameMarks(CloseoutHead(rest, start, now), LateRun(j, start, end, now, reportAt));
    }
  }

  lemma RaceKeepsMarks(j: Job, step: Step)
    requires MarksFit(j) && Enabled(j, step)
    requires step.RunSettle? || step.StartCloseout? || step.FinishCloseout? || step.RaceTimesOut?
    ensures MarksFit(Stepped(j, step))
  {
    hide MarksFit, SettleFailure, CloseoutHead, CloseoutTail, FallBack, OnSlice;
    var rec := j.turn.ticket.rec;
    match step
    case RunSettle(now, reportAt) =>
      CloseoutFits(j, rec, GoesIdle, PostFailed, now, reportAt);
      SameMarks(SettleFailure(j, rec, now, reportAt), Stepped(j, step));
    case StartCloseout(start, now, reportAt) =>
      CloseoutFits(j, rec, start, PostFailed, now, reportAt);
      SameMarks(if CloseoutRuns(j, rec) then CloseoutHead(j, start, now) else j, Stepped(j, step));
    case FinishCloseout(end, now, reportAt) =>
      CloseoutFits(j, rec, GoesIdle, end, now, reportAt);
      SameMarks(
        if end.PostDone? && Fenced(j, rec) then CloseoutTail(j, rec, end, now) else FallBack(j, rec, now, reportAt),
        Stepped(j, step));
    case RaceTimesOut(now, reportAt) =>
      CloseoutFits(j, rec, GoesIdle, PostFailed, now, reportAt);
      SameMarks(if j.turn.ticket.Settle? then j else FallBack(j, rec, now, reportAt), Stepped(j, step));
  }

  lemma RestartKeepsMarks(j: Job, reviewRecorded: bool, now: int)
    requires MarksFit(j)
    ensures MarksFit(Reloaded(j, reviewRecorded, now))
  {
    hide MarkFits, Persisted, Restarted, Put;
    var s := if j.disk.Some? then Restarted(Persisted(j.disk.value), reviewRecorded, now) else Slot(None, None, None);
    var mark := if s.fails.Some? && MarkFits(j.diskMark, s.fails, s.notBefore) then j.diskMark else None;
    NoMarkFits();
    assert MarksFit(Blank(j).(mark := None));
    PutFits(Blank(j).(mark := None), s, true, mark);
    assert Put(Blank(j).(mark := None), s, true, mark) == Put(Blank(j), s, true, mark) by {
      PutIgnoresMark(Blank(j), s, mark);
    }
  }

  lemma PutIgnoresMark(j: Job, s: Slot, mark: Option<Mark>)
    ensures Put(j.(mark := None), s, true, mark) == Put(j, s, true, mark)
  {
  }

  /** Every step keeps the counters in agreement with the last failure counted. */
  lemma StepKeepsMarks(j: Job, step: Step)
    requires MarksFit(j) && Enabled(j, step)
    ensures MarksFit(Next(j, step))
  {
    hide MarksFit, Operated, OpEnabled, Reloaded, LateRun, SettleFailure, StartedCloseout, FinishedCloseout, TimedOut,
         BegunNext, Charge,
         Runnable;
    match step {
      case Operate(op, now) => OperateKeepsMarks(j, op, now);
      case Recover(now, reportAt) => ChargeFits(j, j.cur.value, now, reportAt);
      case BeginNext(now) => BeginNextKeepsMarks(j, now);
      case RunSettle(_, _) => RaceKeepsMarks(j, step);
      case StartCloseout(_, _, _) => RaceKeepsMarks(j, step);
      case FinishCloseout(_, _, _) => RaceKeepsMarks(j, step);
      case RaceTimesOut(_, _) => RaceKeepsMarks(j, step);
      case RunLate(start, end, now, reportAt) => LateKeepsMarks(j, start, end, now, reportAt);
      case Restart(reviewRecorded, now) => RestartKeepsMarks(j, reviewRecorded, now);
      case _ => SameMarks(j, Stepped(j, step));
    }
    if !step.Operate? { SameMarks(Stepped(j, step), Next(j, step)); }
  }

  lemma {:induction false} RunKeepsMarks(j: Job, steps: seq<Step>)
    requires MarksFit(j) && Legal(j, steps)
    ensures MarksFit(Run(j, steps))
    decreases |steps|
  {
    hide MarksFit, Next, Enabled;
    if steps != [] {
      StepKeepsMarks(j, steps[0]);
      RunKeepsMarks(Next(j, steps[0]), steps[1..]);
    }
  }

  /**
   * After failure f (f = 1 or 2) at time T, with the count not cleared since, the next attempt is attempt f + 1 and
   * begins no earlier than T + 30000 * 2^(f - 1), in every life in which no rollback has broken into the selection it
   * begins from.
   */
  lemma AttemptsAreSpaced(threadId: ThreadId, clock: int, scope: Option<string>, before: seq<Step>, at: int,
                          selectedAt: int,
                          steps: seq<Step>, now: int)
    requires Legal(Init(threadId, clock, scope), before)
    requires var j := Run(Init(threadId, clock, scope), before);
             && Enabled(j, Select(at, selectedAt)) && Legal(Next(j, Select(at, selectedAt)), steps)
             && KeepsSelections(Next(j, Select(at, selectedAt)), steps)
             && var k := Run(Next(j, Select(at, selectedAt)), steps);
                Enabled(k, BeginNext(now)) && BeginsAttempt(k) && k.mark.Some? && k.mark.value.index < MAX_ATTEMPTS
    ensures var k := Run(Next(Run(Init(threadId, clock, scope), before), Select(at, selectedAt)), steps);
            && k.mark.value.index >= 1
            && now >= k.mark.value.at + 30_000 * Pow2(k.mark.value.index - 1)
            && IsRunning(Next(k, BeginNext(now)))
            && Current(Next(k, BeginNext(now))).attempt == k.mark.value.index + 1
  {
    hide Legal, Run, KeepsSelections, OnSlice, SelectionSound;
    var j := Run(Init(threadId, clock, scope), before);
    EveryAttemptBeginsWell(j, at, selectedAt, steps, now);
    NoMarkFits();
    RunKeepsMarks(Init(threadId, clock, scope), before);
    StepKeepsMarks(j, Select(at, selectedAt));
    RunKeepsMarks(Next(j, Select(at, selectedAt)), steps);
    MarkOf(Run(Next(j, Select(at, selectedAt)), steps));
    BegunAttempt(Run(Next(j, Select(at, selectedAt)), steps), now);
  }

  /** Every count of failures, live or saved with a reservation, has the failure on record that it counts up to. */
  ghost predicate CountsAreMarked(j: Job) {
    && (j.fails.Some? ==> j.mark.Some?)
    && (forall r <- j.reservations :: r.saved.fails.Some? ==> r.mark.Some?)
  }

  lemma OperateKeepsMarked(j: Job, op: Op, now: int)
    requires CountsAreMarked(j) && OpEnabled(j, op)
    ensures CountsAreMarked(Operated(j, op, now))
  {
    hide Operated, OpEnabled;
    OperatedIsTheSlot(j, op, now);
    assert Operated(j, op, now).fails == SlotOf(Operated(j, op, now)).fails;
    assert OpSlot(j, op, now).fails.Some? ==> OpMark(j, op).Some? by { OpIsMarked(j, op, now); }
  }

  lemma OpIsMarked(j: Job, op: Op, now: int)
    requires CountsAreMarked(j) && OpEnabled(j, op)
    ensures OpSlot(j, op, now).fails.Some? ==> OpMark(j, op).Some?
  {
    if op.DoRollback? { assert j.reservations[op.index] in j.reservations; }
    hide FreshTime, GuardCurrent, GuardKnown, BuildPending, Outstanding;
  }

  /** The runner leaves count and mark as they are, sets both, or clears both. */
  predicate SameCount(j: Job, k: Job) {
    && k.reservations == j.reservations
    && ((k.fails == j.fails && k.mark == j.mark) || (k.fails.Some? && k.mark.Some?)
        || (k.fails == None && k.mark == None))
  }

  lemma RunnerKeepsCount(j: Job, rec: RecordId, start: CloseoutStart, end: CloseoutEnd, now: int, reportAt: Option<int>)
    ensures SameCount(j, FallBack(j, rec, now, reportAt)) && SameCount(j, SettleFailure(j, rec, now, reportAt))
    ensures HasRecord(j) ==> SameCount(j, CloseoutHead(j, start, now))
    ensures SameCount(j, CloseoutTail(j, rec, end, now)) && SameCount(j, BegunNext(j, now))
  {
    PutKeepsCount(j);
    BeginKeepsCount(j, now);
    hide FailAttempt, FailedNotBefore, Outstanding, Put, BegunNext;
  }

  lemma PutKeepsCount(j: Job)
    ensures forall s, anew, mark ::
              var k := Put(j, s, anew, mark);
              k.fails == s.fails && k.mark == mark && k.reservations == j.reservations
  {
  }

  lemma BeginKeepsCount(j: Job, now: int)
    ensures SameCount(j, BegunNext(j, now))
  {
    PutKeepsCount(j);
    hide OnSlice, Outstanding, Put;
  }

  lemma LateKeepsCount(j: Job, start: CloseoutStart, end: CloseoutEnd, now: int, reportAt: Option<int>)
    requires j.late != []
    ensures SameCount(j, LateRun(j, start, end, now, reportAt))
  {
    hide SettleFailure, CloseoutHead, CloseoutTail, OnSlice, Outstanding;
    RunnerKeepsCount(j.(late := j.late[1..]), j.late[0].rec, start, end, now, reportAt);
  }

  lemma StepKeepsMarked(j: Job, step: Step)
    requires CountsAreMarked(j) && Enabled(j, step) && !step.Restart?
    ensures CountsAreMarked(Next(j, step))
  {
    hide Operated, OpEnabled, LateRun, SettleFailure, FallBack, CloseoutHead, CloseoutTail, BegunNext, OnSlice,
         Runnable,
         Outstanding;
    match step {
      case Operate(op, now) => OperateKeepsMarked(j, op, now);
      case Recover(now, reportAt) =>
      case BeginNext(now) => RunnerKeepsCount(j, 0, GoesIdle, PostFailed, now, None);
      case RunSettle(now, reportAt) => RunnerKeepsCount(j, j.turn.ticket.rec, GoesIdle, PostFailed, now, reportAt);
      case StartCloseout(start, now, reportAt) =>
        RunnerKeepsCount(j, j.turn.ticket.rec, start, PostFailed, now, reportAt);
      case FinishCloseout(end, now, reportAt) =>
        RunnerKeepsCount(j, j.turn.ticket.rec, GoesIdle, end, now, reportAt);
      case RaceTimesOut(now, reportAt) => RunnerKeepsCount(j, j.turn.ticket.rec, GoesIdle, PostFailed, now, reportAt);
      case RunLate(start, end, now, reportAt) => LateKeepsCount(j, start, end, now, reportAt);
      case _ =>
    }
  }

  /**
   * In a life without a restart every count of failures has its last failure on record, so that what is said of a
   * marked count in AttemptsAreSpaced holds for every count.
   */
  lemma {:induction false} EveryCountIsMarked(j: Job, steps: seq<Step>)
    requires CountsAreMarked(j) && Legal(j, steps) && forall step <- steps :: !step.Restart?
    ensures CountsAreMarked(Run(j, steps))
    decreases |steps|
  {
    hide CountsAreMarked, Next, Enabled;
    if steps != [] {
      assert steps[0] in steps && forall step <- steps[1..] :: step in steps;
      StepKeepsMarked(j, steps[0]);
      EveryCountIsMarked(Next(j, steps[0]), steps[1..]);
    }
  }

  lemma BegunAttempt(j: Job, now: int)
    requires Enabled(j, BeginNext(now)) && BeginsAttempt(j)
    ensures IsRunning(Next(j, BeginNext(now))) && Current(Next(j, BeginNext(now))).attempt == j.fails.GetOr(0) + 1
  {
    hide OnSlice;
  }

  /**
   * The failure after failure f is failure f + 1; from the third on the record is left blocked, before
   * that it waits to retry until the announced time.
   */
  lemma FailuresAreCounted(j: Job, rec: RecordId, now: int, reportAt: Option<int>)
    requires MarksFit(j) && rec in j.recs
    ensures var k := Charge(j, rec, now, reportAt);
            && k.mark.Some? && k.mark.value.at == now && k.mark.value.index >= 1
            && (j.mark.Some? ==> k.mark.value.index == j.mark.value.index + 1)
            && (k.mark.value.index >= 3 ==> k.recs[rec].review == Blocked && k.notBefore == j.notBefore)
            && (k.mark.value.index < 3 ==>
                  && InRetryWait(k.recs[rec])
                  && k.notBefore == Some(now + 30_000 * Pow2(k.mark.value.index - 1))
                  && k.recs[rec].nextAttemptAt == k.notBefore)
  {
    MarkOf(j);
  }
}
