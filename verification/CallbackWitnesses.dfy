/**
 * Short histories in which the protocol does not do what its fences suggest. Each lemma extends the
 * history before it by one step; the last of each chain says what has gone wrong.
 */
module CallbackWitnesses {
  import opened Options
  import opened Callbacks
  import opened CallbackPersistence
  import opened CallbackProtocol
  import opened CallbackRollback

  function Start(): Job {
    Init("job", 0, None)
  }

  function Reg(requestedAt: int, dispatch: DispatchState): Registration {
    Registration(requestedAt, None, false, None, Review, dispatch, InheritSlice, "")
  }

  /** `steps` is a legal history from the start, and `j` is where it ends. */
  predicate Reaches(steps: seq<Step>, j: Job) {
    Legal(Start(), steps) && Run(Start(), steps) == j
  }

  lemma {:induction false} RunSnoc(j: Job, steps: seq<Step>, step: Step)
    requires Legal(j, steps) && Enabled(Run(j, steps), step)
    ensures Legal(j, steps + [step]) && Run(j, steps + [step]) == Next(Run(j, steps), step)
    decreases |steps|
  {
    hide Next, Enabled;
    if steps == [] {
      assert [step][1..] == [];
    } else {
      RunSnoc(Next(j, steps[0]), steps[1..], step);
      assert (steps + [step])[1..] == steps[1..] + [step];
    }
  }

  lemma Extend(steps: seq<Step>, j: Job, step: Step)
    requires Reaches(steps, j) && Enabled(j, step)
    ensures Reaches(steps + [step], Next(j, step))
  {
    hide Next, Enabled, Start;
    RunSnoc(Start(), steps, step);
  }

  // ---------------------------------------------------------------- up to the first attempt

  lemma Started() returns (steps: seq<Step>, j: Job)
    ensures Reaches(steps, j) && j == Start()
  {
    steps, j := [], Start();
  }

  lemma Registered() returns (steps: seq<Step>, j: Job)
    ensures Reaches(steps, j)
    ensures HasRecord(j) && j.cur == Some(0) && j.nextRec == 1 && j.recs.Keys == {0} && j.late == []
            && j.reservations == [] && j.scope == None
    ensures j.fails == None && j.notBefore == None && j.clock == 1 && j.turn == Unselected && j.owner == map[]
            && j.nextId == 0
    ensures Outstanding(Current(j)) && Current(j).dispatch == Ready && Current(j).state == Waiting
            && Current(j).workSlice == None
  {
    hide Reaches;
    var before: Job;
    steps, before := Started();
    Extend(steps, before, Operate(DoRegister(Reg(1, Ready)), 1));
    steps, j := steps + [Operate(DoRegister(Reg(1, Ready)), 1)], Next(before, Operate(DoRegister(Reg(1, Ready)), 1));
  }

  lemma Reported() returns (steps: seq<Step>, j: Job)
    ensures Reaches(steps, j)
    ensures HasRecord(j) && j.cur == Some(0) && j.nextRec == 1 && j.recs.Keys == {0} && j.late == []
            && j.reservations == [] && j.scope == None
    ensures j.fails == None && j.notBefore == None && j.clock == 2 && j.turn == Unselected && j.owner == map[]
            && j.nextId == 0
    ensures Outstanding(Current(j)) && Current(j).dispatch == Ready && Current(j).review == Queued
            && Current(j).workSlice == None
  {
    hide Reaches;
    var before: Job;
    steps, before := Registered();
    Extend(steps, before, Operate(DoReconcileState(SeesReport, false, Some(2)), 2));
    steps, j := steps + [Operate(DoReconcileState(SeesReport, false, Some(2)), 2)],
      Next(before, Operate(DoReconcileState(SeesReport, false, Some(2)), 2));
  }

  lemma FirstSelected() returns (steps: seq<Step>, j: Job)
    ensures Reaches(steps, j)
    ensures HasRecord(j) && j.cur == Some(0) && j.nextRec == 1 && j.recs.Keys == {0} && j.late == []
            && j.reservations == [] && j.scope == None
    ensures j.fails == None && j.notBefore == None && j.clock == 3 && j.turn == Selected(3, 0) && j.owner == map[]
            && j.nextId == 0
    ensures Outstanding(Current(j)) && Current(j).review == Queued && Current(j).workSlice == None
            && Current(j).dispatch == Ready
  {
    hide Reaches;
    var before: Job;
    steps, before := Reported();
    Extend(steps, before, Select(3, 3));
    steps, j := steps + [Select(3, 3)], Next(before, Select(3, 3));
  }

  lemma FirstBegun() returns (steps: seq<Step>, j: Job)
    ensures Reaches(steps, j)
    ensures HasRecord(j) && j.cur == Some(0) && j.nextRec == 1 && j.recs.Keys == {0} && j.late == []
            && j.reservations == [] && j.scope == None
    ensures j.fails == None && j.notBefore == None && j.clock == 4 && j.turn == Begun(0, 0)
    ensures Outstanding(Current(j)) && Current(j).review == Running && Current(j).workSlice == None
            && Current(j).dispatch == Ready && Current(j).attempt == 1
  {
    hide Reaches;
    var before: Job;
    steps, before := FirstSelected();
    Extend(steps, before, BeginNext(4));
    steps, j := steps + [BeginNext(4)], Next(before, BeginNext(4));
  }

  lemma FirstAttempt() returns (steps: seq<Step>, j: Job)
    ensures Reaches(steps, j)
    ensures HasRecord(j) && j.cur == Some(0) && j.nextRec == 1 && j.recs.Keys == {0} && j.late == []
            && j.reservations == [] && j.scope == None
    ensures j.fails == None && j.notBefore == None && j.clock == 4 && j.turn == Attempting(0, 0)
    ensures Outstanding(Current(j)) && Current(j).review == Running && Current(j).workSlice == None
            && Current(j).dispatch == Ready && Current(j).attempt == 1
  {
    hide Reaches;
    var before: Job;
    steps, before := FirstBegun();
    Extend(steps, before, Activate);
    steps, j := steps + [Activate], Next(before, Activate);
  }

  // ---------------------------------------------------------------- a replaced record is charged

  lemma Ended() returns (steps: seq<Step>, j: Job)
    ensures Reaches(steps, j)
    ensures HasRecord(j) && j.cur == Some(0) && j.nextRec == 1 && j.recs.Keys == {0} && j.late == []
            && j.reservations == [] && j.scope == None
    ensures j.fails == None && j.notBefore == None && j.clock == 4 && j.turn == Racing(Terminal(0, 0), 4)
    ensures Outstanding(Current(j)) && Current(j).review == Running && Current(j).workSlice == None
  {
    hide Reaches;
    var before: Job;
    steps, before := FirstAttempt();
    Extend(steps, before, AttemptEnds(4));
    steps, j := steps + [AttemptEnds(4)], Next(before, AttemptEnds(4));
  }

  lemma Replaced() returns (steps: seq<Step>, j: Job)
    ensures Reaches(steps, j)
    ensures HasRecord(j) && j.cur == Some(1) && Current(j).review == Idle && Current(j).requestedAt == 5
            && Current(j).attempt == 0
    ensures 0 in j.recs && j.recs[0].review == Running
    ensures j.fails == None && j.notBefore == None && j.clock == 5 && j.turn == Racing(Terminal(0, 0), 4)
            && j.late == []
  {
    hide Reaches;
    var before: Job;
    steps, before := Ended();
    Extend(steps, before, Operate(DoRegister(Reg(5, Ready)), 5));
    steps, j := steps + [Operate(DoRegister(Reg(5, Ready)), 5)], Next(before, Operate(DoRegister(Reg(5, Ready)), 5));
  }

  /**
   * An attempt ends well, its job is registered anew, and the closeout of the old record is not done
   * within five seconds: the new registration, on which nothing has ever run, counts one failure and must wait.
   */
  lemma NewRegistrationInheritsAFailure() returns (steps: seq<Step>, j: Job)
    ensures Reaches(steps, j)
    ensures HasRecord(j) && Current(j).requestedAt == 5 && Current(j).review == Idle && Current(j).attempt == 0
    ensures j.fails == Some(1) && j.notBefore == Some(35_004)
  {
    hide Reaches;
    var before: Job;
    steps, before := Replaced();
    assert Pow2(0) == 1;
    Extend(steps, before, RaceTimesOut(5_004, None));
    steps, j := steps + [RaceTimesOut(5_004, None)], Next(before, RaceTimesOut(5_004, None));
  }

  // ---------------------------------------------------------------- a late rollback

  /** The slot of a job whose first attempt failed at 5. */
  predicate FailedOnce(s: Slot) {
    && s.fails == Some(1) && s.notBefore == Some(30_005)
    && s.cb.Some? && Outstanding(s.cb.value) && InRetryWait(s.cb.value) && s.cb.value.attempt == 1
    && s.cb.value.workSlice == None
    && s.cb.value.nextAttemptAt == Some(30_005) && s.cb.value.dispatch == Ready
  }

  lemma Failed() returns (steps: seq<Step>, j: Job)
    ensures Reaches(steps, j)
    ensures HasRecord(j) && j.cur == Some(0) && j.nextRec == 1 && j.recs.Keys == {0} && j.late == []
            && j.reservations == [] && j.scope == None
    ensures j.fails == None && j.notBefore == None && j.clock == 4 && j.turn == Racing(Settle(0, 0), 4)
    ensures Outstanding(Current(j)) && Current(j).review == Running && Current(j).workSlice == None
            && Current(j).dispatch == Ready && Current(j).attempt == 1
  {
    hide Reaches;
    var before: Job;
    steps, before := FirstAttempt();
    Extend(steps, before, AttemptFails(4));
    steps, j := steps + [AttemptFails(4)], Next(before, AttemptFails(4));
  }

  lemma Counted() returns (steps: seq<Step>, j: Job)
    ensures Reaches(steps, j)
    ensures HasRecord(j) && j.cur == Some(0) && j.nextRec == 1 && j.recs.Keys == {0} && j.late == []
            && j.reservations == [] && j.scope == None
    ensures FailedOnce(SlotOf(j)) && j.clock == 5 && j.turn == Unselected
  {
    hide Reaches;
    var before: Job;
    steps, before := Failed();
    assert Pow2(0) == 1;
    Extend(steps, before, RunSettle(5, None));
    steps, j := steps + [RunSettle(5, None)], Next(before, RunSettle(5, None));
  }

  lemma Reserved() returns (steps: seq<Step>, j: Job)
    ensures Reaches(steps, j)
    ensures |j.reservations| == 1 && j.reservations[0].requestedAt == 6 && FailedOnce(j.reservations[0].saved)
    ensures HasRecord(j) && j.cur == Some(1) && j.nextRec == 2 && j.late == [] && j.scope == None
            && Current(j).workSlice == None
    ensures j.fails == None && j.notBefore == None && j.clock == 6 && j.turn == Unselected
    ensures Outstanding(Current(j)) && Current(j).dispatch == Reserving && Current(j).review == Idle
            && Current(j).requestedAt == 6
    ensures Current(j).state == Waiting && Current(j).acceptedTurn == None
  {
    hide Reaches;
    var before: Job;
    steps, before := Counted();
    Extend(steps, before, Operate(DoReserve(Reg(6, Reserving), false), 6));
    steps, j := steps + [Operate(DoReserve(Reg(6, Reserving), false), 6)],
      Next(before, Operate(DoReserve(Reg(6, Reserving), false), 6));
  }

  lemma Noticed() returns (steps: seq<Step>, j: Job)
    ensures Reaches(steps, j)
    ensures |j.reservations| == 1 && j.reservations[0].requestedAt == 6 && FailedOnce(j.reservations[0].saved)
    ensures HasRecord(j) && j.cur == Some(1) && j.nextRec == 2 && j.late == [] && j.scope == None
            && Current(j).workSlice == None
    ensures j.fails == None && j.notBefore == None && j.clock == 7 && j.turn == Unselected
    ensures Outstanding(Current(j)) && Current(j).dispatch == Ready && Current(j).review == Idle
            && Current(j).requestedAt == 6 && Current(j).state == Waiting
  {
    hide Reaches;
    var before: Job;
    steps, before := Reserved();
    Extend(steps, before, Operate(DoReconcileDispatch(Some("turn")), 7));
    steps, j := steps + [Operate(DoReconcileDispatch(Some("turn")), 7)],
      Next(before, Operate(DoReconcileDispatch(Some("turn")), 7));
  }

  lemma ReportedAgain() returns (steps: seq<Step>, j: Job)
    ensures Reaches(steps, j)
    ensures |j.reservations| == 1 && j.reservations[0].requestedAt == 6 && FailedOnce(j.reservations[0].saved)
    ensures HasRecord(j) && j.cur == Some(1) && j.nextRec == 2 && j.late == [] && j.scope == None
            && Current(j).workSlice == None
    ensures j.fails == None && j.notBefore == None && j.clock == 8 && j.turn == Unselected
    ensures Outstanding(Current(j)) && Current(j).dispatch == Ready && Current(j).review == Queued
            && Current(j).requestedAt == 6
  {
    hide Reaches;
    var before: Job;
    steps, before := Noticed();
    Extend(steps, before, Operate(DoReconcileState(SeesReport, false, Some(8)), 8));
    steps, j := steps + [Operate(DoReconcileState(SeesReport, false, Some(8)), 8)],
      Next(before, Operate(DoReconcileState(SeesReport, false, Some(8)), 8));
  }

  lemma SelectedAgain() returns (steps: seq<Step>, j: Job)
    ensures Reaches(steps, j)
    ensures |j.reservations| == 1 && j.reservations[0].requestedAt == 6 && FailedOnce(j.reservations[0].saved)
    ensures HasRecord(j) && j.cur == Some(1) && j.nextRec == 2 && j.late == [] && j.scope == None
            && Current(j).workSlice == None
    ensures j.fails == None && j.notBefore == None && j.clock == 9 && j.turn == Selected(9, 1)
    ensures Outstanding(Current(j)) && Current(j).review == Queued && Current(j).requestedAt == 6
  {
    hide Reaches;
    var before: Job;
    steps, before := ReportedAgain();
    Extend(steps, before, Select(9, 9));
    steps, j := steps + [Select(9, 9)], Next(before, Select(9, 9));
  }

  /**
   * A job waiting to retry at 30005 is reserved; the dispatch is noticed as accepted, its report arrives and
   * the job is selected; then the sender reports failure and rolls back. The attempt that was selected
   * may begin at 11, before the not-before time the rollback restored.
   */
  lemma RolledBackAttemptBeginsEarly() returns (steps: seq<Step>, j: Job)
    ensures Reaches(steps, j)
    ensures Enabled(j, BeginNext(11)) && BeginsAttempt(j) && j.notBefore == Some(30_005)
  {
    hide Reaches;
    var before: Job;
    steps, before := SelectedAgain();
    Extend(steps, before, Operate(DoRollback(0, false), 10));
    steps, j := steps + [Operate(DoRollback(0, false), 10)], Next(before, Operate(DoRollback(0, false), 10));
  }

  // ---------------------------------------------------------------- a reload that miscounts

  lemma {:induction false} RunConcat(j: Job, steps: seq<Step>, more: seq<Step>)
    requires Legal(j, steps) && Legal(Run(j, steps), more)
    ensures Legal(j, steps + more) && Run(j, steps + more) == Run(Run(j, steps), more)
    decreases |steps|
  {
    hide Next, Enabled;
    if steps == [] {
      assert steps + more == more;
    } else {
      RunConcat(Next(j, steps[0]), steps[1..], more);
      assert (steps + more)[1..] == steps[1..] + more;
    }
  }

  lemma SecondSelected() returns (steps: seq<Step>, j: Job)
    ensures Reaches(steps, j)
    ensures HasRecord(j) && j.late == [] && j.reservations == [] && j.scope == None && FailedOnce(SlotOf(j))
    ensures j.clock == 30_005 && j.turn == Selected(30_005, 0)
  {
    hide Reaches;
    var before: Job;
    steps, before := Counted();
    Extend(steps, before, Select(30_005, 30_005));
    steps, j := steps + [Select(30_005, 30_005)], Next(before, Select(30_005, 30_005));
  }

  lemma SecondBegun() returns (steps: seq<Step>, j: Job)
    ensures Reaches(steps, j)
    ensures HasRecord(j) && j.late == [] && j.reservations == [] && j.fails == Some(1)
    ensures j.clock == 30_006 && j.turn.Begun? && j.cur == Some(j.turn.rec)
    ensures Outstanding(Current(j)) && Current(j).review == Running && Current(j).attempt == 2
  {
    hide Reaches;
    var before: Job;
    steps, before := SecondSelected();
    Extend(steps, before, BeginNext(30_006));
    steps, j := steps + [BeginNext(30_006)], Next(before, BeginNext(30_006));
  }

  lemma SecondAttempt() returns (steps: seq<Step>, j: Job)
    ensures Reaches(steps, j)
    ensures GuardCurrent(j) && j.late == [] && j.reservations == [] && j.fails == Some(1) && j.clock == 30_006
            && Current(j).attempt == 2
  {
    hide Reaches;
    var before: Job;
    steps, before := SecondBegun();
    Extend(steps, before, Activate);
    steps, j := steps + [Activate], Next(before, Activate);
  }

  lemma SecondAttemptKept() returns (steps: seq<Step>, j: Job)
    ensures Reaches(steps, j)
    ensures GuardCurrent(j) && j.late == [] && j.fails == None && j.clock == 30_007 && Current(j).attempt == 2
  {
    hide Reaches;
    var before: Job;
    steps, before := SecondAttempt();
    Extend(steps, before, Operate(DoReserve(Reg(30_007, Reserving), true), 30_007));
    steps, j := steps + [Operate(DoReserve(Reg(30_007, Reserving), true), 30_007)],
                Next(before, Operate(DoReserve(Reg(30_007, Reserving), true), 30_007));
  }

  /**
   * The first attempt of a job fails; during the second its own tool sends the Worker a new request, which clears the
   * count and keeps the review; then the second attempt fails too. One failure is counted, but after a crash it is two.
   */
  lemma KeptReviewIsMiscountedInFact() returns (steps: seq<Step>, j: Job)
    ensures Reaches(steps, j) && j.clock <= 30_009
    ensures Miscounted(j, false, 30_009) && j.fails == Some(1) && Survivor(j, false, 30_009).fails == Some(2)
  {
    hide Reaches, Survivor, GuardCurrent, Legal, Run, Miscounted;
    var before: Job;
    steps, before := SecondAttemptKept();
    var more := [AttemptFails(30_008), RunSettle(30_009, None)];
    ClearedAttemptIsMiscounted(before, 30_008, 30_009, None, false, 30_009);
    j := Run(before, more);
    assert Reaches(steps + more, j) by { Joined(steps, before, more); }
    steps := steps + more;
  }

  lemma Joined(steps: seq<Step>, j: Job, more: seq<Step>)
    requires Reaches(steps, j) && Legal(j, more)
    ensures Reaches(steps + more, Run(j, more))
  {
    hide Legal, Run, Start;
    RunConcat(Start(), steps, more);
  }

  // ---------------------------------------------------------------- a fallback on a stranger

  /** Two reservations: the older one saved the slot that waits to retry. */
  predicate OldestSaved(j: Job) {
    |j.reservations| >= 1 && j.reservations[0].requestedAt == 6 && FailedOnce(j.reservations[0].saved)
  }

  lemma NextBegun() returns (steps: seq<Step>, j: Job)
    ensures Reaches(steps, j)
    ensures OldestSaved(j) && |j.reservations| == 1 && HasRecord(j) && j.cur == Some(1) && j.nextRec == 2
            && j.late == []
    ensures j.clock == 10 && j.turn.Begun? && j.turn.rec == 1 && j.fails == None && j.notBefore == None
    ensures Outstanding(Current(j)) && Current(j).review == Running && Current(j).requestedAt == 6
  {
    hide Reaches, FailedOnce;
    var before: Job;
    steps, before := SelectedAgain();
    Extend(steps, before, BeginNext(10));
    steps, j := steps + [BeginNext(10)], Next(before, BeginNext(10));
  }

  lemma NextAttempt() returns (steps: seq<Step>, j: Job)
    ensures Reaches(steps, j)
    ensures OldestSaved(j) && |j.reservations| == 1 && HasRecord(j) && j.cur == Some(1) && j.nextRec == 2
            && j.late == []
    ensures j.clock == 10 && j.turn.Attempting? && j.turn.rec == 1 && j.fails == None && j.notBefore == None
    ensures Outstanding(Current(j)) && Current(j).review == Running && Current(j).requestedAt == 6
  {
    hide Reaches, FailedOnce;
    var before: Job;
    steps, before := NextBegun();
    Extend(steps, before, Activate);
    steps, j := steps + [Activate], Next(before, Activate);
  }

  lemma NextEnded() returns (steps: seq<Step>, j: Job)
    ensures Reaches(steps, j)
    ensures OldestSaved(j) && |j.reservations| == 1 && HasRecord(j) && j.cur == Some(1) && j.nextRec == 2
            && j.late == []
    ensures j.clock == 10 && j.turn.Racing? && j.turn.ticket.Terminal? && j.turn.ticket.rec == 1 && j.turn.endedAt == 10
    ensures j.fails == None && j.notBefore == None
    ensures Outstanding(Current(j)) && Current(j).review == Running && Current(j).requestedAt == 6
  {
    hide Reaches, FailedOnce;
    var before: Job;
    steps, before := NextAttempt();
    Extend(steps, before, AttemptEnds(10));
    steps, j := steps + [AttemptEnds(10)], Next(before, AttemptEnds(10));
  }

  lemma ReservedOver() returns (steps: seq<Step>, j: Job)
    ensures Reaches(steps, j)
    ensures OldestSaved(j) && |j.reservations| == 2 && j.reservations[1].requestedAt == 11
    ensures var saved := j.reservations[1].saved.cb;
            saved.Some? && saved.value.requestedAt == 6 && Outstanding(saved.value)
    ensures HasRecord(j) && j.cur == Some(2) && 1 in j.recs && j.recs[1].review == Running && j.late == []
            && j.clock == 11
    ensures j.turn.Racing? && j.turn.ticket.Terminal? && j.turn.ticket.rec == 1 && j.turn.endedAt == 10
            && Current(j).requestedAt == 11
  {
    hide Reaches, FailedOnce;
    var before: Job;
    steps, before := NextEnded();
    Extend(steps, before, Operate(DoReserve(Reg(11, Reserving), false), 11));
    steps, j := steps + [Operate(DoReserve(Reg(11, Reserving), false), 11)],
      Next(before, Operate(DoReserve(Reg(11, Reserving), false), 11));
  }

  lemma NewerRolledBack() returns (steps: seq<Step>, j: Job)
    ensures Reaches(steps, j)
    ensures OldestSaved(j) && HasRecord(j) && j.cur == Some(2) && 1 in j.recs && j.recs[1].review == Running
            && j.late == [] && j.clock == 12
    ensures j.turn.Racing? && j.turn.ticket.Terminal? && j.turn.ticket.rec == 1 && j.turn.endedAt == 10
            && Current(j).requestedAt == 6
  {
    hide Reaches, FailedOnce;
    var before: Job;
    steps, before := ReservedOver();
    Extend(steps, before, Operate(DoRollback(1, false), 12));
    steps, j := steps + [Operate(DoRollback(1, false), 12)], Next(before, Operate(DoRollback(1, false), 12));
  }

  lemma OlderRolledBack() returns (steps: seq<Step>, j: Job)
    ensures Reaches(steps, j)
    ensures FailedOnce(SlotOf(j)) && j.cur == Some(2) && 1 in j.recs && j.recs[1].review == Running && j.late == []
            && j.clock == 13
    ensures j.turn.Racing? && j.turn.ticket.Terminal? && j.turn.ticket.rec == 1 && j.turn.endedAt == 10
  {
    hide Reaches;
    var before: Job;
    steps, before := NewerRolledBack();
    Extend(steps, before, Operate(DoRollback(0, false), 13));
    steps, j := steps + [Operate(DoRollback(0, false), 13)], Next(before, Operate(DoRollback(0, false), 13));
  }

  /**
   * Two requests are reserved, one over the other, while a job waits to retry and is then reviewed again; both are
   * rolled back, the newer first. The job waits again after its one failure when the closeout of the review begun in
   * between is given up: two failures are counted, but after a crash it is one.
   */
  lemma StrangerIsMiscountedInFact() returns (steps: seq<Step>, j: Job)
    ensures Reaches(steps, j) && j.clock <= 5_010
    ensures Miscounted(j, false, 5_010) && j.fails == Some(2) && Survivor(j, false, 5_010).fails == Some(1)
  {
    hide Reaches, Survivor;
    var before: Job;
    steps, before := OlderRolledBack();
    Extend(steps, before, RaceTimesOut(5_010, None));
    steps, j := steps + [RaceTimesOut(5_010, None)], Next(before, RaceTimesOut(5_010, None));
    hide Next;
    assert FailedOnce(SlotOf(before));
    StrangerCounts(before, j);
  }

  lemma StrangerCounts(before: Job, j: Job)
    requires Enabled(before, RaceTimesOut(5_010, None)) && j == Next(before, RaceTimesOut(5_010, None))
    requires FailedOnce(SlotOf(before)) && before.cur == Some(2) && 1 in before.recs && before.recs[1].review == Running
    requires before.turn.Racing? && before.turn.ticket.Terminal? && before.turn.ticket.rec == 1
    ensures Miscounted(j, false, 5_010) && j.fails == Some(2) && Survivor(j, false, 5_010).fails == Some(1)
  {
    hide Survivor;
    SurvivorCounts(j, false, 5_010);
  }
}
