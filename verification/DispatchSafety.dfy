/**
 * What a dispatch guarantees whatever fails: the turn is counted once, the reservation and the
 * self-improvement status are taken back only when the turn cannot have been accepted, and the turn limit holds.
 */
module DispatchSafety {
  import opened Options
  import opened Callbacks
  import opened DispatchSaga

  /**
   * The assumption about errors: a send that was accepted and failed all the same says so. The code reads
   * this from the error, so it cannot be proved here.
   */
  predicate ErrorsOwnUp(a: Answers) {
    a.send.SendFails? && a.send.accepted ==> MayHaveBeenAccepted(a.send.failure)
  }

  /** The error that ended the attempt unsent reads as the opposite of what happened. */
  predicate Misread(w: World, a: Answers) {
    HasReserved(w, a) && Unsent(a).Some? && MayHaveBeenAccepted(Unsent(a).value) != TurnAccepted(w, a)
  }

  /**
   * Counting. Never twice; exactly the accepted turns just when no error was misread; and if errors own up,
   * no accepted turn goes uncounted.
   */
  lemma TurnIsCountedOnce(w: World, q: Request, a: Answers)
    ensures var counted := Dispatched(w, q, a).used - QuotaFound(w, a).used;
            && 0 <= counted <= 1
            && (counted == (if TurnAccepted(w, a) then 1 else 0) <==> !Misread(w, a))
            && (ErrorsOwnUp(a) && TurnAccepted(w, a) ==> counted == 1)
            && (counted == 1 ==> HasReserved(w, a))
  {
    hide SlotFinally, SelfFinally, Changed;
    if ReachesSend(w, a) { }
  }

  predicate OwnRecord(s: Slot, q: Request) {
    s.cb.Some? && s.cb.value.requestedAt == q.reg.requestedAt
  }

  /**
   * Others may have changed the record while the send was under way, but it is still this dispatch's and still owed.
   */
  predicate StillOurs(q: Request, a: Answers) {
    a.meanwhile.Some? ==> OwnRecord(a.meanwhile.value, q) && Outstanding(a.meanwhile.value.cb.value)
  }

  lemma FoundIsOurs(w: World, q: Request, a: Answers)
    requires StillOurs(q, a)
    ensures OwnRecord(SlotFound(w, q, a), q) && Outstanding(SlotFound(w, q, a).cb.value)
  {
    hide KeepsRunning;
  }

  /** An accepted turn is always owed a reply: its registration is in place, whatever failed afterwards. */
  lemma AcceptedTurnStaysOwed(w: World, q: Request, a: Answers)
    requires TurnAccepted(w, a) && ErrorsOwnUp(a) && StillOurs(q, a)
    ensures OwnRecord(SlotFinally(w, q, a), q) && Outstanding(SlotFinally(w, q, a).cb.value)
  {
    hide SlotFound, Rollback;
    FoundIsOurs(w, q, a);
  }

  /** The reservation is taken back exactly when the attempt plainly failed, and then nothing remains of it. */
  lemma RollbackNeedsCertainty(w: World, q: Request, a: Answers)
    requires HasReserved(w, a) && a.settle == Saved && StillOurs(q, a) && !OwnRecord(w.slot, q)
    ensures OwnRecord(SlotFinally(w, q, a), q) <==> !PlainlyFailed(w, a)
    ensures PlainlyFailed(w, a) ==>
              var back := SlotFinally(w, q, a);
              && back.fails == w.slot.fails && back.notBefore == w.slot.notBefore
              && (back.cb.Some? <==> w.slot.cb.Some?)
              && (back.cb.Some? ==> back.cb.value == RestoredCallback(w.slot.cb.value, q.underGuard, q.now))
    ensures PlainlyFailed(w, a) && ErrorsOwnUp(a) ==> !TurnAccepted(w, a)
  {
    hide SlotFound, Outstanding, MarkDispatched;
    FoundIsOurs(w, q, a);
    MarkKeepsOwner(SlotFound(w, q, a), q, None);
    if IsSent(w, a) { MarkKeepsOwner(SlotFound(w, q, a), q, Some(a.send.turn)); }
  }

  lemma MarkKeepsOwner(s: Slot, q: Request, turn: Option<string>)
    requires OwnRecord(s, q)
    ensures OwnRecord(MarkDispatched(s, q.reg.requestedAt, turn, q.now), q)
  {
  }

  /** A registration that was installed meanwhile is never touched. */
  lemma StrangerIsLeftAlone(w: World, q: Request, a: Answers)
    requires ReachesSend(w, a) && a.meanwhile.Some? && !OwnRecord(a.meanwhile.value, q)
    ensures SlotFinally(w, q, a) == a.meanwhile.value
  {
    hide Register, RestoredCallback;
  }

  /**
   * The record is left `reserving` exactly when the reservation itself failed after it was installed, when a
   * sent turn could not be noted, or when the settlement failed first. Only the five-minute reconciliation
   * frees it then.
   */
  lemma LeftReserving(w: World, q: Request, a: Answers)
    requires q.reg.dispatch == DispatchState.Reserving && a.meanwhile.None? && !OwnRecord(w.slot, q)
    ensures var s := SlotFinally(w, q, a);
            OwnRecord(s, q) && s.cb.value.dispatch == DispatchState.Reserving
            <==> ReachesReserve(w, a) && !a.reserve.RefusedBefore?
                 && (a.reserve.FailedAfter?
                     || (if IsSent(w, a) then a.deliver.Fails? || (a.mark.SaveFails? && !a.mark.applied)
                         else a.settle.SaveFails? && !a.settle.applied))
  {
    hide KeepsRunning;
  }

  /**
   * The two compensations agree: a job that was set going again goes back to `changes_ready` exactly when its
   * reservation is rolled back. They differ only if what was thrown is no Error, the settlement fails too, and
   * the words that wrap it read like a lost connection.
   */
  lemma CompensationsAgree(w: World, q: Request, a: Answers)
    requires Reactivates(w, a) && HasReserved(w, a)
    ensures Dispatched(w, q, a).self == w.self
            <==> PlainlyFailed(w, a) && !(a.settle.SaveFails? && !Unsent(a).value.isError && Unsent(a).value.quoted)
    ensures ErrorsOwnUp(a) && TurnAccepted(w, a) ==> Dispatched(w, q, a).self == Some(SelfRequest(InProgress, None))
  {
    hide SlotFinally;
  }

  /** A dispatch that never reached the Worker's door leaves the status as it was. */
  lemma UnreservedDispatchChangesNothing(w: World, q: Request, a: Answers)
    requires !ReachesReserve(w, a)
    ensures Dispatched(w, q, a) == w
  {
  }

  /** The Worker took the turn of a private follow-up, whether or not Butler got to know it. */
  predicate FollowUpTaken(w: World, a: Answers) {
    FollowUpReachesSend(w, a) && (a.send.Sent? || a.send.accepted)
  }

  /**
   * A private follow-up adds the turn that was taken to what the operator has left of the count, and nothing if none
   * was taken, exactly unless a turn was taken whose send failed all the same or whose delivery could not be noted.
   * Then it adds nothing.
   */
  lemma PrivateFollowUpMayMissACount(w: World, a: Answers)
    ensures var left := if FollowUpReachesSend(w, a) then Changed(Quota(w.used, w.limit), a.operator).used else w.used;
            var added := FollowedUp(w, a).used - left;
            && 0 <= added <= 1
            && (added == (if FollowUpTaken(w, a) then 1 else 0)
                <==> !(FollowUpTaken(w, a) && (a.send.SendFails? || a.deliver.Fails?)))
  {
    hide Changed;
  }

  /**
   * A dispatch that the caller is told went well did: every step was answered well, the Worker took the turn, it is
   * counted, and the record says so unless another one has come in its place meanwhile. One that the caller is told
   * stopped at the limit did nothing.
   */
  lemma SuccessIsReal(w: World, q: Request, a: Answers)
    ensures SentInFull(w, a)
            <==> && a.gates == Done && a.load == Done && a.reserve == Reserved && a.prepare == Done && a.bind == Saved
                 && a.guard == Done && a.send.Sent? && a.deliver == Done && a.mark == Saved
                 && (w.limit.Some? ==> w.used < w.limit.value)
                 && (w.self.Some? ==> w.self.value.status != Published
                                      && (w.self.value.status == ChangesReady ==> a.reactivation == Done))
    ensures SentInFull(w, a) ==>
              && TurnAccepted(w, a) && Dispatched(w, q, a).used == QuotaFound(w, a).used + 1
              && (a.meanwhile.None? ==>
                    var cb := Dispatched(w, q, a).slot.cb;
                    && cb.Some? && Outstanding(cb.value) && cb.value.requestedAt == q.reg.requestedAt
                    && cb.value.dispatch == Ready && cb.value.acceptedTurn == Some(a.send.turn)
                    && cb.value.nextAction == q.reg.nextAction
                    && cb.value.workSlice == (if q.binds then Some(q.slice)
                                              else if q.reg.slice.GivenSlice? then q.reg.slice.slice
                                              else if w.slot.cb.Some? && w.slot.cb.value.workSlice.Some?
                                              then w.slot.cb.value.workSlice else q.scope))
    ensures w.limit.Some? && w.used >= w.limit.value ==> LimitReached(w) && Dispatched(w, q, a) == w
  {
    hide Changed;
  }

  // ---------------------------------------------------------------- the turn budget

  /**
   * The operator never takes room away: no limit where there was none, and no lower one. A dispatch holds the job's
   * lock from its check to its end, so no other dispatch comes between a check and its count; the operator may.
   */
  predicate OnlyRaises(limit: Option<nat>, changes: seq<OperatorChange>)
    decreases |changes|
  {
    changes == [] ||
    match changes[0]
    case NewLimit(next) => (next.None? || (limit.Some? && limit.value <= next.value)) && OnlyRaises(next, changes[1..])
    case NewWindow => OnlyRaises(limit, changes[1..])
  }

  predicate Within(b: Quota) {
    b.limit.Some? ==> b.used <= b.limit.value
  }

  predicate HasRoom(b: Quota) {
    b.limit.Some? ==> b.used < b.limit.value
  }

  lemma {:induction false} ChangesOnlyFree(b: Quota, changes: seq<OperatorChange>)
    ensures Changed(b, changes).used <= b.used
    ensures OnlyRaises(b.limit, changes)
            ==> (Within(b) ==> Within(Changed(b, changes))) && (HasRoom(b) ==> HasRoom(Changed(b, changes)))
    ensures Changed(b, changes).limit != b.limit
            ==> exists c <- changes :: c.NewLimit? && c.limit == Changed(b, changes).limit
    decreases |changes|
  {
    if changes != [] {
      var next := match changes[0]
                  case NewLimit(limit) => b.(limit := limit)
                  case NewWindow => b.(used := 0);
      ChangesOnlyFree(next, changes[1..]);
      if Changed(b, changes).limit != b.limit && Changed(next, changes[1..]).limit == next.limit {
        assert changes[0] in changes;
      }
    }
  }

  /**
   * A turn that is counted, by a dispatch or by a follow-up, is within the limit that it was checked against. It is
   * over the limit then in force only if the operator has set that limit while the turn was under way, below the turns
   * used.
   */
  lemma CountedTurnIsWithinBudget(w: World, q: Request, a: Answers, followUp: bool)
    requires if followUp then FollowUpSent(w, a) && a.deliver == Done else IsSent(w, a) || InDoubt(w, a)
    ensures var after := if followUp then FollowedUp(w, a) else Dispatched(w, q, a);
            && (w.limit.Some? ==> after.used <= w.limit.value)
            && (after.limit.Some? && after.limit.value < after.used
                ==> NewLimit(after.limit) in a.operator && after.limit != w.limit)
  {
    hide SlotFinally, SelfFinally;
    ChangesOnlyFree(Quota(w.used, w.limit), a.operator);
  }

  /**
   * What happens to one job: dispatches of the three kinds, the operator's changes, and changes of slot and status from
   * elsewhere.
   */
  datatype Act =
    | Continue(q: Request, a: Answers)
    | Flush(q: Request, a: Answers)
    | FollowUp(a: Answers)
    | Operator(change: OperatorChange)
    | Elsewhere(slot: Slot, self: Option<SelfRequest>)

  function Acted(w: World, act: Act): World {
    match act
    case Continue(q, a) => Dispatched(w, q, a)
    case Flush(q, a) => Flushed(w, q, a)
    case FollowUp(a) => FollowedUp(w, a)
    case Operator(change) => var b := Changed(Quota(w.used, w.limit), [change]); w.(used := b.used, limit := b.limit)
    case Elsewhere(slot, self) => w.(slot := slot, self := self)
  }

  function AllActed(w: World, acts: seq<Act>): World
    decreases |acts|
  {
    if acts == [] then w else AllActed(Acted(w, acts[0]), acts[1..])
  }

  /** The operator's changes during one act. */
  function ChangesOf(act: Act): seq<OperatorChange> {
    match act
    case Continue(_, a) => a.operator
    case Flush(_, a) => a.operator
    case FollowUp(a) => a.operator
    case Operator(change) => [change]
    case Elsewhere(_, _) => []
  }

  predicate AllOnlyRaise(w: World, acts: seq<Act>)
    decreases |acts|
  {
    acts != [] ==> OnlyRaises(w.limit, ChangesOf(acts[0])) && AllOnlyRaise(Acted(w, acts[0]), acts[1..])
  }

  lemma ActStaysWithin(w: World, act: Act)
    requires Within(Quota(w.used, w.limit)) && OnlyRaises(w.limit, ChangesOf(act))
    ensures Within(Quota(Acted(w, act).used, Acted(w, act).limit))
  {
    hide SlotFinally, SelfFinally, Changed, OnlyRaises;
    ChangesOnlyFree(Quota(w.used, w.limit), ChangesOf(act));
  }

  /**
   * Over every history of one job, dispatches, batches, follow-ups and the operator's changes in any order, whatever
   * the outside world answers: as long as no limit is lowered, the turns counted in a window never pass the limit.
   */
  lemma {:induction false} TurnsStayWithinLimit(w: World, acts: seq<Act>)
    requires (w.limit.Some? ==> w.used <= w.limit.value) && AllOnlyRaise(w, acts)
    ensures var after := AllActed(w, acts); after.limit.Some? ==> after.used <= after.limit.value
    decreases |acts|
  {
    hide Acted, OnlyRaises;
    if acts != [] {
      ActStaysWithin(w, acts[0]);
      TurnsStayWithinLimit(Acted(w, acts[0]), acts[1..]);
    }
  }

  /** And the other way round: once the limit is passed, it has been lowered during one of the acts. */
  lemma {:induction false} OverrunNeedsALowerLimit(w: World, acts: seq<Act>) returns (k: nat)
    requires (w.limit.Some? ==> w.used <= w.limit.value)
    requires var after := AllActed(w, acts); after.limit.Some? && after.limit.value < after.used
    ensures k < |acts| && !OnlyRaises(AllActed(w, acts[..k]).limit, ChangesOf(acts[k]))
    decreases |acts|
  {
    hide Acted, OnlyRaises;
    if acts == [] || !OnlyRaises(w.limit, ChangesOf(acts[0])) {
      k := 0;
    } else {
      ActStaysWithin(w, acts[0]);
      var rest := OverrunNeedsALowerLimit(Acted(w, acts[0]), acts[1..]);
      k := rest + 1;
      assert acts[..k][0] == acts[0] && acts[..k][1..] == acts[1..][..rest];
    }
  }

  // ---------------------------------------------------------------- the turns really taken

  /** Whether the Worker took a turn in the act. */
  predicate Takes(w: World, act: Act) {
    match act
    case Continue(_, a) => TurnAccepted(w, a)
    case Flush(_, a) => TurnAccepted(w.(self := None), BatchAnswers(a))
    case FollowUp(a) => FollowUpTaken(w, a)
    case _ => false
  }

  /**
   * The act takes a turn that it does not count: the send was accepted and failed with an error that does not own up,
   * or it was a follow-up whose send failed or whose delivery could not be noted.
   */
  predicate Misses(w: World, act: Act) {
    Takes(w, act) &&
    match act
    case Continue(_, a) => !ErrorsOwnUp(a)
    case Flush(_, a) => !ErrorsOwnUp(BatchAnswers(a))
    case FollowUp(a) => a.send.SendFails? || a.deliver.Fails?
    case _ => false
  }

  /** The changes of the operator that come before the act's count. */
  function ChangesFelt(w: World, act: Act): seq<OperatorChange> {
    match act
    case Continue(_, a) => if ReachesReserve(w, a) then a.operator else []
    case Flush(_, a) => if ReachesReserve(w.(self := None), BatchAnswers(a)) then a.operator else []
    case FollowUp(a) => if FollowUpReachesSend(w, a) then a.operator else []
    case Operator(change) => [change]
    case Elsewhere(_, _) => []
  }

  /** The turns that the Worker took in the present window, after the act. */
  function TakenAfter(w: World, act: Act, taken: nat): nat {
    (if NewWindow in ChangesFelt(w, act) then 0 else taken) + if Takes(w, act) then 1 else 0
  }

  function AllTaken(w: World, acts: seq<Act>, taken: nat): nat
    decreases |acts|
  {
    if acts == [] then taken else AllTaken(Acted(w, acts[0]), acts[1..], TakenAfter(w, acts[0], taken))
  }

  lemma {:induction false} ChangesResetOnlyByWindow(b: Quota, changes: seq<OperatorChange>)
    ensures Changed(b, changes).used == if NewWindow in changes then 0 else b.used
    decreases |changes|
  {
    if changes != [] {
      var next := match changes[0]
                  case NewLimit(limit) => b.(limit := limit)
                  case NewWindow => b.(used := 0);
      ChangesResetOnlyByWindow(next, changes[1..]);
    }
  }

  /** An act that misses nothing counts at least the turns it takes. */
  lemma ActCountsWhatItTakes(w: World, act: Act, taken: nat)
    requires taken <= w.used && !Misses(w, act)
    ensures TakenAfter(w, act, taken) <= Acted(w, act).used
  {
    hide SlotFinally, SelfFinally, Changed;
    ChangesResetOnlyByWindow(Quota(w.used, w.limit), ChangesFelt(w, act));
  }

  predicate MissesNone(w: World, acts: seq<Act>)
    decreases |acts|
  {
    acts != [] ==> !Misses(w, acts[0]) && MissesNone(Acted(w, acts[0]), acts[1..])
  }

  lemma {:induction false} TakenTurnsAreCounted(w: World, acts: seq<Act>, taken: nat)
    requires taken <= w.used && MissesNone(w, acts)
    ensures AllTaken(w, acts, taken) <= AllActed(w, acts).used
    decreases |acts|
  {
    hide Acted, Misses, TakenAfter;
    if acts != [] {
      ActCountsWhatItTakes(w, acts[0], taken);
      TakenTurnsAreCounted(Acted(w, acts[0]), acts[1..], TakenAfter(w, acts[0], taken));
    }
  }

  /**
   * The budget is kept for the turns that the Worker really takes: over every history in which no limit is lowered and
   * no act misses a turn it took, the turns taken in a window never pass the limit.
   */
  lemma TakenTurnsStayWithinLimit(w: World, acts: seq<Act>, taken: nat)
    requires taken <= w.used && (w.limit.Some? ==> w.used <= w.limit.value)
    requires AllOnlyRaise(w, acts) && MissesNone(w, acts)
    ensures AllTaken(w, acts, taken) <= AllActed(w, acts).used
    ensures AllActed(w, acts).limit.Some? ==> AllTaken(w, acts, taken) <= AllActed(w, acts).limit.value
  {
    TakenTurnsAreCounted(w, acts, taken);
    TurnsStayWithinLimit(w, acts);
  }

  /** And the other way round: once more turns are taken than counted, some act has missed one. */
  lemma {:induction false} UncountedTurnWasMissed(w: World, acts: seq<Act>, taken: nat) returns (k: nat)
    requires taken <= w.used && AllTaken(w, acts, taken) > AllActed(w, acts).used
    ensures k < |acts| && Misses(AllActed(w, acts[..k]), acts[k])
    decreases |acts|
  {
    hide Acted, Misses, TakenAfter;
    if acts == [] || Misses(w, acts[0]) {
      k := 0;
    } else {
      ActCountsWhatItTakes(w, acts[0], taken);
      var rest := UncountedTurnWasMissed(Acted(w, acts[0]), acts[1..], TakenAfter(w, acts[0], taken));
      k := rest + 1;
      assert acts[..k][0] == acts[0] && acts[..k][1..] == acts[1..][..rest];
    }
  }

  /** An act that misses a turn always leaves one more taken than counted, where all had been counted before. */
  lemma MissedTurnIsNotCounted(w: World, act: Act)
    requires Misses(w, act)
    ensures Acted(w, act).used == Changed(Quota(w.used, w.limit), ChangesFelt(w, act)).used
    ensures TakenAfter(w, act, w.used) == Acted(w, act).used + 1
  {
    hide SlotFinally, SelfFinally, Changed;
    ChangesResetOnlyByWindow(Quota(w.used, w.limit), ChangesFelt(w, act));
  }
}
