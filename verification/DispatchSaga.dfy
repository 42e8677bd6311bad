/**
 * Sending a Worker another turn (continueWorkerJobLocked and withSelfImprovementWorkerReactivated in
 * butler-agent-codex-tools.ts, settleFailedDirectWorkerDispatch in direct-codex-message.ts): reserve, rewrite
 * the payload, send, count the turn, and compensate. Every await may fail, and a failed send may have been
 * accepted all the same.
 *
 * `Answers` is what the outside world replies at each await; a theorem over all answers is a theorem over
 * every failure point. The methods follow continueWorkerJobLocked, flag by flag; their contracts say what the
 * three compensated things (the turn count, the callback slot, the self-improvement status) finally are.
 */
module DispatchSaga {
  import opened Options
  import opened Callbacks

  /**
   * Something thrown. The code cannot see whether a turn was accepted; it looks at the error: its class and
   * name, or the words in its message. `speaks` is the verdict on an Error itself, `quoted` the verdict on a
   * new Error that quotes it.
   */
  datatype Failure = Failure(isError: bool, speaks: bool, quoted: bool)

  /** workerMessageDispatchMayHaveBeenAccepted. */
  predicate MayHaveBeenAccepted(f: Failure) {
    f.isError && f.speaks
  }

  datatype Outcome = Done | Fails(failure: Failure)
  datatype Reserving = Reserved | RefusedBefore(failure: Failure) | FailedAfter(failure: Failure)

  /** A step that changes the record in memory and then saves: a failure may come before or after the change. */
  datatype Saving = Saved | SaveFails(failure: Failure, applied: bool)
  datatype Sending = Sent(turn: string) | SendFails(failure: Failure, accepted: bool)

  datatype SelfStatus = InProgress | ChangesReady | Published | OtherStatus
  datatype SelfRequest = SelfRequest(status: SelfStatus, completedAt: Option<int>)

  datatype World = World(slot: Slot, used: nat, limit: Option<nat>, self: Option<SelfRequest>)

  /**
   * What the operator can do to the turn budget at any time: set another limit, or open a new window by a new message.
   */
  datatype OperatorChange = NewLimit(limit: Option<nat>) | NewWindow

  datatype Answers = Answers(
    gates: Outcome,                 // everything refused before the budget is looked at
    load: Outcome,
    reactivation: Outcome,          // the flush of the reactivated status
    reserve: Reserving,
    prepare: Outcome,               // checklist and payload
    bind: Saving,
    guard: Outcome,                 // the review is still current, and the Worker input is built
    meanwhile: Option<Slot>,        // what others leave in the slot while the send is under way
    operator: seq<OperatorChange>,  // what the operator does between the check of the budget and the count
    send: Sending,
    deliver: Outcome,
    mark: Saving,
    settle: Saving,                 // the preserve or the rollback
    restore: Outcome)               // the flush of the restored status

  datatype Request = Request(
    threadId: ThreadId,
    reg: Registration,
    preserve: bool,
    underGuard: bool,
    scope: Option<string>,
    binds: bool,                    // the access can bind the record to the payload's work slice
    slice: string,
    now: int)

  // ---------------------------------------------------------------- what the answers amount to

  predicate LimitReached(w: World) {
    w.limit.Some? && w.limit.value <= w.used
  }

  predicate AlreadyPublished(w: World) {
    w.self.Some? && w.self.value.status == Published
  }

  predicate PassesGates(w: World, a: Answers) {
    !AlreadyPublished(w) && a.gates == Done && !LimitReached(w) && a.load == Done
  }

  predicate WantsReactivation(w: World) {
    w.self.Some? && w.self.value.status == ChangesReady
  }

  /** The job was set going again: its status was `changes_ready` and now says that work is in progress. */
  predicate Reactivates(w: World, a: Answers) {
    PassesGates(w, a) && WantsReactivation(w) && a.reactivation == Done
  }

  predicate ReachesReserve(w: World, a: Answers) {
    PassesGates(w, a) && (WantsReactivation(w) ==> a.reactivation == Done)
  }

  predicate HasReserved(w: World, a: Answers) {
    ReachesReserve(w, a) && a.reserve == Reserved
  }

  predicate ReachesSend(w: World, a: Answers) {
    HasReserved(w, a) && a.prepare == Done && a.bind == Saved && a.guard == Done
  }

  /** The Worker took the turn, whether or not Butler got to know it. */
  predicate TurnAccepted(w: World, a: Answers) {
    ReachesSend(w, a) && (a.send.Sent? || a.send.accepted)
  }

  predicate IsSent(w: World, a: Answers) {
    ReachesSend(w, a) && a.send.Sent?
  }

  /** The turn was sent, its delivery noted and the record marked: nothing is left to be done. */
  predicate SentInFull(w: World, a: Answers) {
    IsSent(w, a) && a.deliver == Done && a.mark == Saved
  }

  /** What ended the attempt between reservation and send. */
  function Unsent(a: Answers): Option<Failure> {
    if a.prepare.Fails? then Some(a.prepare.failure)
    else if a.bind.SaveFails? then Some(a.bind.failure)
    else if a.guard.Fails? then Some(a.guard.failure)
    else if a.send.SendFails? then Some(a.send.failure)
    else None
  }

  /** The attempt failed unsent, with an error that reads as if the turn may have been accepted. */
  predicate InDoubt(w: World, a: Answers) {
    HasReserved(w, a) && Unsent(a).Some? && MayHaveBeenAccepted(Unsent(a).value)
  }

  /** The attempt failed unsent, with an error that reads as a plain failure. */
  predicate PlainlyFailed(w: World, a: Answers) {
    HasReserved(w, a) && Unsent(a).Some? && !MayHaveBeenAccepted(Unsent(a).value)
  }

  /** A settlement that fails re-throws the original error, or wraps what is not an Error in a new one. */
  function AfterSettlement(f: Failure, settle: Saving): Failure {
    if settle.SaveFails? && !f.isError then Failure(true, f.quoted, f.quoted) else f
  }

  // ---------------------------------------------------------------- what finally is

  datatype Quota = Quota(used: nat, limit: Option<nat>)

  function Changed(b: Quota, changes: seq<OperatorChange>): Quota
    decreases |changes|
  {
    if changes == [] then b
    else
      Changed(match changes[0]
              case NewLimit(limit) => b.(limit := limit)
              case NewWindow => b.(used := 0),
              changes[1..])
  }

  /** The budget as it is when the turn is counted or given up. Nothing reads it between the check and the count. */
  function QuotaFound(w: World, a: Answers): Quota {
    if ReachesReserve(w, a) then Changed(Quota(w.used, w.limit), a.operator) else Quota(w.used, w.limit)
  }

  function SlotReserved(w: World, q: Request): Slot {
    Register(w.slot, q.threadId, q.reg, q.preserve && q.underGuard, q.scope, q.now)
  }

  function BoundBy(s: Slot, q: Request, a: Answers): Slot {
    if q.binds && a.prepare == Done && (a.bind == Saved || a.bind.applied)
    then Bind(s, q.reg.requestedAt, q.slice, q.now).GetOr(s)
    else s
  }

  function SlotBound(w: World, q: Request, a: Answers): Slot {
    BoundBy(SlotReserved(w, q), q, a)
  }

  /** The slot when the attempt is settled: others may have had their way while the send was under way. */
  function SlotFound(w: World, q: Request, a: Answers): Slot {
    if ReachesSend(w, a) && a.meanwhile.Some? then a.meanwhile.value else SlotBound(w, q, a)
  }

  function SlotFinally(w: World, q: Request, a: Answers): Slot {
    if !ReachesReserve(w, a) || a.reserve.RefusedBefore? then w.slot
    else if a.reserve.FailedAfter? then SlotReserved(w, q)
    else
      var found := SlotFound(w, q, a);
      if IsSent(w, a) then
        if a.deliver == Done && (a.mark == Saved || a.mark.applied)
        then MarkDispatched(found, q.reg.requestedAt, Some(a.send.turn), q.now) else found
      else if a.settle.SaveFails? && !a.settle.applied then found
      else if InDoubt(w, a) then MarkDispatched(found, q.reg.requestedAt, None, q.now)
      else Rollback(found, q.reg.requestedAt, w.slot, q.underGuard, q.now)
  }

  /** The error the self-improvement wrapper sees reads as a plain failure. */
  predicate SeenAsPlain(w: World, a: Answers) {
    if a.reserve.RefusedBefore? || a.reserve.FailedAfter? then !MayHaveBeenAccepted(a.reserve.failure)
    else Unsent(a).Some? && !MayHaveBeenAccepted(AfterSettlement(Unsent(a).value, a.settle))
  }

  function SelfFinally(w: World, a: Answers): Option<SelfRequest> {
    if Reactivates(w, a) && !SeenAsPlain(w, a) then Some(SelfRequest(InProgress, None)) else w.self
  }

  function Dispatched(w: World, q: Request, a: Answers): World {
    World(SlotFinally(w, q, a), QuotaFound(w, a).used + if IsSent(w, a) || InDoubt(w, a) then 1 else 0,
          QuotaFound(w, a).limit,
          SelfFinally(w, a))
  }

  /** The batch dispatch asks no gates and binds no work slice. */
  function BatchAnswers(a: Answers): Answers {
    a.(gates := Done, bind := Saved)
  }

  /** Nor does it look at the self-improvement status, or touch it. */
  function Flushed(w: World, q: Request, a: Answers): World {
    Dispatched(w.(self := None), q.(binds := false), BatchAnswers(a)).(self := w.self)
  }

  function FollowedUp(w: World, a: Answers): World {
    if !FollowUpReachesSend(w, a) then w
    else
      var b := Changed(Quota(w.used, w.limit), a.operator);
      w.(used := b.used + if a.send.Sent? && a.deliver == Done then 1 else 0, limit := b.limit)
  }

  // ---------------------------------------------------------------- the dispatch step by step

  class WorkerDispatch {
    var slot: Slot
    var used: nat
    var limit: Option<nat>
    var self: Option<SelfRequest>
    // the attempt's own variables
    var sent: bool
    var reviewedDispatchCounted: bool
    var accepted: bool

    ghost function Abs(): World
      reads this
    {
      World(slot, used, limit, self)
    }

    constructor (w: World)
      ensures Abs() == w
    {
      slot, used, limit, self := w.slot, w.used, w.limit, w.self;
      sent, reviewedDispatchCounted, accepted := false, false, false;
    }

    method CountReviewedDispatch()
      modifies this`used, this`reviewedDispatchCounted
      ensures reviewedDispatchCounted
      ensures used == old(used) + if old(reviewedDispatchCounted) then 0 else 1
    {
      if !reviewedDispatchCounted {
        used := used + 1;
        reviewedDispatchCounted := true;
      }
    }

    /** The operator's changes reach the stored budget one after another. */
    method OperatorActs(changes: seq<OperatorChange>)
      modifies this`used, this`limit
      ensures Quota(used, limit) == Changed(Quota(old(used), old(limit)), changes)
    {
      for i := 0 to |changes|
        invariant Changed(Quota(used, limit), changes[i..]) == Changed(Quota(old(used), old(limit)), changes)
      {
        match changes[i] {
          case NewLimit(newLimit) => limit := newLimit;
          case NewWindow => used := 0;
        }
        assert changes[i..][1..] == changes[i + 1..];
      }
    }

    /** From the reservation to the message's last bookkeeping: the body of the `try`. */
    method TrySend(q: Request, a: Answers) returns (thrown: Option<Failure>)
      requires !sent && !reviewedDispatchCounted && !accepted
      requires slot.cb.Some? && slot.cb.value.requestedAt == q.reg.requestedAt
      modifies this
      ensures limit == old(limit) && self == old(self)
      ensures sent == reviewedDispatchCounted == accepted
      ensures sent <==> a.prepare == Done && a.bind == Saved && a.guard == Done && a.send.Sent?
      ensures used == old(used) + if sent then 1 else 0
      ensures if sent then thrown.None? <==> a.deliver == Done && a.mark == Saved
              else thrown == Unsent(a) && thrown.Some?
      ensures var bound := BoundBy(old(slot), q, a);
              var found :=
                if a.prepare == Done && a.bind == Saved && a.guard == Done then a.meanwhile.GetOr(bound) else bound;
              slot == if sent && a.deliver == Done && (a.mark == Saved || a.mark.applied)
                      then MarkDispatched(found, q.reg.requestedAt, Some(a.send.turn), q.now) else found
    {
      hide MarkDispatched;
      if a.prepare.Fails? { return Some(a.prepare.failure); }
      if q.binds && (a.bind == Saved || a.bind.applied) {
        slot := Bind(slot, q.reg.requestedAt, q.slice, q.now).value;
      }
      if a.bind.SaveFails? { return Some(a.bind.failure); }
      if a.guard.Fails? { return Some(a.guard.failure); }
      slot := a.meanwhile.GetOr(slot);
      if a.send.SendFails? { return Some(a.send.failure); }
      sent := true;
      accepted := true;
      CountReviewedDispatch();
      if a.deliver.Fails? { return Some(a.deliver.failure); }
      if a.mark == Saved || a.mark.applied {
        slot := MarkDispatched(slot, q.reg.requestedAt, Some(a.send.turn), q.now);
      }
      if a.mark.SaveFails? { return Some(a.mark.failure); }
      return None;
    }

    /**
     * Reserve, try, and on failure compensate: the part every reviewed dispatch goes through, whatever the
     * self-improvement status.
     */
    method ReserveAndSend(q: Request, a: Answers) returns (thrown: Option<Failure>)
      requires !sent && !reviewedDispatchCounted && !accepted && ReachesReserve(Abs().(self := None), a)
      modifies this
      ensures accepted == IsSent(old(Abs()).(self := None), a)
      ensures var w := old(Abs()).(self := None);
              && self == old(self)
              && slot == SlotFinally(w, q, a) && limit == QuotaFound(w, a).limit
              && used == QuotaFound(w, a).used + (if IsSent(w, a) || InDoubt(w, a) then 1 else 0)
              && (thrown.None? <==> SentInFull(w, a))
              && (thrown.Some? && !accepted ==> MayHaveBeenAccepted(thrown.value) == !SeenAsPlain(w, a))
    {
      hide Register, Rollback, MarkDispatched, Bind, Changed;
      OperatorActs(a.operator);
      if a.reserve.RefusedBefore? { return Some(a.reserve.failure); }
      var saved := slot;
      slot := Register(slot, q.threadId, q.reg, q.preserve && q.underGuard, q.scope, q.now);
      if a.reserve.FailedAfter? { return Some(a.reserve.failure); }
      RegistersOwnTime(saved, q);
      thrown := TrySend(q, a);
      if thrown.Some? {
        if !reviewedDispatchCounted && MayHaveBeenAccepted(thrown.value) {
          CountReviewedDispatch();
        }
        if !sent {
          if a.settle == Saved || a.settle.applied {
            slot := if MayHaveBeenAccepted(thrown.value) then MarkDispatched(slot, q.reg.requestedAt, None, q.now)
                    else Rollback(slot, q.reg.requestedAt, saved, q.underGuard, q.now);
          }
          thrown := Some(AfterSettlement(thrown.value, a.settle));
        }
      }
    }

    method ContinueWorkerJobLocked(q: Request, a: Answers) returns (thrown: Option<Failure>, reactivated: bool)
      requires !sent && !reviewedDispatchCounted && !accepted && !AlreadyPublished(Abs())
      modifies this
      ensures accepted == IsSent(old(Abs()), a)
      ensures var w := old(Abs());
              && slot == SlotFinally(w, q, a) && limit == QuotaFound(w, a).limit
              && used == QuotaFound(w, a).used + (if IsSent(w, a) || InDoubt(w, a) then 1 else 0)
              && reactivated == Reactivates(w, a)
              && self == (if reactivated then Some(SelfRequest(InProgress, None)) else w.self)
              && (thrown.None? <==> a.gates == Done && (LimitReached(w) || SentInFull(w, a)))
              && (reactivated && thrown.Some? && !accepted ==> MayHaveBeenAccepted(thrown.value) == !SeenAsPlain(w, a))
    {
      hide SeenAsPlain, SlotFound, Changed;
      thrown, reactivated := None, false;
      if a.gates.Fails? { return Some(a.gates.failure), false; }
      if limit.Some? && limit.value <= used { return None, false; }
      if a.load.Fails? { return Some(a.load.failure), false; }
      if self.Some? && self.value.status == ChangesReady {
        var ready := self;
        self := Some(SelfRequest(InProgress, None));
        if a.reactivation.Fails? {
          self := ready;
          return Some(a.reactivation.failure), false;
        }
        reactivated := true;
      }
      SelfDoesNotMatter(old(Abs()), q, a);
      thrown := ReserveAndSend(q, a);
    }

    /** continueWorkerJob, holding the job's lock. */
    method ContinueWorkerJob(q: Request, a: Answers) returns (thrown: bool)
      modifies this
      ensures Abs() == Dispatched(old(Abs()), q, a)
      ensures var w := old(Abs());
              thrown <==> AlreadyPublished(w) || a.gates.Fails? || (!LimitReached(w) && !SentInFull(w, a))
    {
      hide SlotFinally, SeenAsPlain, Changed;
      sent, reviewedDispatchCounted, accepted := false, false, false;
      SentIsNotPlain(Abs(), a);
      if self.Some? && self.value.status == Published {
        SlotUntouched(Abs(), q, a);
        return true;
      }
      var ready := self;
      var failure, reactivated := ContinueWorkerJobLocked(q, a);
      thrown := failure.Some?;
      if thrown && reactivated && !accepted && !MayHaveBeenAccepted(failure.value) {
        if self.Some? && self.value.status == InProgress {
          self := ready;
        }
      }
    }

    /**
     * flush_rejected_acceptance_points: the queued instructions are cleared only after the whole dispatch went well.
     */
    method FlushRejectedPoints(q: Request, a: Answers) returns (thrown: bool, cleared: bool)
      modifies this
      ensures Abs() == Flushed(old(Abs()), q, a)
      ensures self == old(self)
      ensures cleared <==>
              (old(limit).Some? ==> old(used) < old(limit).value) && a.load == Done && a.reserve == Reserved
              && a.prepare == Done && a.guard == Done && a.send.Sent? && a.deliver == Done && a.mark == Saved
      ensures thrown <==> !cleared && (old(limit).Some? ==> old(used) < old(limit).value)
    {
      hide SlotFinally, SeenAsPlain, Changed;
      sent, reviewedDispatchCounted, accepted := false, false, false;
      thrown, cleared := false, false;
      SlotUntouched(Abs().(self := None), q.(binds := false), BatchAnswers(a));
      if limit.Some? && limit.value <= used { return; }
      if a.load.Fails? { return true, false; }
      var failure := ReserveAndSend(q.(binds := false), BatchAnswers(a));
      thrown := failure.Some?;
      cleared := !thrown;
    }

    /**
     * sendPrivateJobFollowUp: no reservation, no compensation, and the turn is counted last of all, so only a
     * send that was answered and whose delivery could be noted counts.
     */
    method SendPrivateJobFollowUp(a: Answers) returns (thrown: bool)
      modifies this`used, this`limit
      ensures Abs() == FollowedUp(old(Abs()), a)
      ensures thrown <==> !((old(limit).Some? ==> old(used) < old(limit).value) && a.load == Done && a.prepare == Done
                            && a.send.Sent? && a.deliver == Done)
    {
      hide Changed;
      if limit.Some? && limit.value <= used { return true; }
      if a.load.Fails? || a.prepare.Fails? { return true; }
      OperatorActs(a.operator);
      if a.send.SendFails? || a.deliver.Fails? { return true; }
      used := used + 1;
      thrown := false;
    }
  }

  predicate FollowUpReachesSend(w: World, a: Answers) {
    !LimitReached(w) && a.load == Done && a.prepare == Done
  }

  predicate FollowUpSent(w: World, a: Answers) {
    FollowUpReachesSend(w, a) && a.send.Sent?
  }

  lemma RegistersOwnTime(s: Slot, q: Request)
    ensures var r := Register(s, q.threadId, q.reg, q.preserve && q.underGuard, q.scope, q.now);
            r.cb.Some? && r.cb.value.requestedAt == q.reg.requestedAt
  {
  }

  lemma SlotUntouched(w: World, q: Request, a: Answers)
    ensures !ReachesReserve(w, a) ==> SlotFinally(w, q, a) == w.slot
  {
  }

  /** Once a dispatch has got as far as its reservation, the self-improvement status makes no difference to it. */
  lemma SelfDoesNotMatter(w: World, q: Request, a: Answers)
    requires ReachesReserve(w, a)
    ensures var v := w.(self := None);
            && ReachesReserve(v, a) && IsSent(v, a) == IsSent(w, a) && InDoubt(v, a) == InDoubt(w, a)
            && SlotFinally(v, q, a) == SlotFinally(w, q, a) && SeenAsPlain(v, a) == SeenAsPlain(w, a)
            && QuotaFound(v, a) == QuotaFound(w, a)
  {
  }

  lemma SentIsNotPlain(w: World, a: Answers)
    ensures IsSent(w, a) ==> !SeenAsPlain(w, a)
  {
  }
}
