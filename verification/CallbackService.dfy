/**
 * The service that owns the callback records: a map of mutable records and the counters beside it
 * (butler-agent.ts, butler-callback-review-runner.ts). Every method is proved to do to its job's slot
 * exactly what the protocol says, to keep or replace the record object as the protocol says, and to leave
 * every other job's slot alone.
 */
module CallbackService {
  import opened Options
  import opened Callbacks
  import opened CallbackProtocol
  import opened JobWork

  /** One record. It is an object: an attempt that holds it can tell whether it is still the one in the map. */
  class CallbackRecord {
    const threadId: ThreadId
    var fields: Callback

    constructor (threadId: ThreadId, fields: Callback)
      ensures this.threadId == threadId && this.fields == fields
    {
      this.threadId, this.fields := threadId, fields;
    }

    method QueueCloseoutReview(reason: ReviewReason, now: int)
      modifies this
      ensures fields == QueueReview(old(fields), reason, now)
    {
      fields := fields.(nextAction := Review, review := Queued, stage := QueuedStage, reason := reason);
      fields := fields.(startedAt := None, deadlineAt := None, nextAttemptAt := None);
      fields := fields.(block := NotBlocked, blockedReportAt := None, updatedAt := now);
    }

    method IdleCloseoutReview(now: int)
      modifies this
      ensures fields == IdleReview(old(fields), now)
    {
      fields := fields.(review := Idle, stage := NoStage, startedAt := None, deadlineAt := None, nextAttemptAt := None);
      fields := fields.(block := NotBlocked, blockedReportAt := None, updatedAt := now);
    }

    method BlockCloseoutReview(gate: string, reason: ReviewReason, reportAt: Option<int>, now: int)
      modifies this
      ensures fields == BlockReview(old(fields), gate, reason, reportAt, now)
    {
      fields := fields.(nextAction := Review, review := Blocked, stage := BlockedStage, deadlineAt := None,
                        nextAttemptAt := None);
      fields := fields.(reason := reason, block := Gated(gate), blockedReportAt := reportAt, updatedAt := now);
    }

    /** What a counted failure does to the record itself. */
    method FailReview(failures: nat, reportAt: Option<int>, now: int)
      requires failures >= 1
      modifies this
      ensures fields == FailAttempt(old(fields), failures, now, reportAt)
    {
      hide Pow2, Backoff;
      if failures >= MAX_ATTEMPTS {
        fields := fields.(review := Blocked, stage := BlockedStage, nextAttemptAt := None, deadlineAt := None);
        fields := fields.(block := AutomationPaused, blockedReportAt := reportAt);
      } else {
        fields := fields.(review := Queued, stage := RetryWait, deadlineAt := None,
                          nextAttemptAt := Some(now + Backoff(failures)));
      }
      fields := fields.(updatedAt := now);
    }

    method ApplyPostedCloseout(resolution: Resolution, reportAt: Option<int>, postedAt: int, now: int)
      modifies this
      ensures fields == PostedCloseout(old(fields), resolution, reportAt, postedAt, now)
    {
      fields := fields.(state := Closed, resolution := resolution);
      if reportAt.Some? { fields := fields.(lastTerminalReportAt := reportAt); }
      fields := fields.(nextAction := Review, closeout := Posted, owes := false, channel := MainChat);
      fields := fields.(review := Idle, stage := NoStage, reason := NoReason, startedAt := None, deadlineAt := None,
                        nextAttemptAt := None);
      fields := fields.(block := NotBlocked, blockedReportAt := None, closedAt := Some(postedAt), updatedAt := now);
    }
  }

  class CallbackStore {
    var pending: map<ThreadId, CallbackRecord>
    var failureCount: map<ThreadId, nat>
    var notBefore: map<ThreadId, int>
    var active: set<ThreadId>
    var work: map<ThreadId, Work>

    constructor ()
      ensures Valid() && pending == map[] && failureCount == map[] && notBefore == map[] && active == {}
              && work == map[]
    {
      pending, failureCount, notBefore, active, work := map[], map[], map[], {}, map[];
    }

    /** Records sit under their own thread, so no two threads share one. */
    ghost predicate Valid()
      reads this
    {
      forall t <- pending :: pending[t].threadId == t
    }

    ghost function SlotAt(t: ThreadId): Slot
      reads this, if t in pending then {pending[t]} else {}
    {
      Slot(if t in pending then Some(pending[t].fields) else None,
           if t in failureCount then Some(failureCount[t]) else None,
           if t in notBefore then Some(notBefore[t]) else None)
    }

    ghost function WorkAt(t: ThreadId): Work
      reads this
    {
      if t in work then work[t] else Work(None, Scope(None, None))
    }

    /** Every other job's slot is as it was, and so is the record it names. */
    twostate predicate OnlyTouches(t: ThreadId)
      reads this, pending.Values
    {
      OnlySlotOf(t) && work == old(work)
    }

    twostate predicate OnlySlotOf(t: ThreadId)
      reads this, pending.Values
    {
      && active == old(active)
      && forall u | u != t ::
           && SlotAt(u) == old(SlotAt(u))
           && (u in pending <==> u in old(pending))
           && (u in pending ==> pending[u] == old(pending[u]))
    }

    method ForgetFailures(t: ThreadId)
      requires Valid()
      modifies this`failureCount, this`notBefore
      ensures Valid() && OnlyTouches(t)
      ensures SlotAt(t) == Slot(old(SlotAt(t)).cb, None, None)
    {
      notBefore := notBefore - {t};
      failureCount := failureCount - {t};
    }

    /** A fresh record takes the place in the map. */
    method Install(t: ThreadId, fields: Callback)
      requires Valid()
      modifies this`pending
      ensures Valid() && OnlyTouches(t) && t in pending && fresh(pending[t])
      ensures SlotAt(t) == old(SlotAt(t)).(cb := Some(fields))
    {
      var record := new CallbackRecord(t, fields);
      pending := pending[t := record];
    }

    /** registerPendingChatCallback: a fresh record, unless a running review is kept in the old one. */
    method RegisterCallback(t: ThreadId, reg: Registration, preserve: bool, scope: Option<string>, now: int)
      requires Valid()
      modifies this, if t in pending then {pending[t]} else {}
      ensures Valid() && OnlyTouches(t) && t in pending
      ensures SlotAt(t) == Register(old(SlotAt(t)), t, reg, preserve, scope, now)
      ensures if KeepsRunning(old(SlotAt(t)).cb, preserve) then t in old(pending) && pending[t] == old(pending[t])
              else fresh(pending[t])
    {
      hide BuildPending, KeepRunningReview;
      ForgetFailures(t);
      var existing := if t in pending then Some(pending[t].fields) else None;
      var next := BuildPending(t, reg, existing, scope, now);
      if preserve && t in pending && pending[t].fields.review == Running {
        pending[t].fields := KeepRunningReview(pending[t].fields, next);
      } else {
        Install(t, next);
      }
    }

    /**
     * reserveDirectCodexMessage: the slot and the job's work are copied before the registration takes the slot's place.
     * What the dispatch then replaces of the work is noted in the copy as it happens.
     */
    method Reserve(t: ThreadId, reg: Registration, guardCurrent: bool, scope: Option<string>, now: int)
      returns (saved: Slot, kept: Replacement)
      requires Valid()
      modifies this, if t in pending then {pending[t]} else {}
      ensures Valid() && OnlyTouches(t) && t in pending
      ensures saved == old(SlotAt(t)) && kept == Replacement(old(WorkAt(t)), None, None)
      ensures SlotAt(t) == Register(old(SlotAt(t)), t, reg, guardCurrent, scope, now)
      ensures if KeepsRunning(saved.cb, guardCurrent) then t in old(pending) && pending[t] == old(pending[t])
              else fresh(pending[t])
    {
      hide Register;
      saved := Slot(if t in pending then Some(pending[t].fields) else None,
                    if t in failureCount then Some(failureCount[t]) else None,
                    if t in notBefore then Some(notBefore[t]) else None);
      kept := Replacement(if t in work then work[t] else Work(None, Scope(None, None)), None, None);
      RegisterCallback(t, reg, guardCurrent, scope, now);
    }

    method BindWorkSlice(t: ThreadId, requestedAt: int, slice: string, now: int) returns (bound: bool)
      requires Valid()
      modifies if t in pending then {pending[t]} else {}
      ensures Valid() && OnlyTouches(t)
      ensures bound == Bind(old(SlotAt(t)), requestedAt, slice, now).Some?
      ensures SlotAt(t) == Bind(old(SlotAt(t)), requestedAt, slice, now).GetOr(old(SlotAt(t)))
    {
      bound := t in pending && pending[t].fields.requestedAt == requestedAt;
      if bound {
        pending[t].fields := pending[t].fields.(workSlice := Some(slice), updatedAt := now);
      }
    }

    method MarkCallbackDispatched(t: ThreadId, requestedAt: int, turn: Option<string>, now: int)
      requires Valid()
      modifies if t in pending then {pending[t]} else {}
      ensures Valid() && OnlyTouches(t)
      ensures SlotAt(t) == MarkDispatched(old(SlotAt(t)), requestedAt, turn, now)
    {
      if t in pending && pending[t].fields.requestedAt == requestedAt {
        pending[t].fields := pending[t].fields.(dispatch := Ready, acceptedTurn := turn, updatedAt := now);
      }
    }

    /**
     * rollbackDirectCodexMessage: the record in the map is emptied and refilled, not replaced, and the job's work is
     * put back if it is still the dispatch's own.
     */
    method RollbackReservation(t: ThreadId, requestedAt: int, saved: Slot, kept: Replacement, guardCurrent: bool,
                               now: int)
      requires Valid()
      modifies this, if t in pending then {pending[t]} else {}
      ensures Valid() && OnlySlotOf(t)
      ensures SlotAt(t) == Rollback(old(SlotAt(t)), requestedAt, saved, guardCurrent, now)
      ensures t in pending ==> t in old(pending) && pending[t] == old(pending[t])
      ensures var holds := t in old(pending) && old(pending[t].fields).requestedAt == requestedAt;
              WorkAt(t) == if holds then RolledBack(old(WorkAt(t)), kept) else old(WorkAt(t))
      ensures forall u :: u != t ==> WorkAt(u) == old(WorkAt(u))
    {
      hide SameScope, RestoredCallback, RolledBack;
      if t !in pending || pending[t].fields.requestedAt != requestedAt { return; }
      RestoreWork(t, kept);
      RestoreSlot(t, saved, guardCurrent, now);
    }

    method RestoreWork(t: ThreadId, kept: Replacement)
      modifies this`work
      ensures WorkAt(t) == RolledBack(old(WorkAt(t)), kept)
      ensures forall u :: u != t ==> WorkAt(u) == old(WorkAt(u))
    {
      hide SameScope;
      var current := if t in work then work[t] else Work(None, Scope(None, None));
      if OwnsPayload(current, kept) && OwnsScope(current, kept) {
        if kept.payload.Some? { current := current.(payload := kept.original.payload); }
        if kept.scope.Some? { current := current.(scope := kept.original.scope); }
        work := work[t := current];
      }
    }

    method RestoreSlot(t: ThreadId, saved: Slot, guardCurrent: bool, now: int)
      requires Valid() && t in pending
      modifies this`pending, this`failureCount, this`notBefore, pending[t]
      ensures Valid() && OnlyTouches(t)
      ensures SlotAt(t)
              == saved.(cb := if saved.cb.Some? then Some(RestoredCallback(saved.cb.value, guardCurrent, now))
                        else None)
      ensures t in pending ==> pending[t] == old(pending[t])
    {
      match saved.cb {
        case Some(cb) =>
          var cancelled := cb.review == Running && !guardCurrent;
          pending[t].fields := if cancelled then cb.(review := Queued, stage := QueuedStage, updatedAt := now) else cb;
        case None =>
          pending := pending - {t};
      }
      failureCount := if saved.fails.Some? then failureCount[t := saved.fails.value] else failureCount - {t};
      notBefore := if saved.notBefore.Some? then notBefore[t := saved.notBefore.value] else notBefore - {t};
    }

    /** reconcileAcceptedWorkerTurn, then reconcileReservedCallbackDispatch. */
    method ReconcileWithThread(t: ThreadId, found: Option<string>, now: int)
      requires Valid() && t in pending
      modifies pending[t]
      ensures Valid() && OnlyTouches(t)
      ensures SlotAt(t) == old(SlotAt(t)).(cb := Some(ReconcileDispatch(old(pending[t].fields), found, now)))
    {
      var callback := pending[t];
      callback.fields := callback.fields.(updatedAt := now);
      if callback.fields.acceptedTurn.None? && found.Some? {
        callback.fields := callback.fields.(acceptedTurn := found);
      }
      if callback.fields.dispatch != Reserving { return; }
      if found.Some? {
        callback.fields := callback.fields.(acceptedTurn := found);
        callback.fields := callback.fields.(dispatch := Ready);
      } else if now - callback.fields.requestedAt >= RESERVED_GRACE_MS {
        callback.fields := callback.fields.(dispatch := Ready);
      }
    }

    /**
     * The synchronous head of an attempt's closeout, once it holds the job's lock: for the record still in the map,
     * running, owed and on its slice, the counters are cleared and the review goes idle, is blocked or is about to be
     * posted.
     */
    method StartCloseout(attempted: CallbackRecord, scope: Option<string>, start: CloseoutStart, now: int)
        returns (runs: bool)
      requires Valid()
      modifies this`failureCount, this`notBefore, attempted
      ensures Valid() && OnlyTouches(attempted.threadId)
      ensures var t := attempted.threadId; var s := old(SlotAt(t));
              && (runs <==>
                  t in old(pending) && old(pending[t]) == attempted && s.cb.value.review == Running
                  && Outstanding(s.cb.value) && OnSlice(s.cb.value, scope))
              && SlotAt(t) == if !runs then s else
                   Slot(Some(match start
                             case GoesIdle => IdleReview(s.cb.value, now)
                             case IsGated(gate, reason, reportAt) =>
                               BlockReview(s.cb.value, gate, reason, reportAt, now)
                             case StartsPost => s.cb.value), None, None)
      ensures !runs ==> attempted.fields == old(attempted.fields)
    {
      hide IdleReview, BlockReview;
      var t := attempted.threadId;
      runs := t in pending && pending[t] == attempted && Outstanding(attempted.fields)
        && attempted.fields.review == Running;
      if runs && attempted.fields.workSlice.Some? && scope.Some? && attempted.fields.workSlice != scope {
        runs := false;
      }
      if !runs { return; }
      ForgetFailures(t);
      match start {
        case GoesIdle => attempted.IdleCloseoutReview(now);
        case IsGated(gate, reason, reportAt) => attempted.BlockCloseoutReview(gate, reason, reportAt, now);
        case StartsPost =>
      }
    }

    /** The end of a post: the record is closed if the caller's review is still the one it was begun on. */
    method FinishPost(attempted: CallbackRecord, resolution: Resolution, reportAt: Option<int>, postedAt: int, now: int)
        returns (posted: bool)
      requires Valid()
      modifies attempted
      ensures Valid() && OnlyTouches(attempted.threadId)
      ensures var t := attempted.threadId; var s := old(SlotAt(t));
              && (posted <==>
                  t in old(pending) && old(pending[t]) == attempted && s.cb.value.review == Running
                  && Outstanding(s.cb.value))
              && SlotAt(t)
                 == if posted then s.(cb := Some(PostedCloseout(s.cb.value, resolution, reportAt, postedAt, now)))
                    else s
      ensures !posted ==> attempted.fields == old(attempted.fields)
    {
      hide PostedCloseout;
      var t := attempted.threadId;
      posted := t in pending && pending[t] == attempted && Outstanding(attempted.fields)
        && attempted.fields.review == Running;
      if posted { attempted.ApplyPostedCloseout(resolution, reportAt, postedAt, now); }
    }

    method CancelReview(t: ThreadId, reportAt: Option<int>, now: int) returns (cancelled: bool)
      requires Valid()
      modifies this`failureCount, this`notBefore, if t in pending then {pending[t]} else {}
      ensures Valid() && OnlyTouches(t)
      ensures SlotAt(t) == Cancel(old(SlotAt(t)), reportAt, now)
      ensures cancelled <==>
              t in pending
              && (old(SlotAt(t)).cb.value.review == Running || old(SlotAt(t)).cb.value.review == Queued)
    {
      hide PauseReview;
      cancelled := t in pending && (pending[t].fields.review == Running || pending[t].fields.review == Queued);
      if cancelled {
        ForgetFailures(t);
        pending[t].fields := PauseReview(pending[t].fields, reportAt, now);
      }
    }

    method RetryReview(t: ThreadId, model: string, now: int) returns (retried: bool)
      requires Valid()
      modifies this`failureCount, this`notBefore, if t in pending then {pending[t]} else {}
      ensures Valid() && OnlyTouches(t)
      ensures SlotAt(t) == Retry(old(SlotAt(t)), model, now)
      ensures retried <==> t in pending && RetryablePause(old(SlotAt(t)).cb.value, None)
    {
      hide QueueReview;
      retried := t in pending && RetryablePause(pending[t].fields, None);
      if retried {
        pending[t].fields := PrepareRetry(pending[t].fields, model);
        ForgetFailures(t);
        if pending[t].fields.review == Blocked {
          var why := if pending[t].fields.reason == NoReason then WorkerCallback else pending[t].fields.reason;
          pending[t].QueueCloseoutReview(why, now);
        }
      }
    }

    method StopSupervision(t: ThreadId, scope: Option<string>, model: string, now: int)
      requires Valid()
      modifies this, if t in pending then {pending[t]} else {}
      ensures Valid() && OnlyTouches(t) && t in pending
      ensures SlotAt(t) == OperatorStop(t, old(SlotAt(t)), scope, model, now)
      ensures if t in old(pending) then pending[t] == old(pending[t]) else fresh(pending[t])
    {
      hide BuildPending;
      if t !in pending {
        var reg := Registration(now, None, false, None, Review, Ready, InheritSlice, model);
        Install(t, BuildPending(t, reg, None, scope, now));
      }
      var base := pending[t].fields;
      pending[t].fields := base.(state := Closed, resolution := Unresolved, closeout := NotRequired, owes := false,
        channel := NoChannel, review := Idle, reason := NoReason, stage := NoStage, startedAt := None,
        deadlineAt := None,
        nextAttemptAt := None, block := NotBlocked, blockedReportAt := None, closedAt := Some(now), updatedAt := now);
      ForgetFailures(t);
    }

    /** removeExternalWorkerDelegation: a failed save puts the very same record and counters back. */
    method RemoveCallback(t: ThreadId, saveFails: bool) returns (removed: bool)
      requires Valid()
      modifies this
      ensures Valid() && OnlyTouches(t)
      ensures removed == (t in old(pending) && !saveFails)
      ensures SlotAt(t) == if removed then Slot(None, None, None) else old(SlotAt(t))
      ensures t in old(pending) && saveFails ==> t in pending && pending[t] == old(pending[t])
    {
      if t !in pending { return false; }
      var callback := pending[t];
      var failures := if t in failureCount then Some(failureCount[t]) else None;
      var due := if t in notBefore then Some(notBefore[t]) else None;
      pending := pending - {t};
      ForgetFailures(t);
      if saveFails {
        PutBack(callback, failures, due);
        return false;
      }
      removed := true;
    }

    method PutBack(callback: CallbackRecord, failures: Option<nat>, due: Option<int>)
      requires Valid() && callback.threadId !in pending && callback.threadId !in failureCount
               && callback.threadId !in notBefore
      modifies this`pending, this`failureCount, this`notBefore
      ensures Valid() && OnlyTouches(callback.threadId)
      ensures callback.threadId in pending && pending[callback.threadId] == callback
      ensures SlotAt(callback.threadId) == Slot(Some(callback.fields), failures, due)
    {
      var t := callback.threadId;
      pending := pending[t := callback];
      if failures.Some? { failureCount := failureCount[t := failures.value]; }
      if due.Some? { notBefore := notBefore[t := due.value]; }
    }

    /** applyCallbackReviewFailure: the count and the not-before time are the thread's, the record is the given one. */
    method ApplyFailure(callback: CallbackRecord, reportAt: Option<int>, now: int)
      requires Valid()
      modifies this`failureCount, this`notBefore, callback
      ensures Valid() && OnlyTouches(callback.threadId)
      ensures var s := old(SlotAt(callback.threadId)).(cb := Some(old(callback.fields)));
              var after := FailedSlot(s, now, reportAt);
              && callback.fields == after.cb.value
              && SlotAt(callback.threadId).fails == after.fails
              && SlotAt(callback.threadId).notBefore == after.notBefore
              && (callback.threadId in pending && pending[callback.threadId] != callback ==>
                    SlotAt(callback.threadId).cb == old(SlotAt(callback.threadId)).cb)
    {
      hide Pow2, Backoff, FailAttempt;
      var t := callback.threadId;
      var failures := (if t in failureCount then failureCount[t] else 0) + 1;
      failureCount := failureCount[t := failures];
      if failures < MAX_ATTEMPTS {
        notBefore := notBefore[t := now + Backoff(failures)];
      }
      callback.FailReview(failures, reportAt, now);
    }

    /** settleCallbackReviewFailure, once it holds the job's lock: only the record still in the map may be charged. */
    method SettleReviewFailure(attempted: CallbackRecord, reportAt: Option<int>, now: int) returns (applied: bool)
      requires Valid()
      modifies this`failureCount, this`notBefore, attempted
      ensures Valid() && OnlyTouches(attempted.threadId)
      ensures var t := attempted.threadId; var s := old(SlotAt(t));
              && (applied <==>
                  t in old(pending) && old(pending[t]) == attempted && s.cb.value.review == Running
                  && Outstanding(s.cb.value))
              && SlotAt(t) == if applied then FailedSlot(s, now, reportAt) else s
      ensures !applied ==> attempted.fields == old(attempted.fields)
    {
      hide FailAttempt, FailedNotBefore;
      var t := attempted.threadId;
      applied := t in pending && pending[t] == attempted && pending[t].fields.review == Running
        && Outstanding(pending[t].fields);
      if applied {
        ApplyFailure(attempted, reportAt, now);
      }
    }

    /**
     * The end of an attempt whose closeout failed or ran out of time: the record the attempt holds is charged
     * if it still runs. Nothing asks whether it is still the one in the map.
     */
    method FallBackToFailure(attempted: CallbackRecord, reportAt: Option<int>, now: int) returns (applied: bool)
      requires Valid()
      modifies this`failureCount, this`notBefore, attempted
      ensures Valid() && OnlyTouches(attempted.threadId)
      ensures applied <==> old(attempted.fields).review == Running
      ensures var t := attempted.threadId; var s := old(SlotAt(t)).(cb := Some(old(attempted.fields)));
              if applied then
                && attempted.fields == FailedSlot(s, now, reportAt).cb.value
                && SlotAt(t).fails == FailedSlot(s, now, reportAt).fails
                && SlotAt(t).notBefore == FailedSlot(s, now, reportAt).notBefore
              else attempted.fields == old(attempted.fields) && SlotAt(t) == old(SlotAt(t))
      ensures var t := attempted.threadId;
              t in pending && pending[t] != attempted ==> SlotAt(t).cb == old(SlotAt(t)).cb
    {
      hide FailedSlot;
      applied := attempted.fields.review == Running;
      if applied {
        ApplyFailure(attempted, reportAt, now);
      }
    }

    /** The locked head of an attempt: supersede, begin, or pass the job by. */
    method BeginReview(t: ThreadId, scope: Option<string>, now: int) returns (live: CallbackRecord?)
      requires Valid()
      modifies if t in pending then {pending[t]} else {}
      ensures Valid() && OnlyTouches(t)
      ensures var s := old(SlotAt(t));
              var takes := s.cb.Some? && Outstanding(s.cb.value) && s.cb.value.review == Queued;
              && (live != null <==> takes && OnSlice(s.cb.value, scope))
              && (live != null ==> t in pending && pending[t] == live)
              && SlotAt(t) == if !takes then s
                              else if live == null then s.(cb := Some(Supersede(s.cb.value, now)))
                              else s.(cb := Some(BeginAttempt(s.cb.value, s.fails.GetOr(0), now)))
    {
      live := null;
      if t !in pending || !Outstanding(pending[t].fields) || pending[t].fields.review != Queued { return; }
      var current := pending[t];
      if current.fields.workSlice.Some? && scope.Some? && current.fields.workSlice != scope {
        current.fields := current.fields.(state := Closed, review := Idle, stage := NoStage, closeout := NotRequired,
                                          owes := false,
          channel := NoChannel, closedAt := Some(now), updatedAt := now);
        return;
      }
      current.fields := BeginAttempt(current.fields, if t in failureCount then failureCount[t] else 0, now);
      live := current;
    }

    method RecoverOne(t: ThreadId, reportAt: Option<int>, now: int) returns (orphan: bool)
      requires Valid() && t in pending
      modifies this`failureCount, this`notBefore, pending[t]
      ensures Valid() && OnlyTouches(t)
      ensures pending == old(pending)
      ensures orphan == Orphaned(old(SlotAt(t)), t in active, now)
      ensures SlotAt(t) == Recovered(old(SlotAt(t)), t in active, now, reportAt)
    {
      hide FailAttempt, FailedNotBefore;
      var callback := pending[t];
      orphan := Outstanding(callback.fields) && t !in active && callback.fields.review == Running
                && callback.fields.deadlineAt.Some? && callback.fields.deadlineAt.value <= now;
      if orphan {
        ApplyFailure(callback, reportAt, now);
      }
    }

    ghost function Slots(): map<ThreadId, Slot>
      reads this, pending.Values
      ensures Slots().Keys == pending.Keys
    {
      map t | t in pending :: SlotAt(t)
    }

    twostate lemma OneSlotChanged(t: ThreadId)
      requires t in old(pending) && pending == old(pending) && OnlyTouches(t)
      ensures Slots() == old(Slots())[t := SlotAt(t)]
    {
      hide SlotAt;
      assert forall u <- pending :: SlotAt(u) == old(Slots())[t := SlotAt(t)][u];
    }

    /**
     * recoverOrphanedCallbackReviews: every orphan is charged, nothing else changes, and the timer asked for
     * is the earliest next attempt any of them announces.
     */
    method RecoverOrphans(reports: map<ThreadId, int>, now: int) returns (changed: bool, retryAt: Option<int>)
      requires Valid()
      modifies this`failureCount, this`notBefore, pending.Values
      ensures Valid() && pending == old(pending) && active == old(active)
      ensures forall t :: t !in pending ==> SlotAt(t) == old(SlotAt(t))
      ensures Swept(old(Slots()), Slots(), pending.Keys, active, reports, now, changed, retryAt)
    {
      hide Swept, SlotAt, Slots, Valid, Recovered, Orphaned, ReportOf, Earlier;
      changed, retryAt := false, None;
      var todo := pending.Keys;
      NothingSwept(Slots(), active, reports, now);
      assert pending.Keys - todo == {};
      while todo != {}
        invariant todo <= pending.Keys && Valid() && pending == old(pending) && active == old(active)
        invariant forall t :: t !in pending ==> SlotAt(t) == old(SlotAt(t))
        invariant Swept(old(Slots()), Slots(), pending.Keys - todo, active, reports, now, changed, retryAt)
        decreases |todo|
      {
        var t :| t in todo;
        label Before:
        SlotOfRecord(t);
        var orphan := RecoverOne(t, ReportOf(reports, t), now);
        OneSlotChanged@Before(t);
        SlotOfRecord(t);
        SweepNext(old(Slots()), old@Before(Slots()), pending.Keys - todo, active, reports, now, changed, retryAt, t,
                  orphan);
        if orphan {
          changed, retryAt := true, Earlier(retryAt, pending[t].fields.nextAttemptAt);
        }
        assert pending.Keys - (todo - {t}) == pending.Keys - todo + {t};
        todo := todo - {t};
      }
      assert pending.Keys - todo == pending.Keys;
    }

    lemma SlotOfRecord(t: ThreadId)
      requires t in pending
      ensures Slots()[t] == SlotAt(t) && SlotAt(t).cb == Some(pending[t].fields)
    {
    }
  }

  /** The next attempt a slot announces. */
  function Announces(s: Slot): Option<int> {
    if s.cb.Some? then s.cb.value.nextAttemptAt else None
  }

  function Earlier(a: Option<int>, b: Option<int>): Option<int> {
    if a.None? || (b.Some? && b.value < a.value) then b else a
  }

  /** The timer is armed no later than the next attempt the slot announces. */
  predicate NotLater(timer: Option<int>, s: Slot) {
    Announces(s).Some? ==> timer.Some? && timer.value <= Announces(s).value
  }

  /** The jobs in `done` were swept: each orphan charged, all others as they were, the timer the earliest announced. */
  ghost predicate Swept(was: map<ThreadId, Slot>, slots: map<ThreadId, Slot>, done: set<ThreadId>,
                        active: set<ThreadId>,
                        reports: map<ThreadId, int>, now: int, changed: bool, retryAt: Option<int>)
  {
    && slots.Keys == was.Keys
    && (forall t <- was ::
        slots[t]
        == if t in done then Recovered(was[t], t in active, now, ReportOf(reports, t)) else was[t])
    && (changed <==> exists t <- was :: t in done && Orphaned(was[t], t in active, now))
    && (forall t <- was :: t in done && Orphaned(was[t], t in active, now) ==> NotLater(retryAt, slots[t]))
    && (retryAt.Some? ==> exists t <- was ::
        t in done && Orphaned(was[t], t in active, now)
        && Announces(slots[t]) == retryAt)
  }

  lemma NothingSwept(was: map<ThreadId, Slot>, active: set<ThreadId>, reports: map<ThreadId, int>, now: int)
    ensures Swept(was, was, {}, active, reports, now, false, None)
  {
  }

  lemma SweepNext(was: map<ThreadId, Slot>, slots: map<ThreadId, Slot>, done: set<ThreadId>, active: set<ThreadId>,
                  reports: map<ThreadId, int>, now: int, changed: bool, retryAt: Option<int>, t: ThreadId, orphan: bool)
    requires Swept(was, slots, done, active, reports, now, changed, retryAt)
    requires t in was && t in slots && t !in done && orphan == Orphaned(slots[t], t in active, now)
    ensures slots.Keys == was.Keys && slots[t] == was[t]
    ensures var next := Recovered(slots[t], t in active, now, ReportOf(reports, t));
            Swept(was, slots[t := next], done + {t}, active, reports, now, changed || orphan,
                  if orphan then Earlier(retryAt, Announces(next)) else retryAt)
  {
    hide Recovered, Orphaned, ReportOf, Announces;
  }

  function ReportOf(reports: map<ThreadId, int>, t: ThreadId): Option<int> {
    if t in reports then Some(reports[t]) else None
  }
}
