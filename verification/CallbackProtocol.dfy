/**
 * One job's callback as a transition system: every operation of the service that touches the job,
 * in every order in which they can interleave.
 *
 * A step is either an operation on the record in the map, or a stage of the review runner's attempt on
 * the job: selection, begin, the attempt itself, and a settlement that waits for the job's lock. The
 * runner waits five seconds for a settlement; after that the settlement stays in the lock's queue and
 * runs later. The lock is first come, first served, so a begin cannot overtake it. An attempt whose begin could not
 * be saved is abandoned: its record says running, and only orphan recovery will find it.
 *
 * `owner`, `charges`, `mark` and the reservation log are bookkeeping: which attempt last began on
 * a record, how many failures each attempt was charged, and the last counted failure.
 */
module CallbackProtocol {
  import opened Options
  import opened Callbacks
  import opened CallbackPersistence

  type RecordId = nat
  type AttemptId = nat

  datatype Ticket =
    | Settle(rec: RecordId, id: AttemptId)     // the attempt failed; its failure waits to be counted
    | Terminal(rec: RecordId, id: AttemptId)   // the attempt ended well; its closeout waits to start
    | Posting(rec: RecordId, id: AttemptId)    // the closeout has started and awaits its post

  datatype Turn =
    | Unselected
    | Selected(at: int, since: nat)            // selected at time `at`, after `since` reservations
    | Begun(rec: RecordId, id: AttemptId)
    | Attempting(rec: RecordId, id: AttemptId)
    | Racing(ticket: Ticket, endedAt: int)     // the settlement has five seconds from `endedAt`

  /** The last failure counted since the count was last cleared: when, and its number. */
  datatype Mark = Mark(at: int, index: nat)

  datatype Reservation = Reservation(requestedAt: int, saved: Slot, mark: Option<Mark>)

  datatype Job = Job(
    threadId: ThreadId,
    clock: int,
    scope: Option<string>,
    recs: map<RecordId, Callback>,
    cur: Option<RecordId>,
    nextRec: RecordId,
    fails: Option<nat>,
    notBefore: Option<int>,
    turn: Turn,
    active: bool,
    late: seq<Ticket>,
    reservations: seq<Reservation>,
    nextId: AttemptId,
    owner: map<RecordId, AttemptId>,
    charges: map<AttemptId, nat>,
    mark: Option<Mark>,
    disk: Option<Callback>,
    diskMark: Option<Mark>)

  datatype CloseoutStart = GoesIdle | IsGated(gate: string, reason: ReviewReason, reportAt: Option<int>) | StartsPost
  datatype CloseoutEnd = PostFailed | PostDone(resolution: Resolution, reportAt: Option<int>, postedAt: int)

  datatype Op =
    | DoRegister(reg: Registration)
    | DoReserve(reg: Registration, guarded: bool)
    | DoBind(requestedAt: int, slice: string)
    | DoMark(requestedAt: int, acceptedTurn: Option<string>)
    | DoRollback(index: nat, guarded: bool)
    | DoReconcileDispatch(found: Option<string>)
    | DoReconcileState(seen: Observed, statusChanged: bool, reportAt: Option<int>)
    | DoProcessReport(seenAt: int, completed: bool, hasText: bool, gate: Option<Gate>)
    | DoProcessMissing
    | DoPost(resolution: Resolution, reportAt: Option<int>, postedAt: int)
    | DoBlock(why: string, reason: ReviewReason, reportAt: Option<int>)   // a post that the gate refused
    | DoCancel(reportAt: Option<int>)
    | DoRetry(model: string)
    | DoStop(model: string)
    | DoRemove
    | DoResetFailures
    | DoProgress(stage: ReviewStage, deadline: Option<int>)

  datatype Step =
    | Operate(op: Op, now: int)
    | ChangeScope(scope: Option<string>)
    | Recover(now: int, reportAt: Option<int>)
    | Select(at: int, now: int)
    | Deselect
    | BeginNext(now: int)
    | Activate
    | Abandon
    | AttemptFails(now: int)
    | AttemptEnds(now: int)
    | RunSettle(now: int, reportAt: Option<int>)
    | StartCloseout(start: CloseoutStart, now: int, reportAt: Option<int>)
    | FinishCloseout(end: CloseoutEnd, now: int, reportAt: Option<int>)
    | RaceTimesOut(now: int, reportAt: Option<int>)
    | RunLate(start: CloseoutStart, end: CloseoutEnd, now: int, reportAt: Option<int>)
    | Save
    | Restart(reviewRecorded: bool, now: int)

  /** How long the runner waits for a settlement. */
  const SETTLE_MS: int := 5_000

  // ---------------------------------------------------------------- reading the state

  predicate HasRecord(j: Job) {
    j.cur.Some? && j.cur.value in j.recs
  }

  function Current(j: Job): Callback
    requires HasRecord(j)
  {
    j.recs[j.cur.value]
  }

  function SlotOf(j: Job): Slot {
    Slot(if HasRecord(j) then Some(Current(j)) else None, j.fails, j.notBefore)
  }

  predicate IsOutstanding(j: Job) {
    HasRecord(j) && Outstanding(Current(j))
  }

  predicate IsRunning(j: Job) {
    HasRecord(j) && Current(j).review == Running
  }

  /** shouldIgnoreCallbackReviewFailure, negated: the attempt may still act on its record. */
  predicate Fenced(j: Job, rec: RecordId) {
    j.cur == Some(rec) && IsOutstanding(j) && IsRunning(j)
  }

  /** The guard under which an attempt's own tools run. */
  predicate GuardCurrent(j: Job) {
    j.turn.Attempting? && Fenced(j, j.turn.rec)
  }

  /**
   * The same guard as a rollback knows it: it is asked for before the payload is put back, and the attempt may have
   * ended by the time the record is.
   */
  predicate GuardKnown(j: Job) {
    GuardCurrent(j) || (j.turn.Racing? && Fenced(j, j.turn.ticket.rec))
  }

  predicate Runnable(j: Job, at: int) {
    IsOutstanding(j) && Current(j).dispatch != Reserving && Current(j).review == Queued
    && j.notBefore.GetOr(0) <= at
  }

  // ---------------------------------------------------------------- the three ways the state changes

  /** Puts a new slot in place: into the record in the map, into a fresh record, or nothing at all. */
  function Put(j: Job, s: Slot, anew: bool, mark: Option<Mark>): Job {
    var place := if anew || !HasRecord(j) then j.nextRec else j.cur.value;
    j.(recs := if s.cb.None? then j.recs else j.recs[place := s.cb.value],
       cur := if s.cb.None? then None else Some(place),
       nextRec := if s.cb.Some? && (anew || !HasRecord(j)) then j.nextRec + 1 else j.nextRec,
       fails := s.fails,
       notBefore := s.notBefore,
       mark := mark)
  }

  /** applyCallbackReviewFailure on a record the runner holds, whether or not it is still in the map. */
  function Charge(j: Job, rec: RecordId, now: int, reportAt: Option<int>): Job
    requires rec in j.recs
  {
    var failures := FailedCount(j.fails);
    j.(recs := j.recs[rec := FailAttempt(j.recs[rec], failures, now, reportAt)],
       fails := Some(failures),
       notBefore := FailedNotBefore(j.fails, j.notBefore, now),
       mark := Some(Mark(now, failures)),
       charges := if rec in j.owner then j.charges[j.owner[rec] := ChargesOf(j, j.owner[rec]) + 1] else j.charges)
  }

  function ChargesOf(j: Job, id: AttemptId): nat {
    if id in j.charges then j.charges[id] else 0
  }

  function Begin(j: Job, now: int): Job
    requires HasRecord(j)
  {
    j.(recs := j.recs[j.cur.value := BeginAttempt(Current(j), j.fails.GetOr(0), now)],
       owner := j.owner[j.cur.value := j.nextId],
       turn := Begun(j.cur.value, j.nextId),
       nextId := j.nextId + 1)
  }

  // ---------------------------------------------------------------- operations on the record in the map

  predicate OpEnabled(j: Job, op: Op) {
    match op
    case DoRegister(reg) => FreshTime(j, reg.requestedAt)
    case DoReserve(reg, guarded) =>
      FreshTime(j, reg.requestedAt) && reg.dispatch == Reserving && (guarded ==> GuardCurrent(j))
    case DoBind(requestedAt, _) => HasRecord(j) && Current(j).requestedAt == requestedAt
    case DoMark(_, _) => true
    case DoRollback(index, _) => index < |j.reservations|
    case DoReconcileDispatch(_) => IsOutstanding(j)
    case DoReconcileState(_, _, _) => IsOutstanding(j) && Current(j).dispatch == Ready
    case DoProcessReport(_, _, _, _) => IsOutstanding(j) && Current(j).dispatch == Ready
    case DoProcessMissing => IsOutstanding(j) && Current(j).dispatch == Ready
    case DoPost(_, _, _) => IsOutstanding(j) && (Current(j).workSlice.Some? ==> Current(j).workSlice == j.scope)
    case DoBlock(_, _, _) => IsOutstanding(j) && (Current(j).workSlice.Some? ==> Current(j).workSlice == j.scope)
    case DoCancel(_) => true
    case DoRetry(_) => true
    case DoStop(_) => true
    case DoRemove => true
    case DoResetFailures => true
    case DoProgress(stage, _) => IsOutstanding(j) && IsRunning(j)
                                 && (stage == Preparing || stage == ReviewingChanges || stage == SupervisingCloseout)
  }

  /** Request times are distinct: no earlier reservation was made for the same instant. */
  predicate FreshTime(j: Job, requestedAt: int) {
    forall r <- j.reservations :: r.requestedAt != requestedAt
  }

  /** The slot an operation leaves. */
  function OpSlot(j: Job, op: Op, now: int): Slot
    requires OpEnabled(j, op)
  {
    var s := SlotOf(j);
    match op
    case DoRegister(reg) => Register(s, j.threadId, reg, false, j.scope, now)
    case DoReserve(reg, guarded) => Register(s, j.threadId, reg, guarded, j.scope, now)
    case DoBind(requestedAt, slice) => Bind(s, requestedAt, slice, now).value
    case DoMark(requestedAt, acceptedTurn) => MarkDispatched(s, requestedAt, acceptedTurn, now)
    case DoRollback(index, guarded) =>
      Rollback(s, j.reservations[index].requestedAt, j.reservations[index].saved, guarded && GuardKnown(j), now)
    case DoReconcileDispatch(found) => s.(cb := Some(ReconcileDispatch(Current(j), found, now)))
    case DoReconcileState(seen, statusChanged, reportAt) =>
      s.(cb := Some(ReconcileState(Current(j), seen, statusChanged, reportAt, now)))
    case DoProcessReport(seenAt, completed, hasText, gate) =>
      s.(cb := Some(ProcessReport(Current(j), seenAt, completed, hasText, gate, now).cb))
    case DoProcessMissing => s.(cb := Some(ProcessMissing(Current(j), now)))
    case DoPost(resolution, reportAt, postedAt) =>
      s.(cb := Some(PostedCloseout(Current(j), resolution, reportAt, postedAt, now)))
    case DoBlock(why, reason, reportAt) => s.(cb := Some(BlockReview(Current(j), why, reason, reportAt, now)))
    case DoCancel(reportAt) => Cancel(s, reportAt, now)
    case DoRetry(model) => Retry(s, model, now)
    case DoStop(model) => OperatorStop(j.threadId, s, j.scope, model, now)
    case DoRemove => if s.cb.Some? then Slot(None, None, None) else s
    case DoResetFailures => ResetFailures(s, now)
    case DoProgress(stage, deadline) => s.(cb := Some(Progress(Current(j), stage, deadline, now)))
  }

  /** Only a registration that does not keep a running review installs a new object. */
  predicate OpIsFresh(j: Job, op: Op) {
    match op
    case DoRegister(_) => true
    case DoReserve(_, guarded) => !KeepsRunning(SlotOf(j).cb, guarded)
    case _ => false
  }

  predicate RollbackApplies(j: Job, index: nat)
    requires index < |j.reservations|
  {
    HasRecord(j) && Current(j).requestedAt == j.reservations[index].requestedAt
  }

  function OpMark(j: Job, op: Op): Option<Mark>
    requires OpEnabled(j, op)
  {
    match op
    case DoRegister(_) => None
    case DoReserve(_, _) => None
    case DoRollback(index, _) => if RollbackApplies(j, index) then j.reservations[index].mark else j.mark
    case DoCancel(_) =>
      if HasRecord(j) && (Current(j).review == Running || Current(j).review == Queued) then None else j.mark
    case DoRetry(_) => if HasRecord(j) && RetryablePause(Current(j), None) then None else j.mark
    case DoStop(_) => None
    case DoRemove => if HasRecord(j) then None else j.mark
    case DoResetFailures => if HasRecord(j) then None else j.mark
    case _ => j.mark
  }

  function Operated(j: Job, op: Op, now: int): Job
    requires OpEnabled(j, op)
  {
    var put := Put(j, OpSlot(j, op, now), OpIsFresh(j, op), OpMark(j, op));
    if op.DoReserve? then put.(reservations := j.reservations + [Reservation(op.reg.requestedAt, SlotOf(j), j.mark)])
    else put
  }

  // ---------------------------------------------------------------- the review runner

  /** The attempt's iteration ends: the job is no longer active and no longer this pass's business. */
  function Leave(j: Job): Job {
    j.(turn := Unselected, active := false)
  }

  function SettleFailure(j: Job, rec: RecordId, now: int, reportAt: Option<int>): Job {
    if rec in j.recs && Fenced(j, rec) then Charge(j, rec, now, reportAt) else j
  }

  /** Closeout that failed or did not finish in time: the failure is charged to the attempt's record. */
  function FallBack(j: Job, rec: RecordId, now: int, reportAt: Option<int>): Job {
    if rec in j.recs && j.recs[rec].review == Running then Charge(j, rec, now, reportAt) else j
  }

  predicate CloseoutRuns(j: Job, rec: RecordId) {
    Fenced(j, rec) && OnSlice(Current(j), j.scope)
  }

  /** The synchronous head of the closeout: it clears the counters, then settles or starts to post. */
  function CloseoutHead(j: Job, start: CloseoutStart, now: int): Job
    requires HasRecord(j)
  {
    var cb := match start
              case GoesIdle => IdleReview(Current(j), now)
              case IsGated(gate, reason, reportAt) => BlockReview(Current(j), gate, reason, reportAt, now)
              case StartsPost => Current(j);
    Put(j, Slot(Some(cb), None, None), false, None)
  }

  function CloseoutTail(j: Job, rec: RecordId, end: CloseoutEnd, now: int): Job {
    if end.PostDone? && Fenced(j, rec)
    then Put(j, SlotOf(j).(cb := Some(PostedCloseout(Current(j), end.resolution, end.reportAt, end.postedAt, now))),
             false, j.mark)
    else j
  }

  predicate Enabled(j: Job, step: Step) {
    match step
    case Operate(op, now) => j.clock <= now && OpEnabled(j, op)
    case ChangeScope(_) => true
    case Recover(now, _) => j.clock <= now && !j.active && IsOutstanding(j) && IsRunning(j)
                            && Current(j).deadlineAt.Some? && Current(j).deadlineAt.value <= now
    case Select(at, now) => j.turn.Unselected? && 0 <= at <= now && j.clock <= now && Runnable(j, at)
    case Deselect => j.turn.Selected?
    case BeginNext(now) => j.turn.Selected? && j.clock <= now && j.late == []
    case Activate => j.turn.Begun?
    case Abandon => j.turn.Begun?
    case AttemptFails(now) => j.turn.Attempting? && j.clock <= now
    case AttemptEnds(now) => j.turn.Attempting? && j.clock <= now
    case RunSettle(now, _) => j.turn.Racing? && j.turn.ticket.Settle? && j.clock <= now && j.late == []
    case StartCloseout(_, now, _) => j.turn.Racing? && j.turn.ticket.Terminal? && j.clock <= now && j.late == []
    case FinishCloseout(_, now, _) => j.turn.Racing? && j.turn.ticket.Posting? && j.clock <= now
    case RaceTimesOut(now, _) => j.turn.Racing? && j.clock <= now && j.turn.endedAt + SETTLE_MS <= now
    case RunLate(_, _, now, _) => j.late != [] && j.clock <= now
    case Save => true
    case Restart(_, now) => j.clock <= now
  }

  predicate BeginTakes(j: Job) {
    IsOutstanding(j) && Current(j).review == Queued
  }

  predicate BeginSupersedes(j: Job) {
    BeginTakes(j) && !OnSlice(Current(j), j.scope)
  }

  predicate BeginsAttempt(j: Job) {
    BeginTakes(j) && OnSlice(Current(j), j.scope)
  }

  function BegunNext(j: Job, now: int): Job {
    if BeginsAttempt(j) then Begin(j, now)
    else if BeginSupersedes(j)
    then Put(j, SlotOf(j).(cb := Some(Supersede(Current(j), now))), false, j.mark).(turn := Unselected)
    else j.(turn := Unselected)
  }

  function StartedCloseout(j: Job, start: CloseoutStart, now: int): Job
    requires j.turn.Racing?
  {
    var ticket := j.turn.ticket;
    if !CloseoutRuns(j, ticket.rec) then Leave(j)
    else if start.StartsPost?
    then CloseoutHead(j, start, now).(turn := Racing(Posting(ticket.rec, ticket.id), j.turn.endedAt))
    else Leave(CloseoutHead(j, start, now))
  }

  function FinishedCloseout(j: Job, rec: RecordId, end: CloseoutEnd, now: int, reportAt: Option<int>): Job {
    if end.PostDone? && Fenced(j, rec) then Leave(CloseoutTail(j, rec, end, now))
    else Leave(FallBack(j, rec, now, reportAt))
  }

  function TimedOut(j: Job, now: int, reportAt: Option<int>): Job
    requires j.turn.Racing?
  {
    var ticket := j.turn.ticket;
    var settled := if ticket.Settle? then j else FallBack(j, ticket.rec, now, reportAt);
    Leave(settled).(late := j.late + [ticket])
  }

  /** A settlement whose race was lost runs when the lock reaches it. */
  function LateRun(j: Job, start: CloseoutStart, end: CloseoutEnd, now: int, reportAt: Option<int>): Job
    requires j.late != []
  {
    var ticket := j.late[0];
    var rest := j.(late := j.late[1..]);
    match ticket
    case Settle(rec, _) => SettleFailure(rest, rec, now, reportAt)
    case Terminal(rec, id) =>
      if !CloseoutRuns(rest, rec) then rest
      else if start.StartsPost? then CloseoutHead(rest, start, now).(late := [Posting(rec, id)] + rest.late)
      else CloseoutHead(rest, start, now)
    case Posting(rec, _) => CloseoutTail(rest, rec, end, now)
  }

  /** The count and not-before time are those of the failure `mark` recorded. */
  predicate MarkFits(mark: Option<Mark>, fails: Option<nat>, notBefore: Option<int>) {
    mark.Some? ==>
      && fails == Some(mark.value.index)
      && mark.value.index >= 1
      && (mark.value.index < MAX_ATTEMPTS ==> notBefore == Some(mark.value.at + Backoff(mark.value.index)))
  }

  /** A crash forgets everything but the state file. */
  function Reloaded(j: Job, reviewRecorded: bool, now: int): Job {
    var s := if j.disk.Some? then Restarted(Persisted(j.disk.value), reviewRecorded, now) else Slot(None, None, None);
    var mark := if s.fails.Some? && MarkFits(j.diskMark, s.fails, s.notBefore) then j.diskMark else None;
    Put(Blank(j), s, true, mark)
  }

  function Blank(j: Job): Job {
    j.(recs := map[], cur := None, turn := Unselected, active := false, late := [], reservations := [], owner := map[])
  }

  function Stepped(j: Job, step: Step): Job
    requires Enabled(j, step)
  {
    match step
    case Operate(op, now) => Operated(j, op, now)
    case ChangeScope(scope) => j.(scope := scope)
    case Recover(now, reportAt) => Charge(j, j.cur.value, now, reportAt)
    case Select(at, now) => j.(turn := Selected(at, |j.reservations|))
    case Deselect => j.(turn := Unselected)
    case BeginNext(now) => BegunNext(j, now)
    case Activate => j.(turn := Attempting(j.turn.rec, j.turn.id), active := true)
    case Abandon => j.(turn := Unselected)
    case AttemptFails(now) => j.(turn := Racing(Settle(j.turn.rec, j.turn.id), now))
    case AttemptEnds(now) => j.(turn := Racing(Terminal(j.turn.rec, j.turn.id), now))
    case RunSettle(now, reportAt) => Leave(SettleFailure(j, j.turn.ticket.rec, now, reportAt))
    case StartCloseout(start, now, _) => StartedCloseout(j, start, now)
    case FinishCloseout(end, now, reportAt) => FinishedCloseout(j, j.turn.ticket.rec, end, now, reportAt)
    case RaceTimesOut(now, reportAt) => TimedOut(j, now, reportAt)
    case RunLate(start, end, now, reportAt) => LateRun(j, start, end, now, reportAt)
    case Save => j.(disk := SlotOf(j).cb, diskMark := j.mark)
    case Restart(reviewRecorded, now) => Reloaded(j, reviewRecorded, now)
  }

  function TimeOf(j: Job, step: Step): int {
    match step
    case Operate(_, now) => now
    case Recover(now, _) => now
    case Select(_, now) => now
    case BeginNext(now) => now
    case AttemptFails(now) => now
    case AttemptEnds(now) => now
    case RunSettle(now, _) => now
    case StartCloseout(_, now, _) => now
    case FinishCloseout(_, now, _) => now
    case RaceTimesOut(now, _) => now
    case RunLate(_, _, now, _) => now
    case Restart(_, now) => now
    case _ => j.clock
  }

  function Next(j: Job, step: Step): Job
    requires Enabled(j, step)
  {
    Stepped(j, step).(clock := TimeOf(j, step))
  }

  function Init(threadId: ThreadId, clock: int, scope: Option<string>): Job {
    Job(threadId, clock, scope, map[], None, 0, None, None, Unselected, false, [], [], 0, map[], map[], None,
        None, None)
  }

  predicate Legal(j: Job, steps: seq<Step>)
    decreases |steps|
  {
    steps == [] || (Enabled(j, steps[0]) && Legal(Next(j, steps[0]), steps[1..]))
  }

  function Run(j: Job, steps: seq<Step>): Job
    requires Legal(j, steps)
    decreases |steps|
  {
    if steps == [] then j else Run(Next(j, steps[0]), steps[1..])
  }
}
