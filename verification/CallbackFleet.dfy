/**
 * All jobs of a service together, with the scheduler of its review passes and the passes themselves. A pass chooses
 * every runnable job and works through them one after another; the scheduler decides when a pass starts. Everything
 * else that happens to a job happens at any time. Whatever the jobs do together, each of them lives a life of its own
 * in CallbackProtocol, so every theorem about one job holds for all; and no two jobs are ever under review at once.
 */
module CallbackFleet {
  import opened Callbacks
  import opened CallbackProtocol
  import opened CallbackTiming
  import CallbackSafety
  import CallbackObligations
  import ReviewScheduler

  /** One call of processCallbackReviews: before its selection, or in its loop with the jobs that are still to come. */
  datatype Pass = Choosing | Loop(todo: seq<ThreadId>, failed: bool)

  datatype Fleet = Fleet(jobs: map<ThreadId, Job>, scheduler: ReviewScheduler.State, passes: seq<Pass>)

  datatype FleetStep =
    | At(t: ThreadId, step: Step)                              // an operation, a recovery or a late settlement
    | Asked(event: ReviewScheduler.Event)                      // a call of the scheduler, or its timer
    | Choose(pass: nat, todo: seq<ThreadId>, at: int, now: int)
    | Work(pass: nat, step: Step)                              // the pass's loop, on the job that is its turn
    | PassEnds(pass: nat)
    | SaveAll
    | RestartAll(recorded: set<ThreadId>, now: int)            // recorded: the jobs whose review is on record

  /** The runner is at work on the job: from the beginning of an attempt to the end of its settlement. */
  predicate Working(j: Job) {
    j.turn.Begun? || j.turn.Attempting? || j.turn.Racing?
  }

  /** The steps that the body of the pass's loop takes. */
  predicate IsWork(step: Step) {
    step.BeginNext? || step.Activate? || step.Abandon? || step.AttemptFails? || step.AttemptEnds? || step.RunSettle?
    || step.StartCloseout? || step.FinishCloseout? || step.RaceTimesOut?
  }

  /** The steps that come from outside the pass. */
  predicate IsOutside(step: Step) {
    step.Operate? || step.ChangeScope? || step.Recover? || step.RunLate?
  }

  predicate Distinct(ts: seq<ThreadId>) {
    forall i, k | 0 <= i < k < |ts| :: ts[i] != ts[k]
  }

  /** A pass takes exactly the runnable jobs, each once, those that were updated first first. */
  predicate IsChoice(jobs: map<ThreadId, Job>, todo: seq<ThreadId>, at: int) {
    && Distinct(todo)
    && (forall t <- todo :: t in jobs)
    && (forall t <- jobs :: t in todo <==> Runnable(jobs[t], at))
    && (forall i, k | 0 <= i < k < |todo| :: Current(jobs[todo[i]]).updatedAt <= Current(jobs[todo[k]]).updatedAt)
  }

  /** The pass may end: it chose nothing, or its loop is through or broke off, but not in the middle of an attempt. */
  predicate MayEnd(f: Fleet, p: Pass) {
    p.Choosing? || p.todo == [] || (p.todo[0] in f.jobs && !Working(f.jobs[p.todo[0]]))
  }

  predicate FleetEnabled(f: Fleet, s: FleetStep) {
    match s
    case At(t, step) => t in f.jobs && IsOutside(step) && Enabled(f.jobs[t], step)
    case Asked(event) => event != ReviewScheduler.Settle && ReviewScheduler.Enabled(f.scheduler, event)
    case Choose(pass, todo, at, now) =>
      && pass < |f.passes| && f.passes[pass].Choosing?
      && IsChoice(f.jobs, todo, at)
      && 0 <= at <= now && (forall t <- todo :: f.jobs[t].clock <= now)
    case Work(pass, step) =>
      && pass < |f.passes| && f.passes[pass].Loop? && f.passes[pass].todo != [] && !f.passes[pass].failed
      && f.passes[pass].todo[0] in f.jobs
      && IsWork(step) && Enabled(f.jobs[f.passes[pass].todo[0]], step)
    case PassEnds(pass) => pass < |f.passes| && MayEnd(f, f.passes[pass])
    case SaveAll => true
    case RestartAll(_, now) => forall t <- f.jobs :: f.jobs[t].clock <= now
  }

  /**
   * The error of a failed attempt, of a settlement that ran out of time or of a begin that was not saved ends the loop.
   */
  predicate BreaksOff(j: Job, step: Step)
    requires Enabled(j, step)
  {
    || (step.RunSettle? && Fenced(j, j.turn.ticket.rec))
    || (step.RaceTimesOut? && j.turn.ticket.Settle?)
    || step.Abandon?
  }

  /** What the loop does next: it awaits the end of the attempt, takes the next job, or breaks off. */
  function Advanced(p: Pass, j: Job, step: Step): Pass
    requires p.Loop? && p.todo != [] && Enabled(j, step)
  {
    if Working(Next(j, step)) then p else Loop(p.todo[1..], BreaksOff(j, step))
  }

  /** The jobs a pass chose are marked as chosen; those it leaves behind are not chosen any more. */
  function Chosen(jobs: map<ThreadId, Job>, todo: seq<ThreadId>, at: int, now: int): map<ThreadId, Job> {
    map t | t in jobs :: if t in todo then jobs[t].(turn := Selected(at, |jobs[t].reservations|), clock := now)
      else jobs[t]
  }

  function Dropped(jobs: map<ThreadId, Job>, todo: seq<ThreadId>): map<ThreadId, Job> {
    map t | t in jobs :: if t in todo then jobs[t].(turn := Unselected) else jobs[t]
  }

  function Remaining(p: Pass): seq<ThreadId> {
    if p.Loop? then p.todo else []
  }

  /** The scheduler takes the event; if it starts a pass, there is one more. */
  function Scheduled(f: Fleet, event: ReviewScheduler.Event): Fleet {
    f.(scheduler := ReviewScheduler.Step(f.scheduler, event),
       passes := if ReviewScheduler.Starts(f.scheduler, event) then f.passes + [Choosing] else f.passes)
  }

  function FleetNext(f: Fleet, s: FleetStep): Fleet
    requires FleetEnabled(f, s)
  {
    match s
    case At(t, step) => f.(jobs := f.jobs[t := Next(f.jobs[t], step)])
    case Asked(event) => Scheduled(f, event)
    case Choose(pass, todo, at, now) =>
      f.(jobs := Chosen(f.jobs, todo, at, now), passes := f.passes[pass := Loop(todo, false)])
    case Work(pass, step) =>
      var t := f.passes[pass].todo[0];
      f.(jobs := f.jobs[t := Next(f.jobs[t], step)],
         passes := f.passes[pass := Advanced(f.passes[pass], f.jobs[t], step)])
    case PassEnds(pass) =>
      Scheduled(f.(jobs := Dropped(f.jobs, Remaining(f.passes[pass])),
                   passes := f.passes[..pass] + f.passes[pass + 1..]),
                ReviewScheduler.Settle)
    case SaveAll => f.(jobs := map t | t in f.jobs :: Next(f.jobs[t], Save))
    case RestartAll(recorded, now) =>
      Fleet(map t | t in f.jobs :: Next(f.jobs[t], Restart(t in recorded, now)), ReviewScheduler.IDLE, [])
  }

  predicate FleetLegal(f: Fleet, ss: seq<FleetStep>)
    decreases |ss|
  {
    ss == [] || (FleetEnabled(f, ss[0]) && FleetLegal(FleetNext(f, ss[0]), ss[1..]))
  }

  function FleetRun(f: Fleet, ss: seq<FleetStep>): Fleet
    requires FleetLegal(f, ss)
    decreases |ss|
  {
    if ss == [] then f else FleetRun(FleetNext(f, ss[0]), ss[1..])
  }

  // ---------------------------------------------------------------- what the scheduler and the loop bring about

  /** The jobs the pass in flight has still to do. */
  function Todo(f: Fleet): seq<ThreadId> {
    if |f.passes| == 1 then Remaining(f.passes[0]) else []
  }

  /** A job is in the pass's hands as far as the pass has it before it, and at work only when it is its turn. */
  predicate Placed(j: Job, t: ThreadId, todo: seq<ThreadId>) {
    if t !in todo then j.turn.Unselected?
    else if t == todo[0] then j.turn.Selected? || Working(j)
    else j.turn.Selected?
  }

  ghost predicate FleetSound(f: Fleet) {
    && |f.passes| == (if f.scheduler.inFlight then 1 else 0)
    && Distinct(Todo(f))
    && (forall t <- Todo(f) :: t in f.jobs)
    && (forall t <- f.jobs :: Placed(f.jobs[t], t, Todo(f)))
  }

  lemma OutsideKeepsTurn(j: Job, step: Step)
    requires Enabled(j, step) && IsOutside(step)
    ensures Next(j, step).turn == j.turn
  {
    hide Operated, OpEnabled, LateRun, Charge, IsOutstanding;
    match step
    case Operate(op, now) => OperatedIsTheSlot(j, op, now);
    case RunLate(start, end, now, reportAt) => LateKeepsTurn(j, start, end, now, reportAt);
    case Recover(now, reportAt) => ChargeKeepsTurn(j, now, reportAt);
    case _ =>
  }

  lemma WorkMovesOn(j: Job, step: Step)
    requires Enabled(j, step) && IsWork(step)
    ensures Working(Next(j, step)) || Next(j, step).turn.Unselected?
    ensures BreaksOff(j, step) ==> !Working(Next(j, step))
  {
    hide BeginAttempt, OnSlice, Outstanding, FailAttempt, FailedNotBefore, CloseoutHead, CloseoutTail, FallBack,
         SettleFailure, Put, Fenced;
  }

  lemma AtKeepsSound(f: Fleet, t: ThreadId, step: Step)
    requires FleetSound(f) && FleetEnabled(f, At(t, step))
    ensures FleetSound(FleetNext(f, At(t, step)))
  {
    hide Next, Enabled, Distinct;
    OutsideKeepsTurn(f.jobs[t], step);
  }

  lemma AskedKeepsSound(f: Fleet, event: ReviewScheduler.Event)
    requires FleetSound(f) && FleetEnabled(f, Asked(event))
    ensures FleetSound(FleetNext(f, Asked(event)))
  {
    hide Placed, Distinct;
    var k := FleetNext(f, Asked(event));
    SchedulerStarts(f.scheduler, event);
    assert Todo(k) == Todo(f);
  }

  /** A pass starts only when none is in flight. */
  lemma SchedulerStarts(s: ReviewScheduler.State, event: ReviewScheduler.Event)
    ensures event != ReviewScheduler.Settle ==>
              (ReviewScheduler.Step(s, event).inFlight <==> s.inFlight || ReviewScheduler.Starts(s, event))
              && (ReviewScheduler.Starts(s, event) ==> !s.inFlight)
    ensures event == ReviewScheduler.Settle
            ==> (ReviewScheduler.Step(s, event).inFlight <==> ReviewScheduler.Starts(s, event))
  {
  }

  lemma ChooseKeepsSound(f: Fleet, todo: seq<ThreadId>, at: int, now: int)
    requires FleetSound(f) && FleetEnabled(f, Choose(0, todo, at, now))
    ensures FleetSound(FleetNext(f, Choose(0, todo, at, now)))
    ensures forall t <- f.jobs :: f.jobs[t].turn.Unselected?
  {
    hide Runnable, Distinct;
    var k := FleetNext(f, Choose(0, todo, at, now));
    assert Todo(f) == [] && Todo(k) == todo;
  }

  lemma WorkKeepsSound(f: Fleet, step: Step)
    requires FleetSound(f) && FleetEnabled(f, Work(0, step))
    ensures FleetSound(FleetNext(f, Work(0, step)))
  {
    hide Next, Enabled;
    var todo := Todo(f);
    var k := FleetNext(f, Work(0, step));
    WorkMovesOn(f.jobs[todo[0]], step);
    if Working(Next(f.jobs[todo[0]], step)) {
      assert Todo(k) == todo;
    } else {
      assert Todo(k) == todo[1..];
      assert todo == [todo[0]] + todo[1..];
    }
  }

  lemma EndKeepsSound(f: Fleet)
    requires FleetSound(f) && FleetEnabled(f, PassEnds(0))
    ensures FleetSound(FleetNext(f, PassEnds(0)))
  {
    hide Distinct;
    var k := FleetNext(f, PassEnds(0));
    SchedulerStarts(f.scheduler, ReviewScheduler.Settle);
    assert f.passes[..0] + f.passes[1..] == [];
    assert Todo(k) == [] && Distinct([]) by { NothingRepeats(); }
  }

  lemma NothingRepeats()
    ensures Distinct([])
  {
  }

  lemma SaveKeepsTurn(j: Job)
    ensures Enabled(j, Save) && Next(j, Save).turn == j.turn
  {
  }

  lemma SaveAllKeepsSound(f: Fleet)
    requires FleetSound(f)
    ensures FleetSound(FleetNext(f, SaveAll))
  {
    hide Next, Enabled, Distinct;
    forall t | t in f.jobs ensures Enabled(f.jobs[t], Save) && Next(f.jobs[t], Save).turn == f.jobs[t].turn {
      SaveKeepsTurn(f.jobs[t]);
    }
  }

  lemma RestartAllKeepsSound(f: Fleet, recorded: set<ThreadId>, now: int)
    requires FleetEnabled(f, RestartAll(recorded, now))
    ensures FleetSound(FleetNext(f, RestartAll(recorded, now)))
  {
    hide Reloaded, Distinct;
    NothingRepeats();
    forall t | t in f.jobs ensures Next(f.jobs[t], Restart(t in recorded, now)).turn == Unselected {
      RestartForgetsTurn(f.jobs[t], t in recorded, now);
    }
  }

  lemma StepKeepsFleetSound(f: Fleet, s: FleetStep)
    requires FleetSound(f) && FleetEnabled(f, s)
    ensures FleetSound(FleetNext(f, s))
  {
    hide Placed, Distinct, IsChoice, Next, Enabled, Scheduled, Advanced, MayEnd;
    match s
    case At(t, step) => AtKeepsSound(f, t, step);
    case Asked(event) => AskedKeepsSound(f, event);
    case Choose(pass, todo, at, now) => ChooseKeepsSound(f, todo, at, now);
    case Work(pass, step) => WorkKeepsSound(f, step);
    case PassEnds(pass) => EndKeepsSound(f);
    case SaveAll => SaveAllKeepsSound(f);
    case RestartAll(recorded, now) => RestartAllKeepsSound(f, recorded, now);
  }

  lemma {:induction false} RunKeepsFleetSound(f: Fleet, ss: seq<FleetStep>)
    requires FleetSound(f) && FleetLegal(f, ss)
    ensures FleetSound(FleetRun(f, ss))
    decreases |ss|
  {
    hide FleetSound, FleetNext, FleetEnabled;
    if ss != [] {
      StepKeepsFleetSound(f, ss[0]);
      RunKeepsFleetSound(FleetNext(f, ss[0]), ss[1..]);
    }
  }

  /** A service that has just been started for the first time. */
  predicate IsNew(f: Fleet) {
    && f.scheduler == ReviewScheduler.IDLE && f.passes == []
    && forall t <- f.jobs :: f.jobs[t] == Init(t, f.jobs[t].clock, f.jobs[t].scope)
  }

  /**
   * Over any history of the whole service at most one pass is in flight, exactly when the scheduler says so, and at
   * most one job is under review: the first of those the pass still has before it.
   */
  lemma OneReviewAtATime(f: Fleet, ss: seq<FleetStep>)
    requires IsNew(f) && FleetLegal(f, ss)
    ensures var k := FleetRun(f, ss);
            && |k.passes| == (if k.scheduler.inFlight then 1 else 0)
            && (forall t <- k.jobs ::
                Working(k.jobs[t])
                ==> |k.passes| == 1 && k.passes[0].Loop? && k.passes[0].todo != [] && t == k.passes[0].todo[0])
            && (forall t, u | t in k.jobs && u in k.jobs && t != u :: !(Working(k.jobs[t]) && Working(k.jobs[u])))
  {
    hide FleetLegal, FleetRun;
    NothingRepeats();
    assert FleetSound(f);
    RunKeepsFleetSound(f, ss);
  }

  /** The loop never waits for anything but the attempt at hand and the job's lock: the next job is ready to begin. */
  lemma NextJobCanBegin(f: Fleet, ss: seq<FleetStep>, now: int)
    requires IsNew(f) && FleetLegal(f, ss)
    requires var k := FleetRun(f, ss);
             && k.passes != [] && k.passes[0].Loop? && k.passes[0].todo != [] && !k.passes[0].failed
             && k.passes[0].todo[0] in k.jobs
             && var j := k.jobs[k.passes[0].todo[0]]; !Working(j) && j.late == [] && j.clock <= now
    ensures FleetEnabled(FleetRun(f, ss), Work(0, BeginNext(now)))
  {
    hide FleetLegal, FleetRun, Distinct;
    NothingRepeats();
    assert FleetSound(f);
    RunKeepsFleetSound(f, ss);
    var k := FleetRun(f, ss);
    assert Todo(k) == k.passes[0].todo;
    assert Placed(k.jobs[k.passes[0].todo[0]], k.passes[0].todo[0], Todo(k));
  }

  // ---------------------------------------------------------------- one job's part

  /** What a step of the service is for one of its jobs. */
  function Own(f: Fleet, s: FleetStep, t: ThreadId): seq<Step>
    requires FleetEnabled(f, s)
  {
    match s
    case At(other, step) => if other == t then [step] else []
    case Asked(_) => []
    case Choose(_, todo, at, now) => if t in todo then [Select(at, now)] else []
    case Work(pass, step) => if f.passes[pass].todo[0] == t then [step] else []
    case PassEnds(pass) => if t in Remaining(f.passes[pass]) then [Deselect] else []
    case SaveAll => [Save]
    case RestartAll(recorded, now) => [Restart(t in recorded, now)]
  }

  function Part(f: Fleet, ss: seq<FleetStep>, t: ThreadId): seq<Step>
    requires FleetLegal(f, ss)
    decreases |ss|
  {
    if ss == [] then [] else Own(f, ss[0], t) + Part(FleetNext(f, ss[0]), ss[1..], t)
  }

  /** A job's part of a step is a step of its own life, or nothing. */
  predicate IsOwnStep(j: Job, own: seq<Step>, k: Job) {
    if own == [] then k == j else |own| == 1 && Enabled(j, own[0]) && k == Next(j, own[0])
  }

  lemma OwnStep(f: Fleet, s: FleetStep, t: ThreadId)
    requires FleetSound(f) && FleetEnabled(f, s) && t in f.jobs
    ensures t in FleetNext(f, s).jobs && IsOwnStep(f.jobs[t], Own(f, s, t), FleetNext(f, s).jobs[t])
  {
    hide Next, Enabled, Scheduled, Advanced, IsChoice, MayEnd, Distinct, Placed, Chosen, Dropped;
    match s
    case Choose(pass, todo, at, now) => assert pass == 0; ChosenIsSelected(f, todo, at, now, t);
    case PassEnds(pass) => assert pass == 0; DroppedIsDeselected(f, t);
    case Asked(event) => ScheduledKeepsJobs(f, event);
    case SaveAll => SaveKeepsTurn(f.jobs[t]);
    case RestartAll(recorded, now) => RestartIsEnabled(f.jobs[t], t in recorded, now);
    case _ =>
  }

  lemma RestartIsEnabled(j: Job, recorded: bool, now: int)
    requires j.clock <= now
    ensures Enabled(j, Restart(recorded, now))
  {
  }

  lemma ScheduledKeepsJobs(f: Fleet, event: ReviewScheduler.Event)
    ensures Scheduled(f, event).jobs == f.jobs
  {
  }

  lemma ChosenIsSelected(f: Fleet, todo: seq<ThreadId>, at: int, now: int, t: ThreadId)
    requires FleetSound(f) && FleetEnabled(f, Choose(0, todo, at, now)) && t in f.jobs
    ensures var s := Choose(0, todo, at, now);
            t in FleetNext(f, s).jobs && IsOwnStep(f.jobs[t], Own(f, s, t), FleetNext(f, s).jobs[t])
  {
    ChooseKeepsSound(f, todo, at, now);
    hide Runnable, Distinct, FleetSound;
  }

  lemma DroppedIsDeselected(f: Fleet, t: ThreadId)
    requires FleetSound(f) && FleetEnabled(f, PassEnds(0)) && t in f.jobs
    ensures t in FleetNext(f, PassEnds(0)).jobs
            && IsOwnStep(f.jobs[t], Own(f, PassEnds(0), t), FleetNext(f, PassEnds(0)).jobs[t])
  {
    hide Distinct;
    assert Todo(f) == Remaining(f.passes[0]);
    assert Placed(f.jobs[t], t, Todo(f));
  }

  /** Each job's part of a legal history is a legal life of that job, and leads it where the history does. */
  lemma {:induction false} EachJobLivesItsOwnLife(f: Fleet, ss: seq<FleetStep>, t: ThreadId)
    requires FleetSound(f) && FleetLegal(f, ss) && t in f.jobs
    ensures t in FleetRun(f, ss).jobs
    ensures Legal(f.jobs[t], Part(f, ss, t)) && FleetRun(f, ss).jobs[t] == Run(f.jobs[t], Part(f, ss, t))
    decreases |ss|
  {
    hide FleetSound, FleetEnabled, FleetNext, Own, Enabled, Next;
    if ss != [] {
      OwnStep(f, ss[0], t);
      StepKeepsFleetSound(f, ss[0]);
      EachJobLivesItsOwnLife(FleetNext(f, ss[0]), ss[1..], t);
      var own, rest := Own(f, ss[0], t), Part(FleetNext(f, ss[0]), ss[1..], t);
      if own == [] {
        assert own + rest == rest;
      } else {
        assert (own + rest)[0] == own[0] && (own + rest)[1..] == rest;
      }
    }
  }

  /** For every job of the service: no attempt is charged twice, and a closed callback is settled. */
  lemma EveryJobIsSafe(f: Fleet, ss: seq<FleetStep>, t: ThreadId, id: AttemptId)
    requires IsNew(f) && FleetLegal(f, ss) && t in f.jobs
    ensures t in FleetRun(f, ss).jobs && ChargesOf(FleetRun(f, ss).jobs[t], id) <= 1
    ensures var j := FleetRun(f, ss).jobs[t];
            HasRecord(j) && Current(j).state == Closed ==> !Current(j).owes && Current(j).review == Idle
  {
    hide FleetLegal, FleetRun, Legal, Run, Part, ChargesOf;
    NothingRepeats();
    assert FleetSound(f);
    EachJobLivesItsOwnLife(f, ss, t);
    CallbackSafety.EachAttemptFailsAtMostOnce(t, f.jobs[t].clock, f.jobs[t].scope, Part(f, ss, t), id);
    CallbackObligations.ClosedIsAlwaysSettled(t, f.jobs[t].clock, f.jobs[t].scope, Part(f, ss, t));
  }
}
