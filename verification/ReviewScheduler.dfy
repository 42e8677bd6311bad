/**
 * The single-flight scheduler of review passes (CallbackReviewScheduler in butler-callback-review-runner.ts):
 * a class for the object, and theorems about every history of calls, finished passes and timer firings.
 */
module ReviewScheduler {
  import opened Options

  datatype State = State(inFlight: bool, queued: bool, disposed: bool, retryAt: Option<int>)

  datatype Event =
    | Schedule
    | ScheduleAt(at: int)
    | Dispose
    | Settle             // the pass in flight resolved or rejected
    | Fire(now: int)     // the armed timer ran out

  const IDLE := State(false, false, false, None)

  predicate Enabled(s: State, e: Event) {
    match e
    case Settle => s.inFlight
    case Fire(now) => s.retryAt.Some? && s.retryAt.value <= now
    case _ => true
  }

  /** schedule(): start a pass, or remember that one is wanted. */
  function Scheduled(s: State): State {
    if s.disposed then s
    else if s.inFlight then s.(queued := true)
    else s.(inFlight := true)
  }

  predicate ScheduleStarts(s: State) {
    !s.disposed && !s.inFlight
  }

  function Settled(s: State): State {
    var free := s.(inFlight := false);
    if free.queued then Scheduled(free.(queued := false)) else free
  }

  function Step(s: State, e: Event): State {
    match e
    case Schedule => Scheduled(s)
    case ScheduleAt(at) =>
      if s.disposed || (s.retryAt.Some? && s.retryAt.value <= at) then s else s.(retryAt := Some(at))
    case Dispose => s.(disposed := true, queued := false, retryAt := None)
    case Settle => Settled(s)
    case Fire(_) => Scheduled(s.(retryAt := None))
  }

  /** Whether the event starts a pass. */
  predicate Starts(s: State, e: Event) {
    match e
    case Schedule => ScheduleStarts(s)
    case Settle => s.queued && ScheduleStarts(s.(inFlight := false, queued := false))
    case Fire(_) => ScheduleStarts(s)
    case _ => false
  }

  // ---------------------------------------------------------------- the object

  class CallbackReviewScheduler {
    var inFlight: bool
    var queued: bool
    var disposed: bool
    var retryTimer: bool
    var retryAt: Option<int>

    ghost predicate Valid()
      reads this
    {
      retryTimer <==> retryAt.Some?
    }

    ghost function Abs(): State
      reads this
    {
      State(inFlight, queued, disposed, retryAt)
    }

    constructor ()
      ensures Valid() && Abs() == IDLE
    {
      inFlight, queued, disposed, retryTimer, retryAt := false, false, false, false, None;
    }

    /** `starts` tells whether a pass was started. */
    method RequestPass() returns (starts: bool)
      requires Valid()
      modifies this
      ensures Valid() && Abs() == Step(old(Abs()), Schedule) && starts == Starts(old(Abs()), Schedule)
    {
      starts := false;
      if disposed { return; }
      if inFlight {
        queued := true;
        return;
      }
      inFlight := true;
      starts := true;
    }

    method PassSettled() returns (starts: bool)
      requires Valid() && inFlight
      modifies this
      ensures Valid() && Abs() == Step(old(Abs()), Settle) && starts == Starts(old(Abs()), Settle)
    {
      starts := false;
      inFlight := false;
      if queued {
        queued := false;
        starts := RequestPass();
      }
    }

    method RequestPassAt(at: int)
      requires Valid()
      modifies this
      ensures Valid() && Abs() == Step(old(Abs()), ScheduleAt(at))
    {
      if disposed { return; }
      if retryTimer && retryAt.Some? && retryAt.value <= at { return; }
      retryAt := Some(at);
      retryTimer := true;
    }

    method TimerFires(now: int) returns (starts: bool)
      requires Valid() && Enabled(Abs(), Fire(now))
      modifies this
      ensures Valid() && Abs() == Step(old(Abs()), Fire(now)) && starts == Starts(old(Abs()), Fire(now))
    {
      retryTimer := false;
      retryAt := None;
      starts := RequestPass();
    }

    method Stop()
      requires Valid()
      modifies this
      ensures Valid() && Abs() == Step(old(Abs()), Dispose)
    {
      disposed, queued, retryTimer, retryAt := true, false, false, None;
    }
  }

  // ---------------------------------------------------------------- histories

  /** The state after a history, from an idle scheduler. */
  function After(h: seq<Event>): State {
    if h == [] then IDLE else Step(After(h[..|h| - 1]), h[|h| - 1])
  }

  predicate Legal(h: seq<Event>) {
    h == [] || (Legal(h[..|h| - 1]) && Enabled(After(h[..|h| - 1]), h[|h| - 1]))
  }

  predicate StartsAt(h: seq<Event>, k: nat)
    requires k < |h|
  {
    Starts(After(h[..k]), h[k])
  }

  function StartCount(h: seq<Event>): nat {
    if h == [] then 0
    else StartCount(h[..|h| - 1]) + if StartsAt(h, |h| - 1) then 1 else 0
  }

  function SettleCount(h: seq<Event>): nat {
    if h == [] then 0
    else SettleCount(h[..|h| - 1]) + if h[|h| - 1] == Settle then 1 else 0
  }

  /** Passes started and not yet finished: never more than one, and exactly when the flag says so. */
  lemma {:induction false} AtMostOneInFlight(h: seq<Event>)
    requires Legal(h)
    ensures StartCount(h) - SettleCount(h) == if After(h).inFlight then 1 else 0
  {
    if h != [] {
      AtMostOneInFlight(h[..|h| - 1]);
    }
  }

  /**
   * Every request made before disposal: a pass has started since, or one is in flight with another queued behind it.
   */
  ghost predicate Served(h: seq<Event>, i: nat)
    requires i < |h|
  {
    || (exists k :: i <= k < |h| && StartsAt(h, k))
    || After(h).disposed
    || (After(h).inFlight && After(h).queued)
  }

  /** schedule(), called by a client or by the timer, before disposal. */
  predicate Requests(h: seq<Event>, i: nat)
    requires i < |h|
  {
    (h[i] == Schedule || h[i].Fire?) && !After(h[..i]).disposed
  }

  lemma {:induction false} EveryRequestIsServed(h: seq<Event>, i: nat)
    requires Legal(h) && i < |h| && Requests(h, i)
    ensures Served(h, i)
    ensures !After(h).disposed && !After(h).inFlight ==> exists k :: i <= k < |h| && StartsAt(h, k)
  {
    var last := |h| - 1;
    if i == last {
      assert h[..last] == h[..|h| - 1];
    } else {
      var p := h[..last];
      assert p[i] == h[i] && p[..i] == h[..i];
      EveryRequestIsServed(p, i);
      if k :| i <= k < |p| && StartsAt(p, k) {
        assert p[..k] == h[..k];
        assert StartsAt(h, k);
      } else if After(p).inFlight && After(p).queued && h[last] == Settle && !After(p).disposed {
        assert StartsAt(h, last);
      }
    }
  }

  /** Only a disposed scheduler forgets a request; disposal is for good and nothing starts after it. */
  lemma {:induction false} NothingStartsAfterDisposal(h: seq<Event>, i: nat, k: nat)
    requires Legal(h) && i < k < |h| && h[i] == Dispose
    ensures !StartsAt(h, k)
    ensures After(h[..k]).disposed && After(h[..k]).retryAt.None? && !After(h[..k]).queued
  {
    var p := h[..k];
    LegalPrefix(h, k);
    if k == i + 1 {
      assert p[..|p| - 1] == h[..i] && p[|p| - 1] == Dispose;
    } else {
      assert p[..|p| - 1] == h[..k - 1];
      NothingStartsAfterDisposal(h, i, k - 1);
      assert p[|p| - 1] == h[k - 1];
      assert Enabled(After(p[..|p| - 1]), p[|p| - 1]);
    }
  }

  lemma {:induction false} LegalPrefix(h: seq<Event>, k: nat)
    requires Legal(h) && k <= |h|
    ensures Legal(h[..k])
  {
    if k < |h| {
      LegalPrefix(h[..|h| - 1], k);
      assert h[..|h| - 1][..k] == h[..k];
    } else {
      assert h[..k] == h;
    }
  }

  /** The timer is armed after the first `i` events. */
  predicate Armed(h: seq<Event>, i: nat)
    requires i <= |h|
  {
    After(h[..i]).retryAt.Some?
  }

  /** The timer has been armed without a break since the call before which the history was `j` events long. */
  ghost predicate ArmedSince(h: seq<Event>, j: nat) {
    j < |h| && !Armed(h, j) && forall i :: j < i <= |h| ==> Armed(h, i)
  }

  lemma {:induction false} DisposedIsUnarmed(h: seq<Event>)
    requires Legal(h)
    ensures After(h).disposed ==> After(h).retryAt.None? && !After(h).queued
  {
    if h != [] {
      DisposedIsUnarmed(h[..|h| - 1]);
    }
  }

  lemma ArmedStep(s: State, e: Event)
    requires Enabled(s, e) && Step(s, e).retryAt.Some? && (s.disposed ==> s.retryAt.None?)
    ensures s.retryAt.None? ==> e == ScheduleAt(Step(s, e).retryAt.value)
    ensures s.retryAt.Some? ==> Step(s, e).retryAt == s.retryAt || e == ScheduleAt(Step(s, e).retryAt.value)
    ensures s.retryAt.Some? ==> Step(s, e).retryAt.value <= s.retryAt.value
    ensures e.ScheduleAt? ==> Step(s, e).retryAt.value <= e.at
  {
  }

  lemma ArmedBefore(h: seq<Event>, i: nat)
    requires i < |h|
    ensures Armed(h, i) == Armed(h[..|h| - 1], i)
  {
    hide After;
    assert h[..i] == h[..|h| - 1][..i];
  }

  lemma ArmedLonger(h: seq<Event>, j: nat)
    requires h != [] && ArmedSince(h[..|h| - 1], j) && Armed(h, |h|)
    ensures ArmedSince(h, j)
  {
    hide Armed;
    ArmedBefore(h, j);
    forall i | j < i <= |h| ensures Armed(h, i) {
      if i < |h| { ArmedBefore(h, i); }
    }
  }

  /** An armed timer holds the earliest of all the times asked for since it was last idle. */
  lemma {:induction false} TimerHoldsTheEarliest(h: seq<Event>) returns (j: nat)
    requires Legal(h) && After(h).retryAt.Some?
    ensures ArmedSince(h, j)
    ensures ScheduleAt(After(h).retryAt.value) in h[j..]
    ensures forall e <- h[j..] :: e.ScheduleAt? ==> After(h).retryAt.value <= e.at
  {
    hide Step, Enabled, ArmedSince;
    var p, last := h[..|h| - 1], h[|h| - 1];
    DisposedIsUnarmed(p);
    ArmedStep(After(p), last);
    assert h[..|h|] == h;
    if After(p).retryAt.None? {
      j := |p|;
      ArmedAnew(h);
      assert h[j..] == [last];
    } else {
      j := TimerHoldsTheEarliest(p);
      ArmedLonger(h, j);
      assert h[j..] == p[j..] + [last];
    }
  }

  lemma ArmedAnew(h: seq<Event>)
    requires h != [] && After(h[..|h| - 1]).retryAt.None? && Armed(h, |h|)
    ensures ArmedSince(h, |h| - 1)
  {
    hide After;
  }
}
