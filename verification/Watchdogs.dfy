/**
 * Interval checks (activity-watchdog.ts) and the reconciliation check of each delegated Worker
 * (butler-delegation-watchdog.ts).
 */
module Watchdogs {
  import opened Options
  import opened Texts

  datatype Policy = DelegationReconciliation | ReviewCurrency | ReviewActivity | WorkerCompaction

  function PolicyInterval(policy: Policy): real {
    match policy
    case DelegationReconciliation => 10_000.0
    case ReviewCurrency => 50.0
    case ReviewActivity => 100.0
    case WorkerCompaction => 1_000.0
  }

  function Ceiling(x: real): int {
    -((-x).Floor)
  }

  type TimerId = nat

  datatype Registration = Registration(policy: Policy, intervalMs: int, timer: TimerId, checkCount: nat)

  /** `live` are the intervals that are set and not cleared. */
  class ActivityWatchdogService {
    var registrations: map<string, Registration>
    var live: set<TimerId>
    var nextTimer: TimerId

    /** One live interval for each registered id, and no other. */
    ghost predicate Valid()
      reads this
    {
      && (forall id <- registrations :: registrations[id].timer in live)
      && (forall t <- live :: t < nextTimer)
      && (forall id, other | id in registrations && other in registrations
          && id != other :: registrations[id].timer != registrations[other].timer)
      && (forall t <- live :: exists id <- registrations :: registrations[id].timer == t)
    }

    constructor ()
      ensures Valid() && registrations == map[]
    {
      registrations, live, nextTimer := map[], {}, 0;
    }

    /** Refused without an id, with a bad interval, or while the id is taken; otherwise never slower than asked for. */
    method Register(rawId: string, policy: Policy, maxIntervalMs: Option<real>) returns (ok: bool)
      requires Valid()
      modifies this
      ensures Valid()
      ensures ok <==>
              Trim(rawId) != "" && Trim(rawId) !in old(registrations)
              && (maxIntervalMs.Some? ==> maxIntervalMs.value > 0.0)
      ensures if ok then Trim(rawId) in registrations
              && registrations == old(registrations)[Trim(rawId) := registrations[Trim(rawId)]]
              else registrations == old(registrations) && live == old(live)
      ensures ok ==>
                var r := registrations[Trim(rawId)];
                && r.timer !in old(live) && live == old(live) + {r.timer} && r.policy == policy && r.checkCount == 0
                && 1 <= r.intervalMs && r.intervalMs as real < PolicyInterval(policy) + 1.0
                && (maxIntervalMs.Some? ==> r.intervalMs as real < maxIntervalMs.value + 1.0)
    {
      hide Trim;
      var id := Trim(rawId);
      if id == "" || (maxIntervalMs.Some? && maxIntervalMs.value <= 0.0) || id in registrations { return false; }
      var interval := PolicyInterval(policy);
      if maxIntervalMs.Some? && maxIntervalMs.value < interval { interval := maxIntervalMs.value; }
      var timer := nextTimer;
      nextTimer := nextTimer + 1;
      live := live + {timer};
      registrations := registrations[id := Registration(policy, Ceiling(interval), timer, 0)];
      forall t | t in live ensures exists other <- registrations :: registrations[other].timer == t {
        if t == timer {
          assert registrations[id].timer == t;
        } else {
          var other :| other in old(registrations) && old(registrations)[other].timer == t;
          assert registrations[other].timer == t;
        }
      }
      ok := true;
    }

    method Unregister(id: string) returns (removed: bool)
      requires Valid()
      modifies this
      ensures Valid() && removed == (id in old(registrations)) && registrations == old(registrations) - {id}
    {
      removed := id in registrations;
      if removed {
        live := live - {registrations[id].timer};
        registrations := registrations - {id};
        forall t | t in live ensures exists other <- registrations :: registrations[other].timer == t {
          var other :| other in old(registrations) && old(registrations)[other].timer == t;
          assert other in registrations && registrations[other].timer == t;
        }
      }
    }

    method Clear()
      requires Valid()
      modifies this
      ensures Valid() && registrations == map[] && live == {}
    {
      registrations, live := map[], {};
    }
  }

  // ---------------------------------------------------------------- delegated Workers

  type ThreadId = string

  /**
   * `running` counts, for each thread, the checks that have begun and not ended; `marked` is what the
   * class remembers of them.
   */
  datatype Checks = Checks(registered: set<ThreadId>, marked: set<ThreadId>, running: multiset<ThreadId>)

  datatype Event =
    | Register(t: ThreadId)
    | Unregister(t: ThreadId)
    | Tick(t: ThreadId, outstanding: bool)
    | CheckEnds(t: ThreadId, outstanding: bool, threw: bool)

  predicate Enabled(c: Checks, e: Event) {
    match e
    case Tick(t, _) => t in c.registered
    case CheckEnds(t, _, _) => c.running[t] > 0
    case _ => true
  }

  /** Replacing or removing a registration leaves the mark of a check that is still running. */
  function Next(c: Checks, e: Event): Checks
    requires Enabled(c, e)
  {
    match e
    case Register(t) => c.(registered := c.registered + {t})
    case Unregister(t) => c.(registered := c.registered - {t})
    case Tick(t, outstanding) =>
      if !outstanding then c.(registered := c.registered - {t})
      else if t in c.marked then c
      else c.(marked := c.marked + {t}, running := c.running + multiset{t})
    case CheckEnds(t, outstanding, _) =>
      Checks(if outstanding then c.registered else c.registered - {t}, c.marked - {t}, c.running - multiset{t})
  }

  predicate Legal(c: Checks, es: seq<Event>)
    decreases |es|
  {
    es == [] || (Enabled(c, es[0]) && Legal(Next(c, es[0]), es[1..]))
  }

  function Run(c: Checks, es: seq<Event>): Checks
    requires Legal(c, es)
    decreases |es|
  {
    if es == [] then c else Run(Next(c, es[0]), es[1..])
  }

  const IDLE := Checks({}, {}, multiset{})

  ghost predicate Sound(c: Checks) {
    forall t: ThreadId :: c.running[t] == if t in c.marked then 1 else 0
  }

  lemma {:induction false} RunKeepsSound(c: Checks, es: seq<Event>)
    requires Sound(c) && Legal(c, es)
    ensures Sound(Run(c, es))
    decreases |es|
  {
    if es != [] {
      RunKeepsSound(Next(c, es[0]), es[1..]);
    }
  }

  /** The event ends the watch of a thread: it is unregistered, or found with nothing outstanding. */
  predicate EndsWatch(e: Event, t: ThreadId) {
    e == Unregister(t) || e == Tick(t, false) || (e.CheckEnds? && e.t == t && !e.outstanding)
  }

  /** A thread is watched exactly if it has been registered, and nothing has ended its watch since. */
  lemma {:induction false} WatchedUntilEnded(c: Checks, es: seq<Event>, t: ThreadId)
    requires Legal(c, es)
    ensures t in Run(c, es).registered
            <==> (exists i: nat ::
                    i < |es| && es[i] == Register(t) && forall k :: i < k < |es| ==> !EndsWatch(es[k], t))
                 || (t in c.registered && forall e <- es :: !EndsWatch(e, t))
    decreases |es|
  {
    if es != [] {
      hide EndsWatch;
      var rest := es[1..];
      WatchedUntilEnded(Next(c, es[0]), rest, t);
      WatchAfterOne(c, es[0], t);
      assert es == [es[0]] + rest;
      if i: nat :| i < |rest| && rest[i] == Register(t) && forall k :: i < k < |rest| ==> !EndsWatch(rest[k], t) {
        forall k | i + 1 < k < |es| ensures !EndsWatch(es[k], t) { assert es[k] == rest[k - 1]; }
        assert es[i + 1] == Register(t);
      }
      if i: nat :| i < |es| && es[i] == Register(t) && forall k :: i < k < |es| ==> !EndsWatch(es[k], t) {
        if i > 0 {
          forall k | i - 1 < k < |rest| ensures !EndsWatch(rest[k], t) { assert rest[k] == es[k + 1]; }
          assert rest[i - 1] == Register(t);
        } else {
          forall e | e in rest ensures !EndsWatch(e, t) {
            var k :| 0 <= k < |rest| && rest[k] == e;
            assert e == es[k + 1];
          }
        }
      }
      if es[0] == Register(t) && forall e <- rest :: !EndsWatch(e, t) {
        forall k | 0 < k < |es| ensures !EndsWatch(es[k], t) { assert es[k] == rest[k - 1] && rest[k - 1] in rest; }
      }
    }
  }

  lemma WatchAfterOne(c: Checks, e: Event, t: ThreadId)
    requires Enabled(c, e)
    ensures t in Next(c, e).registered <==> e == Register(t) || (t in c.registered && !EndsWatch(e, t))
  {
  }

  /**
   * At most one check per thread is in flight, whatever is registered, replaced and removed meanwhile and however
   * checks end; and a thread without a check in flight is checked at its next tick.
   */
  lemma OneCheckPerThread(es: seq<Event>, t: ThreadId)
    requires Legal(IDLE, es)
    ensures Run(IDLE, es).running[t] <= 1
    ensures var c := Run(IDLE, es);
            t in c.registered ==> Next(c, Tick(t, true)).running[t] == 1
  {
    RunKeepsSound(IDLE, es);
  }
}
