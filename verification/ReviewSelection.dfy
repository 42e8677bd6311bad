/**
 * Which queued reviews one pass takes, in which order, and when the next pass is wanted
 * (selectRunnableCallbackReviews in butler-callback-review-runner.ts).
 */
module ReviewSelection {
  import opened Options
  import opened Callbacks
  import opened Sorting

  type DueTimes = map<ThreadId, int>

  predicate IsQueued(cb: Callback) {
    Outstanding(cb) && cb.dispatch != Reserving && cb.review == Queued
  }

  function DueOf(notBefore: DueTimes, cb: Callback): int {
    if cb.threadId in notBefore then notBefore[cb.threadId] else 0
  }

  predicate IsRunnable(cb: Callback, notBefore: DueTimes, now: int) {
    IsQueued(cb) && DueOf(notBefore, cb) <= now
  }

  predicate MustWait(cb: Callback, notBefore: DueTimes, now: int) {
    IsQueued(cb) && now < DueOf(notBefore, cb)
  }

  predicate UpdatedFirst(a: Callback, b: Callback) {
    a.updatedAt <= b.updatedAt
  }

  /** The reduce over the queued records: the least due time that still lies ahead. */
  function NextDue(earliest: Option<int>, queued: seq<Callback>, notBefore: DueTimes, now: int): Option<int>
    decreases |queued|
  {
    if queued == [] then earliest
    else
      var due := DueOf(notBefore, queued[0]);
      var next := if due <= now then earliest
                  else if earliest.None? || due < earliest.value then Some(due) else earliest;
      NextDue(next, queued[1..], notBefore, now)
  }

  datatype Selection = Selection(pending: seq<Callback>, retryAt: Option<int>)

  function SelectRunnable(callbacks: seq<Callback>, notBefore: DueTimes, now: int): Selection {
    var queued := Filter(cb => IsQueued(cb), callbacks);
    Selection(Sort(UpdatedFirst, Filter(cb => DueOf(notBefore, cb) <= now, queued)),
              NextDue(None, queued, notBefore, now))
  }

  // ---------------------------------------------------------------- the pass

  /**
   * The record is owed, dispatched and queued, and nothing makes it wait longer; without a due time it waits until 0.
   */
  predicate CanRun(cb: Callback, notBefore: DueTimes, now: int) {
    && cb.owes && cb.state != Closed && cb.dispatch == Ready && cb.review == Queued
    && (cb.threadId in notBefore ==> notBefore[cb.threadId] <= now)
    && (cb.threadId !in notBefore ==> 0 <= now)
  }

  /**
   * A pass takes exactly the records that can run, each as often as it is in the map, oldest update first.
   */
  lemma {:induction false} SelectionIsExact(callbacks: seq<Callback>, notBefore: DueTimes, now: int)
    ensures var s := SelectRunnable(callbacks, notBefore, now);
            && (forall i, j :: 0 <= i < j < |s.pending| ==> s.pending[i].updatedAt <= s.pending[j].updatedAt)
            && (forall cb ::
                multiset(s.pending)[cb] == if CanRun(cb, notBefore, now) then multiset(callbacks)[cb] else 0)
            && (forall cb :: cb in s.pending <==> cb in callbacks && CanRun(cb, notBefore, now))
  {
    assert forall cb :: CanRun(cb, notBefore, now) <==> IsRunnable(cb, notBefore, now);
    var queued := Filter(cb => IsQueued(cb), callbacks);
    var due := Filter(cb => DueOf(notBefore, cb) <= now, queued);
    SortSorts(UpdatedFirst, due);
    forall cb
      ensures multiset(due)[cb] == if IsRunnable(cb, notBefore, now) then multiset(callbacks)[cb] else 0
      ensures cb in Sort(UpdatedFirst, due) <==> cb in callbacks && IsRunnable(cb, notBefore, now)
    {
      FilterIsExact(cb => IsQueued(cb), callbacks, cb);
      FilterIsExact(cb => DueOf(notBefore, cb) <= now, queued, cb);
      assert cb in Sort(UpdatedFirst, due) <==> cb in multiset(Sort(UpdatedFirst, due));
    }
  }

  /** Records updated at the same instant are taken in the order of the map. */
  lemma EqualAgeKeepsMapOrder(callbacks: seq<Callback>, notBefore: DueTimes, now: int, u: int)
    ensures Filter((cb: Callback) => cb.updatedAt == u, SelectRunnable(callbacks, notBefore, now).pending)
         == Filter((cb: Callback) => cb.updatedAt == u,
                   Filter(cb => DueOf(notBefore, cb) <= now, Filter(cb => IsQueued(cb), callbacks)))
  {
    SortIsStable(UpdatedFirst, (cb: Callback) => cb.updatedAt == u,
                 Filter(cb => DueOf(notBefore, cb) <= now, Filter(cb => IsQueued(cb), callbacks)));
  }

  lemma {:induction false} NextDueIsLeast(earliest: Option<int>, queued: seq<Callback>, notBefore: DueTimes, now: int)
    requires earliest.Some? ==> now < earliest.value
    ensures var next := NextDue(earliest, queued, notBefore, now);
            && (next.Some? ==> now < next.value)
            && (next.Some? ==> next == earliest || exists cb <- queued :: DueOf(notBefore, cb) == next.value)
            && (earliest.Some? ==> next.Some? && next.value <= earliest.value)
            && (forall cb <- queued :: now < DueOf(notBefore, cb) ==> next.Some? && next.value <= DueOf(notBefore, cb))
    decreases |queued|
  {
    if queued != [] {
      var due := DueOf(notBefore, queued[0]);
      var step := if due <= now then earliest
                  else if earliest.None? || due < earliest.value then Some(due) else earliest;
      NextDueIsLeast(step, queued[1..], notBefore, now);
      assert queued == [queued[0]] + queued[1..];
    }
  }

  /** The retry time is the earliest due time of the queued records that must still wait, and none if none waits. */
  lemma RetryTimeIsTheEarliestWait(callbacks: seq<Callback>, notBefore: DueTimes, now: int)
    ensures var retryAt := SelectRunnable(callbacks, notBefore, now).retryAt;
            && (retryAt.None? <==> forall cb <- callbacks :: !MustWait(cb, notBefore, now))
            && (retryAt.Some? ==>
                  && (exists cb <- callbacks :: MustWait(cb, notBefore, now) && DueOf(notBefore, cb) == retryAt.value)
                  && (forall cb <- callbacks :: MustWait(cb, notBefore, now) ==> retryAt.value <= DueOf(notBefore, cb)))
  {
    var queued := Filter(cb => IsQueued(cb), callbacks);
    forall cb ensures cb in queued <==> cb in callbacks && IsQueued(cb) {
      FilterIsExact(cb => IsQueued(cb), callbacks, cb);
    }
    NextDueIsLeast(None, queued, notBefore, now);
  }

  /**
   * No pass gives up on queued work: either it takes something, or it asks for a pass at a time when something is
   * runnable (and at no earlier time is anything runnable), or nothing is queued at all.
   */
  lemma EmptyPassLosesNothing(callbacks: seq<Callback>, notBefore: DueTimes, now: int, later: int)
    requires SelectRunnable(callbacks, notBefore, now).pending == [] && now <= later
    ensures var retryAt := SelectRunnable(callbacks, notBefore, now).retryAt;
            && (retryAt.None? <==> forall cb <- callbacks :: !IsQueued(cb))
            && (SelectRunnable(callbacks, notBefore, later).pending != [] <==> retryAt.Some? && retryAt.value <= later)
  {
    RetryTimeIsTheEarliestWait(callbacks, notBefore, now);
    SelectionIsExact(callbacks, notBefore, now);
    SelectionIsExact(callbacks, notBefore, later);
    forall cb | cb in callbacks && IsQueued(cb) ensures MustWait(cb, notBefore, now) {
      assert cb !in SelectRunnable(callbacks, notBefore, now).pending;
    }
    var taken := SelectRunnable(callbacks, notBefore, later).pending;
    if taken != [] {
      assert taken[0] in taken;
    }
  }
}
