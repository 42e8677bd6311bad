/**
 * The hand-made lock: a map from a key to the promise of the last call for that key. A call takes the promise
 * it finds, puts its own in its place, waits for the one it found, runs, releases, and deletes the entry if it is
 * still its own (runOperatorQuestionMutation in butler-agent-operator-question.ts; withMutationLock in
 * butler-job-mutation-guard.ts does the same for a job's lock).
 *
 * Theorems about every interleaving: calls for one key run one at a time, in the order in which they came, whatever
 * throws and however entries are deleted; and some call can always go on.
 */
module PromiseTail {
  import opened Options

  type Key = string
  type CallId = nat

  datatype Phase = Waiting | Running | Released

  /** `prev` is the call whose promise this one found, if it found one. */
  datatype Call = Call(key: Key, prev: Option<CallId>, phase: Phase)

  datatype Lock = Lock(calls: seq<Call>, tails: map<Key, CallId>)

  datatype Event =
    | Arrive(key: Key)
    | Start(id: CallId)
    | Finish(id: CallId, threw: bool)

  /**
   * The promise `previous.catch().then(() => turn)` of a call: settled once the call before it has and it is released.
   */
  predicate TailSettled(calls: seq<Call>, id: CallId)
    decreases id
  {
    && id < |calls|
    && calls[id].phase == Released
    && (calls[id].prev.Some? ==> calls[id].prev.value < id && TailSettled(calls, calls[id].prev.value))
  }

  predicate MayStart(l: Lock, id: CallId) {
    && id < |l.calls| && l.calls[id].phase == Waiting
    && (l.calls[id].prev.Some? ==> TailSettled(l.calls, l.calls[id].prev.value))
  }

  predicate Enabled(l: Lock, e: Event) {
    match e
    case Arrive(_) => true
    case Start(id) => MayStart(l, id)
    case Finish(id, _) => id < |l.calls| && l.calls[id].phase == Running
  }

  function Next(l: Lock, e: Event): Lock
    requires Enabled(l, e)
  {
    match e
    case Arrive(key) =>
      Lock(l.calls + [Call(key, if key in l.tails then Some(l.tails[key]) else None, Waiting)],
           l.tails[key := |l.calls|])
    case Start(id) => l.(calls := l.calls[id := l.calls[id].(phase := Running)])
    case Finish(id, _) =>
      var key := l.calls[id].key;
      Lock(l.calls[id := l.calls[id].(phase := Released)],
           if key in l.tails && l.tails[key] == id then l.tails - {key} else l.tails)
  }

  // ---------------------------------------------------------------- the map itself

  /** The promises as call numbers: the object the two functions share. */
  class MutationTails {
    var tails: map<Key, CallId>
    var calls: seq<Call>

    ghost function Abs(): Lock
      reads this
    {
      Lock(calls, tails)
    }

    constructor ()
      ensures Abs() == Lock([], map[])
    {
      tails, calls := map[], [];
    }

    method Enter(key: Key) returns (id: CallId)
      modifies this
      ensures Abs() == Next(old(Abs()), Arrive(key)) && id == |old(calls)|
    {
      var previous := if key in tails then Some(tails[key]) else None;
      id := |calls|;
      calls := calls + [Call(key, previous, Waiting)];
      tails := tails[key := id];
    }

    method Begin(id: CallId)
      requires Enabled(Abs(), Start(id))
      modifies this`calls
      ensures Abs() == Next(old(Abs()), Start(id))
    {
      calls := calls[id := calls[id].(phase := Running)];
    }

    /** The `finally` block: release, then delete the entry unless a later call has replaced it. */
    method Release(id: CallId, threw: bool)
      requires Enabled(Abs(), Finish(id, threw))
      modifies this
      ensures Abs() == Next(old(Abs()), Finish(id, threw))
    {
      calls := calls[id := calls[id].(phase := Released)];
      var key := calls[id].key;
      if key in tails && tails[key] == id {
        tails := tails - {key};
      }
    }
  }

  // ---------------------------------------------------------------- the invariant

  /** Call `j` came before call `i`, for the same key. */
  predicate Before(calls: seq<Call>, j: CallId, i: CallId) {
    j < i < |calls| && calls[j].key == calls[i].key
  }

  predicate AllReleased(calls: seq<Call>, key: Key, bound: nat)
    requires bound <= |calls|
  {
    forall j | 0 <= j < bound && calls[j].key == key :: calls[j].phase == Released
  }

  /** `id` is the last of the first `bound` calls for its key. */
  predicate LastBefore(calls: seq<Call>, id: CallId, key: Key, bound: nat)
    requires bound <= |calls|
  {
    id < bound && calls[id].key == key && forall j :: id < j < bound ==> calls[j].key != key
  }

  predicate CallSound(calls: seq<Call>, i: CallId)
    requires i < |calls|
  {
    && (if calls[i].prev.Some? then LastBefore(calls, calls[i].prev.value, calls[i].key, i)
        else AllReleased(calls, calls[i].key, i))
    && (calls[i].phase != Waiting ==> AllReleased(calls, calls[i].key, i))
  }

  predicate KeySound(l: Lock, key: Key) {
    if key in l.tails then LastBefore(l.calls, l.tails[key], key, |l.calls|) else AllReleased(l.calls, key, |l.calls|)
  }

  ghost predicate Sound(l: Lock) {
    && (forall i :: 0 <= i < |l.calls| ==> CallSound(l.calls, i))
    && (forall key :: KeySound(l, key))
  }

  /** A settled promise means that every earlier call for the key has been released, and the other way round. */
  lemma {:induction false} SettledMeansReleased(calls: seq<Call>, id: CallId)
    requires id < |calls| && forall i :: 0 <= i < |calls| ==> CallSound(calls, i)
    ensures TailSettled(calls, id) <==> AllReleased(calls, calls[id].key, id + 1)
    decreases id
  {
    assert CallSound(calls, id);
    if calls[id].prev.Some? {
      SettledMeansReleased(calls, calls[id].prev.value);
    }
  }

  lemma ArriveKeepsSound(l: Lock, key: Key)
    requires Sound(l)
    ensures Sound(Next(l, Arrive(key)))
  {
    var after := Next(l, Arrive(key));
    var id := |l.calls|;
    assert KeySound(l, key);
    forall i | 0 <= i < |after.calls| ensures CallSound(after.calls, i) {
      if i < id { assert CallSound(l.calls, i); }
    }
    forall k ensures KeySound(after, k) {
      assert KeySound(l, k);
    }
  }

  lemma StartKeepsSound(l: Lock, id: CallId)
    requires Sound(l) && MayStart(l, id)
    ensures Sound(Next(l, Start(id)))
  {
    hide TailSettled;
    var after := Next(l, Start(id));
    assert CallSound(l.calls, id);
    if l.calls[id].prev.Some? { SettledMeansReleased(l.calls, l.calls[id].prev.value); }
    forall i | 0 <= i < |after.calls| ensures CallSound(after.calls, i) {
      assert CallSound(l.calls, i);
    }
    forall k ensures KeySound(after, k) {
      assert KeySound(l, k);
    }
  }

  lemma FinishKeepsSound(l: Lock, id: CallId, threw: bool)
    requires Sound(l) && Enabled(l, Finish(id, threw))
    ensures Sound(Next(l, Finish(id, threw)))
  {
    var after := Next(l, Finish(id, threw));
    assert CallSound(l.calls, id);
    forall i | 0 <= i < |after.calls| ensures CallSound(after.calls, i) {
      assert CallSound(l.calls, i);
    }
    forall k ensures KeySound(after, k) {
      assert KeySound(l, k);
    }
  }

  // ---------------------------------------------------------------- theorems

  predicate Legal(l: Lock, es: seq<Event>)
    decreases |es|
  {
    es == [] || (Enabled(l, es[0]) && Legal(Next(l, es[0]), es[1..]))
  }

  function Run(l: Lock, es: seq<Event>): Lock
    requires Legal(l, es)
    decreases |es|
  {
    if es == [] then l else Run(Next(l, es[0]), es[1..])
  }

  lemma {:induction false} RunKeepsSound(l: Lock, es: seq<Event>)
    requires Sound(l) && Legal(l, es)
    ensures Sound(Run(l, es))
    decreases |es|
  {
    hide Sound, Next, Enabled;
    if es != [] {
      StepKeepsSound(l, es[0]);
      RunKeepsSound(Next(l, es[0]), es[1..]);
    }
  }

  lemma StepKeepsSound(l: Lock, e: Event)
    requires Sound(l) && Enabled(l, e)
    ensures Sound(Next(l, e))
  {
    hide Sound, Next;
    match e {
      case Arrive(key) => ArriveKeepsSound(l, key);
      case Start(id) => StartKeepsSound(l, id);
      case Finish(id, threw) => FinishKeepsSound(l, id, threw);
    }
  }

  /**
   * In every reachable state, a call that has started finds every earlier call for its key released: the calls for
   * a key run one at a time and in the order in which they came.
   */
  lemma CallsRunInTurn(es: seq<Event>, i: CallId, j: CallId)
    requires Legal(Lock([], map[]), es)
    requires var calls := Run(Lock([], map[]), es).calls; Before(calls, j, i) && calls[i].phase != Waiting
    ensures Run(Lock([], map[]), es).calls[j].phase == Released
  {
    hide Legal, Run, TailSettled;
    RunKeepsSound(Lock([], map[]), es);
    assert CallSound(Run(Lock([], map[]), es).calls, i);
  }

  /** No call is ever stuck: the earliest call for a key that is not released is running or may start. */
  lemma EarliestMayGoOn(es: seq<Event>, i: CallId)
    requires Legal(Lock([], map[]), es)
    requires var calls := Run(Lock([], map[]), es).calls;
             i < |calls| && AllReleased(calls, calls[i].key, i) && calls[i].phase != Released
    ensures var l := Run(Lock([], map[]), es); l.calls[i].phase == Running || MayStart(l, i)
  {
    hide Legal, Run, TailSettled;
    RunKeepsSound(Lock([], map[]), es);
    var calls := Run(Lock([], map[]), es).calls;
    assert CallSound(calls, i);
    if calls[i].prev.Some? { SettledMeansReleased(calls, calls[i].prev.value); }
  }

  /** The map forgets a key exactly when nobody holds or awaits its lock, so it does not grow. */
  lemma MapHoldsOnlyTheBusy(es: seq<Event>, key: Key)
    requires Legal(Lock([], map[]), es)
    ensures var l := Run(Lock([], map[]), es);
            key in l.tails <==> exists i :: 0 <= i < |l.calls| && l.calls[i].key == key && l.calls[i].phase != Released
  {
    hide Legal, Run, TailSettled;
    RunKeepsBusy(Lock([], map[]), es);
    RunKeepsSound(Lock([], map[]), es);
    var l := Run(Lock([], map[]), es);
    assert KeySound(l, key);
    if key in l.tails {
      assert l.calls[l.tails[key]].key == key;
    }
  }

  /** The last call for a key with an entry is not released yet. */
  ghost predicate Busy(l: Lock) {
    forall key <- l.tails :: l.tails[key] < |l.calls| && l.calls[l.tails[key]].phase != Released
  }

  lemma {:induction false} RunKeepsBusy(l: Lock, es: seq<Event>)
    requires Busy(l) && Sound(l) && Legal(l, es)
    ensures Busy(Run(l, es))
    decreases |es|
  {
    hide Sound, TailSettled;
    if es != [] {
      StepKeepsSound(l, es[0]);
      FinishedKey(l, es[0]);
      RunKeepsBusy(Next(l, es[0]), es[1..]);
    }
  }

  lemma FinishedKey(l: Lock, e: Event)
    requires Sound(l) && Busy(l) && Enabled(l, e)
    ensures Busy(Next(l, e))
  {
    if e.Finish? {
      forall key | key in l.tails ensures l.tails[key] == e.id ==> l.calls[e.id].key == key {
        assert KeySound(l, key);
      }
    }
  }
}
