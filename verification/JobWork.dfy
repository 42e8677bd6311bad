/**
 * What a dispatch replaces besides the callback: the job's payload and its review scope, that is, the execution
 * contract and the supervision checklist. A rollback puts them back only if they are still the dispatch's own
 * (planDirectMessageRollback in direct-codex-message.ts, rollbackDirectCodexMessage in butler-agent.ts).
 */
module JobWork {
  import opened Options

  datatype Checklist = Checklist(content: string, updatedAt: int, lastThreadEventAt: Option<int>)
  datatype Scope = Scope(contract: Option<string>, checklist: Option<Checklist>)
  datatype Work = Work(payload: Option<string>, scope: Scope)

  /** What the reservation keeps: the work as it was, and what the dispatch has put in place of its parts so far. */
  datatype Replacement = Replacement(original: Work, payload: Option<string>, scope: Option<Scope>)

  /** Two checklists that differ in nothing but the stamps that the thread's own events move. */
  predicate SameChecklist(a: Option<Checklist>, b: Option<Checklist>) {
    match (a, b)
    case (None, None) => true
    case (Some(x), Some(y)) => x.content == y.content
    case _ => false
  }

  predicate SameScope(a: Scope, b: Scope) {
    a.contract == b.contract && SameChecklist(a.checklist, b.checklist)
  }

  /** The payload is still the dispatch's, or not yet replaced in the store. */
  predicate OwnsPayload(current: Work, r: Replacement) {
    r.payload.None? || current.payload == r.payload || current.payload == r.original.payload
  }

  predicate OwnsScope(current: Work, r: Replacement) {
    r.scope.None? || SameScope(current.scope, r.scope.value)
  }

  function RolledBack(current: Work, r: Replacement): Work {
    if OwnsPayload(current, r) && OwnsScope(current, r)
    then Work(if r.payload.Some? then r.original.payload else current.payload,
              if r.scope.Some? then r.original.scope else current.scope)
    else current
  }

  // ---------------------------------------------------------------- theorems

  /**
   * The parts the dispatch replaced so far are in place, up to the stamps of the checklist; the others are untouched.
   */
  predicate InPlace(current: Work, r: Replacement) {
    && (if r.payload.Some? then current.payload == r.payload || current.payload == r.original.payload
        else current.payload == r.original.payload)
    && (if r.scope.Some? then SameScope(current.scope, r.scope.value) else current.scope == r.original.scope)
  }

  /**
   * At whatever point a dispatch fails, if nobody else has changed the work, its rollback gives back exactly the
   * original.
   */
  lemma RollbackRestoresTheWork(current: Work, r: Replacement)
    requires InPlace(current, r)
    ensures RolledBack(current, r) == r.original
  {
  }

  // ---------------------------------------------------------------- a dispatch among others

  /**
   * The dispatch replaces the scope, announces its payload and stores it, each at most once, and notes what it puts in
   * place. Others may write either part at any time, and the thread's own events move the stamps of the checklist.
   */
  datatype Event =
    | ReplaceScope
    | AnnouncePayload
    | StorePayload
    | OthersPayload(payload: Option<string>)
    | OthersScope(scope: Scope)
    | Stamp(updatedAt: int, lastThreadEventAt: Option<int>)

  /** What the dispatch means to put in place. */
  datatype Plan = Plan(payload: string, scope: Scope)

  datatype State = State(current: Work, r: Replacement)

  /** What others write is neither the original nor the dispatch's own; otherwise nobody could tell it from those. */
  predicate Enabled(p: Plan, s: State, e: Event) {
    match e
    case ReplaceScope => s.r.scope.None?
    case AnnouncePayload => s.r.payload.None?
    case StorePayload => s.r.payload.Some?
    case OthersPayload(payload) => payload != Some(p.payload) && payload != s.r.original.payload
    case OthersScope(scope) => !SameScope(scope, p.scope) && !SameScope(scope, s.r.original.scope)
    case Stamp(_, _) => true
  }

  function Stamped(scope: Scope, updatedAt: int, lastThreadEventAt: Option<int>): Scope {
    if scope.checklist.None? then scope
    else scope.(checklist :=
                Some(scope.checklist.value.(updatedAt := updatedAt, lastThreadEventAt := lastThreadEventAt)))
  }

  function Next(p: Plan, s: State, e: Event): State
    requires Enabled(p, s, e)
  {
    match e
    case ReplaceScope => State(s.current.(scope := p.scope), s.r.(scope := Some(p.scope)))
    case AnnouncePayload => s.(r := s.r.(payload := Some(p.payload)))
    case StorePayload => s.(current := s.current.(payload := s.r.payload))
    case OthersPayload(payload) => s.(current := s.current.(payload := payload))
    case OthersScope(scope) => s.(current := s.current.(scope := scope))
    case Stamp(at, last) => s.(current := s.current.(scope := Stamped(s.current.scope, at, last)))
  }

  predicate Legal(p: Plan, s: State, es: seq<Event>)
    decreases |es|
  {
    es == [] || (Enabled(p, s, es[0]) && Legal(p, Next(p, s, es[0]), es[1..]))
  }

  function Run(p: Plan, s: State, es: seq<Event>): State
    requires Legal(p, s, es)
    decreases |es|
  {
    if es == [] then s else Run(p, Next(p, s, es[0]), es[1..])
  }

  /** The part was last written by others; `were` is the answer before these events. */
  function PayloadIsOthers(es: seq<Event>, were: bool): bool
    decreases |es|
  {
    if es == [] then were
    else PayloadIsOthers(es[1..], if es[0].OthersPayload? then true else if es[0].StorePayload? then false else were)
  }

  function ScopeIsOthers(es: seq<Event>, were: bool): bool
    decreases |es|
  {
    if es == [] then were
    else ScopeIsOthers(es[1..], if es[0].OthersScope? then true else if es[0].ReplaceScope? then false else were)
  }

  /** What the state shows of who wrote each part last. */
  predicate Shows(p: Plan, s: State, payloadIsOthers: bool, scopeIsOthers: bool) {
    && (s.r.payload.Some? ==> s.r.payload == Some(p.payload))
    && (s.r.scope.Some? ==> s.r.scope == Some(p.scope))
    && (if payloadIsOthers then s.current.payload != Some(p.payload) && s.current.payload != s.r.original.payload
        else s.current.payload == s.r.original.payload || (s.r.payload.Some? && s.current.payload == s.r.payload))
    && (if scopeIsOthers then !SameScope(s.current.scope, p.scope) && !SameScope(s.current.scope, s.r.original.scope)
        else SameScope(s.current.scope, if s.r.scope.Some? then p.scope else s.r.original.scope))
  }

  lemma {:induction false} RunShows(p: Plan, s: State, es: seq<Event>, payloadWas: bool, scopeWas: bool)
    requires Legal(p, s, es) && Shows(p, s, payloadWas, scopeWas)
    ensures Shows(p, Run(p, s, es), PayloadIsOthers(es, payloadWas), ScopeIsOthers(es, scopeWas))
    ensures Run(p, s, es).r.original == s.r.original
    decreases |es|
  {
    if es != [] {
      RunShows(p, Next(p, s, es[0]), es[1..],
               if es[0].OthersPayload? then true else if es[0].StorePayload? then false else payloadWas,
               if es[0].OthersScope? then true else if es[0].ReplaceScope? then false else scopeWas);
    }
  }

  /** The work is the original again, up to stamps. */
  predicate IsBack(w: Work, original: Work) {
    w.payload == original.payload && SameScope(w.scope, original.scope)
  }

  /**
   * Over every life of a dispatch among others: its rollback brings the original work back if and only if neither part
   * was last written by others. If a part that the dispatch replaced was, the rollback leaves both as they are, so that
   * a newer payload never meets an older scope, nor the other way round.
   */
  lemma RollbackIsAllOrNothing(p: Plan, original: Work, es: seq<Event>)
    requires Legal(p, State(original, Replacement(original, None, None)), es)
    ensures var s := Run(p, State(original, Replacement(original, None, None)), es);
            var payloadIsOthers, scopeIsOthers := PayloadIsOthers(es, false), ScopeIsOthers(es, false);
            && (IsBack(RolledBack(s.current, s.r), original) <==> !payloadIsOthers && !scopeIsOthers)
            && ((s.r.payload.Some? && payloadIsOthers) || (s.r.scope.Some? && scopeIsOthers)
                ==> RolledBack(s.current, s.r) == s.current)
  {
    hide Legal, Run, PayloadIsOthers, ScopeIsOthers;
    RunShows(p, State(original, Replacement(original, None, None)), es, false, false);
  }
}
