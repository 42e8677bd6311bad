/**
 * Which stored chat messages the transcript leaves out because the provider session already has them
 * (filterProviderBackedServerOperatorMessages in butler-agent-session.ts). A stored message gives way to one
 * provider message: to one with the very same text if there is one left, otherwise to one that lies close in
 * time and whose closest stored message it is.
 */
module MessageMatching {
  import opened Options

  datatype Role = User | Assistant | OtherRole

  /** `sessionId` tells whether the id begins like that of a stored provider reply. */
  datatype Message = Message(id: string, sessionId: bool, role: Role, text: string, at: Option<int>, pending: bool)

  const EARLY_MS := 1_000
  const WINDOW_MS := 30_000

  function Abs(x: int): nat {
    if x < 0 then -x else x
  }

  function AtOf(m: Message): int {
    m.at.GetOr(0)
  }

  function Distance(s: Message, m: Message): nat {
    Abs(AtOf(s) - AtOf(m))
  }

  predicate SameSide(s: Message, m: Message) {
    if m.role == Assistant then s.role == Assistant else s.role == User
  }

  predicate InWindow(s: Message, m: Message) {
    AtOf(s) >= AtOf(m) - EARLY_MS && Distance(s, m) <= WINDOW_MS
  }

  /** matchesProviderBackedMessage. */
  predicate Matches(s: Message, m: Message) {
    SameSide(s, m) && (s.text == m.text || InWindow(s, m))
  }

  predicate ExactMatch(s: Message, m: Message) {
    s.text == m.text && Matches(s, m)
  }

  /** The stored messages that can give way at all. */
  predicate Replaceable(m: Message) {
    !m.pending && (m.role == User || (m.role == Assistant && m.sessionId))
  }

  /** The provider messages that have a partner with the same text. */
  function ExactIds(session: seq<Message>, messages: seq<Message>): set<string> {
    set s | s in session && exists m <- messages :: ExactMatch(s, m) :: s.id
  }

  // ---------------------------------------------------------------- the owner of a provider message

  predicate MayOwn(s: Message, m: Message) {
    !m.pending && Matches(s, m)
  }

  /** The stored message closest in time; among equally close ones the first. */
  function Closest(s: Message, messages: seq<Message>): (k: Option<nat>)
    ensures k.Some? ==> k.value < |messages| && MayOwn(s, messages[k.value])
    ensures k.Some? ==> forall j ::
            0 <= j < |messages| && MayOwn(s, messages[j])
            ==> Distance(s, messages[k.value]) <= Distance(s, messages[j])
    ensures k.Some? ==> forall j ::
            0 <= j < k.value && MayOwn(s, messages[j])
            ==> Distance(s, messages[k.value]) < Distance(s, messages[j])
    ensures k.None? ==> forall m <- messages :: !MayOwn(s, m)
  {
    if messages == [] then None
    else
      var rest := Closest(s, messages[1..]);
      if MayOwn(s, messages[0]) && (rest.None? || Distance(s, messages[0]) <= Distance(s, messages[1..][rest.value]))
        then Some(0)
      else if rest.Some? then Some(rest.value + 1)
      else None
  }

  /**
   * For each provider id without a same-text partner, the id of the stored message it falls to; a later entry replaces
   * an earlier one.
   */
  function Owners(session: seq<Message>, messages: seq<Message>, exact: set<string>): map<string, string> {
    if session == [] then map[]
    else
      var s := session[|session| - 1];
      var before := Owners(session[..|session| - 1], messages, exact);
      var k := Closest(s, messages);
      if s.id !in exact && k.Some? then before[s.id := messages[k.value].id] else before
  }

  // ---------------------------------------------------------------- the search for one message

  function FirstExact(session: seq<Message>, consumed: set<string>, m: Message): (k: Option<nat>)
    ensures k.Some? ==> k.value < |session| && session[k.value].id !in consumed && ExactMatch(session[k.value], m)
    ensures k.None? ==> forall s <- session :: ExactMatch(s, m) ==> s.id in consumed
  {
    if session == [] then None
    else if session[0].id !in consumed && ExactMatch(session[0], m) then Some(0)
    else
      var rest := FirstExact(session[1..], consumed, m);
      if rest.Some? then Some(rest.value + 1) else None
  }

  predicate FallsTo(s: Message, exact: set<string>, owners: map<string, string>, m: Message) {
    s.id !in exact && s.id in owners && owners[s.id] == m.id && Matches(s, m)
  }

  function FirstFallback(session: seq<Message>, consumed: set<string>, exact: set<string>, owners: map<string, string>,
                         m: Message): (k: Option<nat>)
    ensures k.Some? ==>
            k.value < |session| && session[k.value].id !in consumed
            && FallsTo(session[k.value], exact, owners, m)
    ensures k.None? ==> forall s <- session :: FallsTo(s, exact, owners, m) ==> s.id in consumed
  {
    if session == [] then None
    else if session[0].id !in consumed && FallsTo(session[0], exact, owners, m) then Some(0)
    else
      var rest := FirstFallback(session[1..], consumed, exact, owners, m);
      if rest.Some? then Some(rest.value + 1) else None
  }

  /** The provider message a stored message gives way to. */
  function Partner(session: seq<Message>, consumed: set<string>, exact: set<string>, owners: map<string, string>,
                   m: Message): (k: Option<nat>)
    ensures k.Some? ==> k.value < |session|
  {
    if !Replaceable(m) then None
    else
      var k := FirstExact(session, consumed, m);
      if k.Some? then k else FirstFallback(session, consumed, exact, owners, m)
  }

  // ---------------------------------------------------------------- the pass

  /** What the pass over the first messages decided: each one's partner, and the provider ids used up. */
  datatype Pass = Pass(partners: seq<Option<nat>>, consumed: set<string>)

  function PassOver(session: seq<Message>, messages: seq<Message>, exact: set<string>,
                    owners: map<string, string>): (p: Pass)
    ensures |p.partners| == |messages|
  {
    if messages == [] then Pass([], {})
    else
      var before := PassOver(session, messages[..|messages| - 1], exact, owners);
      var k := Partner(session, before.consumed, exact, owners, messages[|messages| - 1]);
      Pass(before.partners + [k], if k.Some? then before.consumed + {session[k.value].id} else before.consumed)
  }

  function Kept(messages: seq<Message>, partners: seq<Option<nat>>): seq<Message>
    requires |partners| == |messages|
  {
    if messages == [] then []
    else Kept(messages[..|messages| - 1], partners[..|partners| - 1])
         + if partners[|partners| - 1].None? then [messages[|messages| - 1]] else []
  }

  function Decided(session: seq<Message>, messages: seq<Message>): (p: Pass)
    ensures |p.partners| == |messages|
  {
    var exact := ExactIds(session, messages);
    PassOver(session, messages, exact, Owners(session, messages, exact))
  }

  /**
   * The loops of filterProviderBackedServerOperatorMessages: owners first, then the filter with its growing set of
   * consumed ids.
   */
  method FilterProviderBacked(session: seq<Message>, messages: seq<Message>) returns (kept: seq<Message>)
    ensures kept == Kept(messages, Decided(session, messages).partners)
  {
    hide ExactIds, Partner;
    var exact := ExactIds(session, messages);
    var owners: map<string, string> := map[];
    for i := 0 to |session|
      invariant owners == Owners(session[..i], messages, exact)
    {
      assert session[..i + 1][..i] == session[..i];
      if session[i].id !in exact {
        var owner := Closest(session[i], messages);
        if owner.Some? {
          owners := owners[session[i].id := messages[owner.value].id];
        }
      }
    }
    assert session[..|session|] == session;
    kept := [];
    var consumed: set<string> := {};
    ghost var partners: seq<Option<nat>> := [];
    for i := 0 to |messages|
      invariant Pass(partners, consumed) == PassOver(session, messages[..i], exact, owners)
      invariant kept == Kept(messages[..i], partners)
    {
      assert messages[..i + 1][..i] == messages[..i];
      var partner := Partner(session, consumed, exact, owners, messages[i]);
      if partner.None? {
        kept := kept + [messages[i]];
      } else {
        consumed := consumed + {session[partner.value].id};
      }
      assert (partners + [partner])[..i] == partners;
      partners := partners + [partner];
    }
    assert messages[..|messages|] == messages;
  }

  // ---------------------------------------------------------------- theorems

  /** A stored message's partner is one it matches, and has the same text unless nobody shares its text. */
  predicate GoodPair(s: Message, m: Message, exact: set<string>, owners: map<string, string>) {
    Replaceable(m) && Matches(s, m) && (s.text == m.text || FallsTo(s, exact, owners, m))
  }

  predicate PassSound(session: seq<Message>, messages: seq<Message>, exact: set<string>, owners: map<string, string>,
                      p: Pass)
    requires |p.partners| == |messages|
  {
    && (forall i :: 0 <= i < |messages| && p.partners[i].Some? ==>
          p.partners[i].value < |session| && session[p.partners[i].value].id in p.consumed
          && GoodPair(session[p.partners[i].value], messages[i], exact, owners))
    && (forall i, j :: 0 <= i < j < |messages| && p.partners[i].Some? && p.partners[j].Some? ==>
          p.partners[i].value < |session| && p.partners[j].value < |session|
          && session[p.partners[i].value].id != session[p.partners[j].value].id)
    && (forall i, s ::
          0 <= i < |messages| && Replaceable(messages[i]) && p.partners[i].None? && s in session
          && (ExactMatch(s, messages[i]) || FallsTo(s, exact, owners, messages[i]))
          ==> s.id in p.consumed)
  }

  lemma PartnerIsGood(session: seq<Message>, consumed: set<string>, exact: set<string>, owners: map<string, string>,
                      m: Message)
    ensures var k := Partner(session, consumed, exact, owners, m);
            && (k.Some? ==> GoodPair(session[k.value], m, exact, owners) && session[k.value].id !in consumed)
            && (k.None? && Replaceable(m) ==>
                  forall s <- session :: ExactMatch(s, m) || FallsTo(s, exact, owners, m) ==> s.id in consumed)
  {
  }

  lemma {:induction false} PassIsSound(session: seq<Message>, messages: seq<Message>, exact: set<string>,
                                       owners: map<string, string>)
    ensures PassSound(session, messages, exact, owners, PassOver(session, messages, exact, owners))
  {
    hide Partner, GoodPair, ExactMatch, Replaceable, FallsTo;
    if messages != [] {
      var init, m := messages[..|messages| - 1], messages[|messages| - 1];
      PassIsSound(session, init, exact, owners);
      PartnerIsGood(session, PassOver(session, init, exact, owners).consumed, exact, owners, m);
    }
  }

  /** When a message was written; one without a stamp counts as written at time zero. */
  function TimeOf(m: Message): int {
    match m.at
    case Some(at) => at
    case None => 0
  }

  /** The provider's message is on the stored one's side: Butler's for a reply, the operator's for anything else. */
  predicate OnSide(s: Message, m: Message) {
    (s.role == Assistant || s.role == User) && (s.role == Assistant <==> m.role == Assistant)
  }

  /** It says the same, or was written at most a second before and at most thirty seconds after. */
  predicate IsLike(s: Message, m: Message) {
    s.text == m.text || (TimeOf(m) <= TimeOf(s) + 1_000 && TimeOf(s) <= TimeOf(m) + 30_000)
  }

  /** The stored message can give way at all: a prompt, or a reply stored for the session, that is not pending. */
  predicate CanGive(m: Message) {
    !m.pending && m.role != OtherRole && (m.role == Assistant ==> m.sessionId)
  }

  lemma MatchingMeans(s: Message, m: Message)
    ensures Matches(s, m) <==> OnSide(s, m) && IsLike(s, m)
    ensures ExactMatch(s, m) <==> OnSide(s, m) && s.text == m.text
    ensures Replaceable(m) <==> CanGive(m)
    ensures InWindow(s, m) <==> TimeOf(m) <= TimeOf(s) + 1_000 && TimeOf(s) <= TimeOf(m) + 30_000
    ensures Distance(s, m) == if TimeOf(s) < TimeOf(m) then TimeOf(m) - TimeOf(s) else TimeOf(s) - TimeOf(m)
  {
  }

  lemma MatchingMeansAll()
    ensures forall s, m :: Matches(s, m) <==> OnSide(s, m) && IsLike(s, m)
    ensures forall s, m :: ExactMatch(s, m) <==> OnSide(s, m) && s.text == m.text
    ensures forall m :: Replaceable(m) <==> CanGive(m)
  {
    forall s, m
      ensures Matches(s, m) <==> OnSide(s, m) && IsLike(s, m)
      ensures ExactMatch(s, m) <==> OnSide(s, m) && s.text == m.text { MatchingMeans(s, m); }
    forall m ensures Replaceable(m) <==> CanGive(m) { MatchingMeans(m, m); }
  }

  /**
   * Removed messages map injectively to distinct provider messages on their side, with their text or close to them in
   * time; pending messages and those of other roles are never removed; and a provider message that shares its text with
   * some stored message is only ever given for one with that text, never for one that is merely close in time.
   */
  lemma RemovedMessagesHavePartners(session: seq<Message>, messages: seq<Message>)
    ensures var p := Decided(session, messages).partners;
            && (forall i :: 0 <= i < |messages| && p[i].Some? ==>
                  && p[i].value < |session| && CanGive(messages[i])
                  && OnSide(session[p[i].value], messages[i]) && IsLike(session[p[i].value], messages[i]))
            && (forall i, j :: 0 <= i < j < |messages| && p[i].Some? && p[j].Some? ==> p[i].value != p[j].value)
            && (forall i, m ::
                  0 <= i < |messages| && p[i].Some? && m in messages && OnSide(session[p[i].value], m)
                  && session[p[i].value].text == m.text
                  ==> session[p[i].value].text == messages[i].text)
  {
    hide Matches, PassOver, Owners, ExactMatch, OnSide, IsLike, Replaceable, CanGive;
    MatchingMeansAll();
    var exact := ExactIds(session, messages);
    PassIsSound(session, messages, exact, Owners(session, messages, exact));
    var p := Decided(session, messages).partners;
    forall i, m | 0 <= i < |messages| && p[i].Some? && m in messages && ExactMatch(session[p[i].value], m)
      ensures session[p[i].value].id in exact
    {
      assert session[p[i].value] in session;
    }
  }

  /** How far apart in time the two are. */
  function Gap(s: Message, m: Message): nat {
    if TimeOf(s) < TimeOf(m) then TimeOf(m) - TimeOf(s) else TimeOf(s) - TimeOf(m)
  }

  predicate DistinctIds(messages: seq<Message>) {
    forall i, j :: 0 <= i < j < |messages| ==> messages[i].id != messages[j].id
  }

  lemma {:induction false} OwnerIsClosest(session: seq<Message>, messages: seq<Message>, exact: set<string>, k: nat)
    requires DistinctIds(session) && k < |session| && session[k].id in Owners(session, messages, exact)
    ensures Closest(session[k], messages).Some?
    ensures Owners(session, messages, exact)[session[k].id] == messages[Closest(session[k], messages).value].id
  {
    if k < |session| - 1 {
      OwnerIsClosest(session[..|session| - 1], messages, exact, k);
    } else {
      OwnersAreEarlier(session[..k], messages, exact, session[k].id);
    }
  }

  lemma {:induction false} OwnersAreEarlier(session: seq<Message>, messages: seq<Message>, exact: set<string>,
                                            id: string)
    requires forall s <- session :: s.id != id
    ensures id !in Owners(session, messages, exact)
  {
    if session != [] { OwnersAreEarlier(session[..|session| - 1], messages, exact, id); }
  }

  /** A message that gives way by time alone is the closest of all that could have. */
  lemma FallbackGoesToTheClosest(session: seq<Message>, messages: seq<Message>, i: nat, j: nat)
    requires DistinctIds(session) && DistinctIds(messages) && i < |messages| && j < |messages|
    requires Decided(session, messages).partners[i].Some? && Decided(session, messages).partners[i].value < |session|
    requires var s := session[Decided(session, messages).partners[i].value];
             s.text != messages[i].text && !messages[j].pending && OnSide(s, messages[j]) && IsLike(s, messages[j])
    ensures var s := session[Decided(session, messages).partners[i].value];
            && TimeOf(messages[i]) <= TimeOf(s) + 1_000 && TimeOf(s) <= TimeOf(messages[i]) + 30_000
            && Gap(s, messages[i]) <= Gap(s, messages[j])
  {
    MatchingMeans(session[Decided(session, messages).partners[i].value], messages[i]);
    MatchingMeans(session[Decided(session, messages).partners[i].value], messages[j]);
    hide PassOver, Owners, ExactIds, Distance, OnSide, IsLike, TimeOf;
    var exact := ExactIds(session, messages);
    var owners := Owners(session, messages, exact);
    PassIsSound(session, messages, exact, owners);
    var k := Decided(session, messages).partners[i].value;
    assert FallsTo(session[k], exact, owners, messages[i]);
    OwnerIsClosest(session, messages, exact, k);
    assert Closest(session[k], messages) == Some(i);
  }

  /**
   * Nor does a message stay that lies close to a provider message with nobody's text, if it is the closest that could,
   * the first of several, unless that provider message was given for another.
   */
  lemma NoClosestIsLeft(session: seq<Message>, messages: seq<Message>, i: nat, s: nat)
    requires DistinctIds(session) && DistinctIds(messages) && i < |messages| && s < |session|
    requires CanGive(messages[i]) && OnSide(session[s], messages[i]) && IsLike(session[s], messages[i])
    requires forall j :: 0 <= j < |messages| && OnSide(session[s], messages[j]) ==> session[s].text != messages[j].text
    requires forall j :: 0 <= j < |messages| && !messages[j].pending && OnSide(session[s], messages[j])
                         && IsLike(session[s], messages[j])
                         ==> Gap(session[s], messages[i]) + (if j < i then 1 else 0) <= Gap(session[s], messages[j])
    requires Decided(session, messages).partners[i].None?
    ensures exists j :: 0 <= j < |messages| && Decided(session, messages).partners[j].Some?
                        && Decided(session, messages).partners[j].value < |session|
                        && session[Decided(session, messages).partners[j].value].id == session[s].id
  {
    hide Matches, PassOver, Owners, ExactIds, ExactMatch, GoodPair, OnSide, IsLike, Replaceable, Distance, Gap;
    MatchingMeansAll();
    GapsAreDistances();
    var exact := ExactIds(session, messages);
    var owners := Owners(session, messages, exact);
    IsTheClosest(session[s], messages, i);
    NotExact(session, messages, s);
    ClosestOwns(session, messages, exact, s);
    PassIsSound(session, messages, exact, owners);
    assert FallsTo(session[s], exact, owners, messages[i]);
    ConsumedHasTaker(session, messages, exact, owners, session[s].id);
  }

  lemma GapsAreDistances()
    ensures forall s, m :: Gap(s, m) == Distance(s, m)
  {
  }

  lemma IsTheClosest(s: Message, messages: seq<Message>, i: nat)
    requires i < |messages| && MayOwn(s, messages[i])
    requires forall j :: 0 <= j < |messages| && MayOwn(s, messages[j]) ==>
               Distance(s, messages[i]) + (if j < i then 1 else 0) <= Distance(s, messages[j])
    ensures Closest(s, messages) == Some(i)
  {
    hide MayOwn, Distance;
    var k := Closest(s, messages);
    assert messages[i] in messages;
  }

  lemma NotExact(session: seq<Message>, messages: seq<Message>, s: nat)
    requires DistinctIds(session) && s < |session| && forall m <- messages :: !ExactMatch(session[s], m)
    ensures session[s].id !in ExactIds(session, messages)
  {
    hide ExactMatch;
  }

  lemma {:induction false} ClosestOwns(session: seq<Message>, messages: seq<Message>, exact: set<string>, s: nat)
    requires DistinctIds(session) && s < |session| && session[s].id !in exact && Closest(session[s], messages).Some?
    ensures session[s].id in Owners(session, messages, exact)
    ensures Owners(session, messages, exact)[session[s].id] == messages[Closest(session[s], messages).value].id
  {
    if s < |session| - 1 {
      ClosestOwns(session[..|session| - 1], messages, exact, s);
    }
  }

  /** No message stays that could still give way to a provider message with its own text. */
  lemma NoExactPairIsLeft(session: seq<Message>, messages: seq<Message>, i: nat, s: nat)
    requires i < |messages| && s < |session|
    requires CanGive(messages[i]) && OnSide(session[s], messages[i]) && session[s].text == messages[i].text
    requires Decided(session, messages).partners[i].None?
    ensures exists j :: 0 <= j < |messages| && Decided(session, messages).partners[j].Some?
                        && Decided(session, messages).partners[j].value < |session|
                        && session[Decided(session, messages).partners[j].value].id == session[s].id
  {
    MatchingMeans(session[s], messages[i]);
    hide Matches, PassOver, Owners, ExactIds, ExactMatch, GoodPair, Replaceable, OnSide;
    var exact := ExactIds(session, messages);
    var owners := Owners(session, messages, exact);
    PassIsSound(session, messages, exact, owners);
    ConsumedHasTaker(session, messages, exact, owners, session[s].id);
  }

  lemma {:induction false} ConsumedHasTaker(session: seq<Message>, messages: seq<Message>, exact: set<string>,
                                            owners: map<string, string>, id: string)
    requires id in PassOver(session, messages, exact, owners).consumed
    ensures exists j :: 0 <= j < |messages| && PassOver(session, messages, exact, owners).partners[j].Some?
                        && PassOver(session, messages, exact, owners).partners[j].value < |session|
                        && session[PassOver(session, messages, exact, owners).partners[j].value].id == id
  {
    hide Partner;
    var init := messages[..|messages| - 1];
    var before := PassOver(session, init, exact, owners);
    var p := PassOver(session, messages, exact, owners).partners;
    if id in before.consumed {
      ConsumedHasTaker(session, init, exact, owners, id);
      var j :| 0 <= j < |init| && before.partners[j].Some? && before.partners[j].value < |session|
        && session[before.partners[j].value].id == id;
      assert p[j] == before.partners[j];
    } else {
      assert p[|messages| - 1].Some?;
    }
  }

  predicate Subsequence(kept: seq<Message>, messages: seq<Message>, at: seq<nat>) {
    && |at| == |kept|
    && (forall k :: 0 <= k < |at| ==> at[k] < |messages| && kept[k] == messages[at[k]])
    && (forall k, l :: 0 <= k < l < |at| ==> at[k] < at[l])
  }

  lemma SubsequenceGrows(kept: seq<Message>, init: seq<Message>, at: seq<nat>, m: Message)
    requires Subsequence(kept, init, at)
    ensures Subsequence(kept, init + [m], at)
    ensures Subsequence(kept + [m], init + [m], at + [|init|])
  {
  }

  /** The places of the messages without a partner. */
  function KeptAt(partners: seq<Option<nat>>): seq<nat> {
    if partners == [] then []
    else KeptAt(partners[..|partners| - 1]) + if partners[|partners| - 1].None? then [|partners| - 1] else []
  }

  lemma {:induction false} KeptAtIsExact(partners: seq<Option<nat>>, i: nat)
    ensures i in KeptAt(partners) <==> i < |partners| && partners[i].None?
  {
    if partners != [] {
      KeptAtIsExact(partners[..|partners| - 1], i);
    }
  }

  /** What stays keeps its order, and it is exactly the messages without a partner. */
  lemma {:induction false} KeptInOrder(messages: seq<Message>, partners: seq<Option<nat>>)
    requires |partners| == |messages|
    ensures Subsequence(Kept(messages, partners), messages, KeptAt(partners))
    ensures forall i: nat :: i in KeptAt(partners) <==> i < |partners| && partners[i].None?
  {
    if messages != [] {
      hide Subsequence;
      var init, m := messages[..|messages| - 1], messages[|messages| - 1];
      assert messages == init + [m];
      KeptInOrder(init, partners[..|partners| - 1]);
      SubsequenceGrows(Kept(init, partners[..|partners| - 1]), init, KeptAt(partners[..|partners| - 1]), m);
    }
    forall i: nat ensures i in KeptAt(partners) <==> i < |partners| && partners[i].None? {
      KeptAtIsExact(partners, i);
    }
  }
}
