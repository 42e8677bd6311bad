/** What the activity log keeps over every sequence of events. */
module ActivityInvariants {
  import opened Options
  import opened Sorting
  import opened ActivityTurns

  /** Item ids tell their place, so they are distinct. */
  predicate OwnIds(turn: Turn) {
    forall k :: 0 <= k < |turn.items| ==> turn.items[k].id == ItemId(turn.id, turn.items[k].kind, k)
  }

  /** At most one tool item per call id. */
  predicate OneItemPerCall(items: seq<Item>) {
    forall i, k :: 0 <= i < k < |items| && items[i].kind == Tool && items[k].kind == Tool && Named(items[i].toolCallId)
      ==> items[k].toolCallId != items[i].toolCallId
  }

  /** Only the latest thinking item can be active. */
  predicate ThinksOnce(items: seq<Item>) {
    forall i, k :: 0 <= i < k < |items| && items[i].kind == Thinking && items[k].kind == Thinking
      ==> items[i].status != Active
  }

  predicate EndedIsQuiet(turn: Turn) {
    turn.status != InProgress ==> forall item <- turn.items :: item.status != Active
  }

  predicate TurnTidy(turn: Turn) {
    OwnIds(turn) && OneItemPerCall(turn.items) && ThinksOnce(turn.items) && EndedIsQuiet(turn)
  }

  /** Sequence numbers grow along the list, so turn ids are distinct. */
  predicate Growing(turns: seq<Turn>, sequence: nat) {
    && (forall i, k :: 0 <= i < k < |turns| ==> turns[i].id.sequence < turns[k].id.sequence)
    && (forall turn <- turns :: turn.id.sequence <= sequence)
  }

  /** A turn in progress is the last one, and it is the one the log calls active. */
  predicate ActiveIsLast(a: Activity) {
    && (forall k ::
        0 <= k < |a.turns| && a.turns[k].status == InProgress
        ==> k == |a.turns| - 1 && a.activeId == Some(a.turns[k].id))
    && (a.activeId.Some? ==> a.turns != [] && a.turns[|a.turns| - 1].status == InProgress)
  }

  predicate Tidy(a: Activity) {
    && |a.turns| <= MAX_ACTIVITY_TURNS
    && Growing(a.turns, a.sequence)
    && ActiveIsLast(a)
    && forall turn <- a.turns :: TurnTidy(turn)
  }

  lemma TidyIdsAreDistinct(a: Activity)
    requires Tidy(a)
    ensures forall i, k :: 0 <= i < k < |a.turns| ==> a.turns[i].id != a.turns[k].id
    ensures forall turn <- a.turns, i, k | 0 <= i < k < |turn.items| :: turn.items[i].id != turn.items[k].id
  {
    forall turn, i, k | turn in a.turns && 0 <= i < k < |turn.items| ensures turn.items[i].id != turn.items[k].id {
      assert TurnTidy(turn);
    }
  }

  // ---------------------------------------------------------------- items

  lemma ThinkingKeepsTidy(turn: Turn, at: int)
    requires TurnTidy(turn) && turn.status == InProgress
    ensures TurnTidy(UpsertThinking(turn, at)) && UpsertThinking(turn, at).status == InProgress
            && UpsertThinking(turn, at).id == turn.id
  {
  }

  lemma EndThinkingKeepsTidy(turn: Turn, at: int)
    requires TurnTidy(turn) && turn.status == InProgress
    ensures TurnTidy(EndThinking(turn, at)) && EndThinking(turn, at).status == InProgress
            && EndThinking(turn, at).id == turn.id
  {
  }

  lemma ToolKeepsTidy(turn: Turn, input: ToolInput, at: int)
    requires TurnTidy(turn) && turn.status == InProgress
    ensures TurnTidy(UpsertTool(turn, input, at)) && UpsertTool(turn, input, at).status == InProgress
            && UpsertTool(turn, input, at).id == turn.id
  {
    hide OneItemPerCall;
    ToolKeepsCalls(turn, input, at);
  }

  lemma ToolKeepsCalls(turn: Turn, input: ToolInput, at: int)
    requires OneItemPerCall(turn.items)
    ensures OneItemPerCall(UpsertTool(turn, input, at).items)
  {
    var after := UpsertTool(turn, input, at).items;
    forall i, k | 0 <= i < k < |after| && after[i].kind == Tool && after[k].kind == Tool && Named(after[i].toolCallId)
      ensures after[k].toolCallId != after[i].toolCallId
    {
      assert turn.items[i] in turn.items;
      if k < |turn.items| {
        assert Named(turn.items[i].toolCallId) ==> turn.items[k].toolCallId != turn.items[i].toolCallId;
      }
    }
  }

  /** One item is put in or updated, and every other stays as it is. */
  predicate ChangesOne(before: seq<Item>, after: seq<Item>, k: nat) {
    && k < |after| && (|after| == |before| || (|after| == |before| + 1 && k == |before|))
    && forall j :: 0 <= j < |before| && j != k ==> after[j] == before[j]
  }

  /**
   * The item is that of the event's call: of the same call id if the event names one, else of the same content index.
   */
  predicate IsOfTheCall(item: Item, input: ToolInput) {
    item.kind == Tool &&
    match input.toolCallId
    case Some(id) => if id != "" then item.toolCallId == Some(id) else IsAtTheIndex(item, input)
    case None => IsAtTheIndex(item, input)
  }

  predicate IsAtTheIndex(item: Item, input: ToolInput) {
    input.contentIndex != None && item.contentIndex == input.contentIndex
  }

  /**
   * A tool event shows on exactly one item: the first of its call if there is one, else a new one. It then says what
   * the event says, and keeps its title, content index and call id where the event brings none or it has one already.
   */
  lemma ToolEventShows(turn: Turn, input: ToolInput, at: int) returns (k: nat)
    ensures var after := UpsertTool(turn, input, at).items;
            && ChangesOne(turn.items, after, k)
            && after[k].kind == Tool && after[k].status == input.status && after[k].updatedAt == at
            && (input.title != "" ==> after[k].title == input.title)
            && (Named(input.toolCallId) ==> after[k].toolCallId == input.toolCallId)
            && (|after| == |turn.items| <==> exists item <- turn.items :: IsOfTheCall(item, input))
            && (if |after| == |turn.items| then
                  var was := turn.items[k];
                  && IsOfTheCall(was, input) && (forall j :: 0 <= j < k ==> !IsOfTheCall(turn.items[j], input))
                  && after[k].at == was.at && (input.title == "" ==> after[k].title == was.title)
                  && after[k].contentIndex == (if was.contentIndex.Some? then was.contentIndex else input.contentIndex)
                  && after[k].toolCallId == (if was.toolCallId.Some? then was.toolCallId else input.toolCallId)
                else
                  && after[k].at == at && after[k].contentIndex == input.contentIndex
                  && after[k].toolCallId == input.toolCallId)
  {
    CallMeans(input);
    var found := FindTool(turn.items, input.contentIndex, input.toolCallId);
    k := found.GetOr(|turn.items|);
    if found.Some? { assert turn.items[k] in turn.items; }
  }

  lemma CallMeans(input: ToolInput)
    ensures forall item :: IsTheTool(item, input.contentIndex, input.toolCallId) <==> IsOfTheCall(item, input)
  {
  }

  /** The item is the latest thinking item. */
  predicate IsLatestThought(items: seq<Item>, k: nat) {
    k < |items| && items[k].kind == Thinking && forall j :: k < j < |items| ==> items[j].kind != Thinking
  }

  /**
   * Thinking shows on exactly one item, the latest of its kind: on the one there is if that is active, else on a new
   * one.
   */
  lemma ThinkingShows(turn: Turn, at: int) returns (k: nat)
    ensures var after := UpsertThinking(turn, at).items;
            && ChangesOne(turn.items, after, k)
            && after[k].status == Active && after[k].updatedAt == at && IsLatestThought(after, k)
            && (k < |turn.items| <==> exists i: nat :: IsLatestThought(turn.items, i) && turn.items[i].status == Active)
            && (k < |turn.items| ==> after[k].at == turn.items[k].at && after[k].title == turn.items[k].title)
  {
    var latest := LatestThinking(turn.items);
    k := if latest.Some? && turn.items[latest.value].status == Active then latest.value else |turn.items|;
  }

  /** Its end shows on the latest thinking item, if there is one, which is completed then, and on nothing else. */
  lemma ThinkingEnds(turn: Turn, at: int)
    ensures var after := EndThinking(turn, at).items;
            && |after| == |turn.items|
            && forall k: nat :: k < |after| ==>
                 after[k] == if IsLatestThought(turn.items, k) then turn.items[k].(status := Completed, updatedAt := at)
                             else turn.items[k]
  {
  }

  lemma CloseKeepsTidy(turn: Turn, status: TurnStatus, at: int)
    requires TurnTidy(turn) && status != InProgress
    ensures TurnTidy(Close(turn, status, at)) && Close(turn, status, at).id == turn.id
            && Close(turn, status, at).status == status
  {
  }

  // ---------------------------------------------------------------- turns

  lemma PushKeepsTidy(a: Activity, turn: Turn, activeId: Option<TurnId>)
    requires Tidy(a) && TurnTidy(turn) && turn.id.sequence == a.sequence + 1
    requires forall t <- a.turns :: t.status != InProgress
    requires if turn.status == InProgress then activeId == Some(turn.id) else activeId == None
    ensures Tidy(Activity(Trimmed(a.turns + [turn]), activeId, a.sequence + 1))
  {
    hide TurnTidy, Growing, ActiveIsLast;
    TrimmedGrows(a.turns, turn, a.sequence);
    TrimmedEndsWith(a.turns, turn);
    OnlyTheNewTurn(a, turn, activeId);
  }

  lemma TrimmedEndsWith(turns: seq<Turn>, turn: Turn)
    ensures var kept := Trimmed(turns + [turn]);
            && 0 < |kept| <= MAX_ACTIVITY_TURNS && kept[|kept| - 1] == turn
            && (forall k :: 0 <= k < |kept| - 1 ==> kept[k] in turns)
  {
  }

  lemma TrimmedGrows(turns: seq<Turn>, turn: Turn, sequence: nat)
    requires Growing(turns, sequence) && turn.id.sequence == sequence + 1
    ensures Growing(Trimmed(turns + [turn]), sequence + 1)
  {
    var all := turns + [turn];
    assert Growing(all, sequence + 1);
    forall t | t in Trimmed(all) ensures t in all { }
  }

  lemma OnlyTheNewTurn(a: Activity, turn: Turn, activeId: Option<TurnId>)
    requires forall t <- a.turns :: t.status != InProgress
    requires if turn.status == InProgress then activeId == Some(turn.id) else activeId == None
    ensures ActiveIsLast(Activity(Trimmed(a.turns + [turn]), activeId, a.sequence + 1))
  {
    TrimmedEndsWith(a.turns, turn);
  }

  lemma SetKeepsTidy(a: Activity, k: nat, turn: Turn, activeId: Option<TurnId>)
    requires Tidy(a) && k < |a.turns| && TurnTidy(turn) && turn.id == a.turns[k].id
    requires if turn.status == InProgress then a.turns[k].status == InProgress && activeId == a.activeId
             else activeId == None && forall j :: 0 <= j < |a.turns| && j != k ==> a.turns[j].status != InProgress
    ensures Tidy(a.(turns := a.turns[k := turn], activeId := activeId))
  {
    hide TurnTidy;
    forall t | t in a.turns[k := turn] ensures t == turn || t in a.turns { }
  }

  lemma FindActive(a: Activity)
    requires Tidy(a)
    ensures var k := FindTurn(a.turns, a.activeId);
            && (k.Some? <==> a.activeId.Some?)
            && (k.Some? ==> k.value == |a.turns| - 1 && a.turns[k.value].status == InProgress)
            && (k.None? ==> forall t <- a.turns :: t.status != InProgress)
  {
    hide TurnTidy;
  }

  lemma EnsureKeepsTidy(a: Activity, at: int)
    requires Tidy(a)
    ensures Tidy(EnsureTurn(a, at)) && EnsureTurn(a, at).activeId.Some?
  {
    hide Tidy;
    FindActive(a);
    if !HasActive(a) {
      PushKeepsTidy(a, Turn(TurnId(at, a.sequence + 1), InProgress, at, None, []), Some(TurnId(at, a.sequence + 1)));
    }
  }

  lemma FinalizeKeepsTidy(a: Activity, status: TurnStatus, at: int, startedAt: int)
    requires Tidy(a) && status != InProgress
    ensures Tidy(Finalize(a, status, at, startedAt)) && Finalize(a, status, at, startedAt).activeId.None?
  {
    hide Close, Tidy, Trimmed;
    FindActive(a);
    var since := if startedAt <= at then startedAt else at;
    var k := FindTurn(a.turns, a.activeId);
    var ended := LastEndedSince(a.turns, since);
    if k.Some? {
      CloseTurnKeepsTidy(a, k.value, status, at);
    } else if status != Failed {
      NothingActive(a);
    } else if ended.Some? {
      CloseTurnKeepsTidy(a, ended.value, status, at);
    } else {
      var turn := Turn(TurnId(since, a.sequence + 1), Failed, since, Some(at), []);
      EmptyIsTidy(turn);
      PushKeepsTidy(a, turn, None);
    }
  }

  /** The turn has been ended: with this status, at this time, and with it all its items that were still active. */
  predicate HasEnded(before: Turn, after: Turn, status: TurnStatus, at: int) {
    && after.id == before.id && after.startedAt == before.startedAt
    && after.status == status && after.completedAt == Some(at) && |after.items| == |before.items|
    && forall k :: 0 <= k < |before.items| ==>
         var item := before.items[k];
         after.items[k] == if item.status != Active then item
                           else item.(status := if status == Done then Completed else if status == Failed then Error
                                                else Stopped, updatedAt := at)
  }

  /** Nothing but turn `k` has changed, which has ended. */
  predicate OnlyEnds(before: seq<Turn>, after: seq<Turn>, k: nat, status: TurnStatus, at: int) {
    && k < |before| && |after| == |before| && HasEnded(before[k], after[k], status, at)
    && forall j :: 0 <= j < |before| && j != k ==> after[j] == before[j]
  }

  /**
   * Which turn an ending is charged to. It is the active one, if there is one; if not, only a failure is charged: to
   * the latest turn that started and ended since the request started, or to a new turn that takes its place at the end
   * of the list, from which the oldest turn goes if there are twenty already.
   */
  lemma EndingIsCharged(a: Activity, status: TurnStatus, at: int, startedAt: int)
    requires Tidy(a) && status != InProgress
    ensures var after := Finalize(a, status, at, startedAt);
            var since := if startedAt <= at then startedAt else at;
            && (a.activeId.Some? ==> OnlyEnds(a.turns, after.turns, |a.turns| - 1, status, at))
            && (a.activeId.None? && status != Failed ==> after.turns == a.turns)
            && (a.activeId.None? && status == Failed ==>
                  if exists turn <- a.turns :: EndedSince(turn, since)
                  then exists k: nat ::
                         OnlyEnds(a.turns, after.turns, k, Failed, at) && EndedSince(a.turns[k], since)
                         && forall j :: k < j < |a.turns| ==> !EndedSince(a.turns[j], since)
                  else var before := if |a.turns| == MAX_ACTIVITY_TURNS then a.turns[1..] else a.turns;
                       after.turns
                       == before + [Turn(TurnId(since, a.sequence + 1), Failed, since, Some(at), [])])
  {
    hide TurnTidy, Growing, HasEnded, Close, EndedSince;
    FindActive(a);
    forall k | 0 <= k < |a.turns| ensures HasEnded(a.turns[k], Close(a.turns[k], status, at), status, at) {
      CloseEnds(a.turns[k], status, at);
    }
    var since := if startedAt <= at then startedAt else at;
    var ended := LastEndedSince(a.turns, since);
    if a.activeId.None? && status == Failed && ended.Some? {
      assert EndedSince(a.turns[ended.value], since) && a.turns[ended.value] in a.turns;
      assert OnlyEnds(a.turns, Finalize(a, status, at, startedAt).turns, ended.value, Failed, at);
    }
  }

  lemma CloseEnds(turn: Turn, status: TurnStatus, at: int)
    requires status != InProgress
    ensures HasEnded(turn, Close(turn, status, at), status, at)
  {
  }

  lemma NothingActive(a: Activity)
    requires Tidy(a) && FindTurn(a.turns, a.activeId).None?
    ensures Tidy(a.(activeId := None))
  {
    hide TurnTidy;
    FindActive(a);
  }

  lemma CloseTurnKeepsTidy(a: Activity, k: nat, status: TurnStatus, at: int)
    requires Tidy(a) && k < |a.turns| && status != InProgress
    requires (k == |a.turns| - 1) || (forall t <- a.turns :: t.status != InProgress)
    ensures Tidy(a.(turns := a.turns[k := Close(a.turns[k], status, at)], activeId := None))
  {
    hide Close, TurnTidy;
    CloseKeepsTidy(a.turns[k], status, at);
    SetKeepsTidy(a, k, Close(a.turns[k], status, at), None);
  }

  lemma EmptyIsTidy(turn: Turn)
    requires turn.items == []
    ensures TurnTidy(turn)
  {
  }

  lemma OnActiveKeepsTidy(a: Activity, at: int, f: Turn -> Turn)
    requires Tidy(a)
    requires forall turn ::
             TurnTidy(turn) && turn.status == InProgress
             ==> TurnTidy(f(turn)) && f(turn).status == InProgress && f(turn).id == turn.id
    ensures Tidy(OnActive(a, at, f))
  {
    hide TurnTidy;
    EnsureKeepsTidy(a, at);
    var b := EnsureTurn(a, at);
    FindActive(b);
    var k := FindTurn(b.turns, b.activeId);
    assert TurnTidy(b.turns[k.value]);
    SetKeepsTidy(b, k.value, f(b.turns[k.value]), b.activeId);
  }

  /** What is kept is a subsequence: it keeps its order, and if the last turn stays it stays last. */
  lemma {:induction false} KeptIsOrdered(turns: seq<Turn>, timestamp: int, sequence: nat)
    requires Growing(turns, sequence)
    ensures var kept := KeptBefore(turns, timestamp);
            && |kept| <= |turns| && Growing(kept, sequence)
            && (forall turn <- kept :: turn in turns)
  {
    if turns != [] {
      var init, last := turns[..|turns| - 1], turns[|turns| - 1];
      KeptIsOrdered(init, timestamp, sequence);
      forall turn | turn in init ensures turn.id.sequence < last.id.sequence { }
    }
  }

  lemma LastStaysLast(turns: seq<Turn>, timestamp: int, sequence: nat)
    requires Growing(turns, sequence) && turns != [] && turns[|turns| - 1] in KeptBefore(turns, timestamp)
    ensures KeptBefore(turns, timestamp)[|KeptBefore(turns, timestamp)| - 1] == turns[|turns| - 1]
  {
    var init, last := turns[..|turns| - 1], turns[|turns| - 1];
    KeptIsOrdered(init, timestamp, sequence);
    forall turn | turn in init ensures turn.id.sequence < last.id.sequence { }
    assert last !in KeptBefore(init, timestamp);
  }

  lemma RewindKeepsTidy(a: Activity, timestamp: int)
    requires Tidy(a)
    ensures Tidy(KeepBefore(a, timestamp))
  {
    hide TurnTidy, Growing, ActiveIsLast;
    KeptIsOrdered(a.turns, timestamp, a.sequence);
    if a.turns != [] && a.turns[|a.turns| - 1] in KeptBefore(a.turns, timestamp) {
      LastStaysLast(a.turns, timestamp, a.sequence);
    }
    RewindKeepsActive(a, KeptBefore(a.turns, timestamp));
  }

  /** The turn's last sign of life, its end or else its start, came before. */
  predicate LivedBefore(turn: Turn, timestamp: int) {
    match turn.completedAt
    case Some(at) => at < timestamp
    case None => turn.startedAt < timestamp
  }

  /** What is kept when the chat is cut: exactly the turns whose last sign of life came before, in their order. */
  lemma RewindKeepsEarlier(a: Activity, timestamp: int)
    ensures KeepBefore(a, timestamp).turns == Filter((turn: Turn) => LivedBefore(turn, timestamp), a.turns)
  {
    KeptIsFiltered(a.turns, timestamp);
  }

  lemma {:induction false} KeptIsFiltered(turns: seq<Turn>, timestamp: int)
    ensures KeptBefore(turns, timestamp) == Filter((turn: Turn) => LivedBefore(turn, timestamp), turns)
  {
    if turns != [] {
      var init, last := turns[..|turns| - 1], turns[|turns| - 1];
      KeptIsFiltered(init, timestamp);
      FilterOfSum((turn: Turn) => LivedBefore(turn, timestamp), init, [last]);
      assert turns == init + [last];
    }
  }

  lemma RewindKeepsActive(a: Activity, kept: seq<Turn>)
    requires Tidy(a) && (forall turn <- kept :: turn in a.turns) && Growing(kept, a.sequence)
    requires a.turns != [] && a.turns[|a.turns| - 1] in kept ==> kept[|kept| - 1] == a.turns[|a.turns| - 1]
    ensures ActiveIsLast(a.(turns := kept, activeId := if FindTurn(kept, a.activeId).Some? then a.activeId else None))
  {
    hide TurnTidy, Growing;
    FindActive(a);
    OnlyLastInProgress(a, kept);
    var k := FindTurn(kept, a.activeId);
    if k.Some? {
      assert kept[k.value] in a.turns;
      SameIdSameTurn(a, kept[k.value], a.turns[|a.turns| - 1]);
    }
  }

  lemma SameIdSameTurn(a: Activity, s: Turn, t: Turn)
    requires Tidy(a) && s in a.turns && t in a.turns && s.id == t.id
    ensures s == t
  {
    hide TurnTidy;
  }

  lemma OnlyLastInProgress(a: Activity, kept: seq<Turn>)
    requires Tidy(a) && (forall turn <- kept :: turn in a.turns) && Growing(kept, a.sequence)
    requires a.turns != [] && a.turns[|a.turns| - 1] in kept ==> kept[|kept| - 1] == a.turns[|a.turns| - 1]
    ensures forall k ::
            0 <= k < |kept| && kept[k].status == InProgress
            ==> k == |kept| - 1 && kept[k] == a.turns[|a.turns| - 1]
  {
    hide TurnTidy;
    forall k | 0 <= k < |kept| && kept[k].status == InProgress
      ensures k == |kept| - 1 && kept[k] == a.turns[|a.turns| - 1] {
      assert kept[k] in a.turns;
    }
  }

  // ---------------------------------------------------------------- theorems

  lemma EventKeepsTidy(a: Activity, e: Event, at: int)
    requires Tidy(a)
    ensures Tidy(Record(a, e, at))
  {
    hide Tidy, TurnTidy, OnActive, UpsertThinking, UpsertTool, EndThinking;
    match e {
      case Begin => EnsureKeepsTidy(a, at);
      case Think =>
        forall turn | TurnTidy(turn) && turn.status == InProgress
          ensures TurnTidy(UpsertThinking(turn, at)) && UpsertThinking(turn, at).status == InProgress
                  && UpsertThinking(turn, at).id == turn.id
        { ThinkingKeepsTidy(turn, at); }
        OnActiveKeepsTidy(a, at, turn => UpsertThinking(turn, at));
      case UseTool(input) =>
        forall turn | TurnTidy(turn) && turn.status == InProgress
          ensures TurnTidy(UpsertTool(turn, input, at)) && UpsertTool(turn, input, at).status == InProgress
                  && UpsertTool(turn, input, at).id == turn.id
        { ToolKeepsTidy(turn, input, at); }
        OnActiveKeepsTidy(a, at, turn => UpsertTool(turn, input, at));
      case MessageEnd =>
        forall turn | TurnTidy(turn) && turn.status == InProgress
          ensures TurnTidy(EndThinking(turn, at)) && EndThinking(turn, at).status == InProgress
                  && EndThinking(turn, at).id == turn.id
        { EndThinkingKeepsTidy(turn, at); }
        OnActiveKeepsTidy(a, at, turn => EndThinking(turn, at));
      case End(status, startedAt) => if status != InProgress { FinalizeKeepsTidy(a, status, at, startedAt); }
      case Rewind(timestamp) => RewindKeepsTidy(a, timestamp);
      case Clear => ClearIsTidy(a);
    }
  }

  lemma ClearIsTidy(a: Activity)
    ensures Tidy(a.(turns := [], activeId := None))
  {
  }

  function After(events: seq<(Event, int)>): Activity {
    if events == [] then NOTHING
    else Record(After(events[..|events| - 1]), events[|events| - 1].0, events[|events| - 1].1)
  }

  /**
   * After any events: at most twenty turns, under distinct ids; a turn in progress is the last and is the active
   * one; ended turns have no active item; one tool item per (non-empty) call id; one active thinking item at most.
   */
  lemma {:induction false} ActivityIsAlwaysTidy(events: seq<(Event, int)>)
    ensures Tidy(After(events))
    ensures forall i, k :: 0 <= i < k < |After(events).turns| ==> After(events).turns[i].id != After(events).turns[k].id
  {
    hide Tidy, Record;
    if events == [] {
      ClearIsTidy(NOTHING);
    } else {
      ActivityIsAlwaysTidy(events[..|events| - 1]);
      EventKeepsTidy(After(events[..|events| - 1]), events[|events| - 1].0, events[|events| - 1].1);
    }
    TidyIdsAreDistinct(After(events));
  }

  // ---------------------------------------------------------------- the empty call id

  predicate CarriesEmptyId(e: Event) {
    e.UseTool? && e.input.toolCallId == Some("")
  }

  /** Items with an empty call id escape the rule: two can stand side by side. */
  lemma EmptyCallIdsRepeat()
    ensures var events := [(UseTool(ToolInput("a", Active, Some(0), Some(""))), 1),
                           (UseTool(ToolInput("b", Active, Some(1), Some(""))), 2)];
            var items := After(events).turns[0].items;
            |After(events).turns| == 1 && |items| == 2 && items[0].toolCallId == items[1].toolCallId == Some("")
  {
    var first := (UseTool(ToolInput("a", Active, Some(0), Some(""))), 1);
    var second := (UseTool(ToolInput("b", Active, Some(1), Some(""))), 2);
    assert [first, second][..1] == [first];
    assert After([]) == NOTHING;
    var one := After([first]);
    assert one == Record(NOTHING, first.0, 1);
    assert |one.turns| == 1 && |one.turns[0].items| == 1;
  }

  predicate IsEmptyCall(item: Item) {
    item.kind == Tool && item.toolCallId == Some("")
  }

  function CountEmpty(items: seq<Item>): nat {
    if items == [] then 0 else CountEmpty(items[..|items| - 1]) + if IsEmptyCall(items[|items| - 1]) then 1 else 0
  }

  lemma {:induction false} CountEmptyAfterChange(items: seq<Item>, k: nat, item: Item)
    requires k < |items|
    ensures CountEmpty(items[k := item])
            == CountEmpty(items) + (if IsEmptyCall(item) then 1 else 0) - (if IsEmptyCall(items[k]) then 1 else 0)
  {
    hide IsEmptyCall;
    var after := items[k := item];
    if k < |items| - 1 {
      CountEmptyAfterChange(items[..|items| - 1], k, item);
      assert after[..|items| - 1] == items[..|items| - 1][k := item];
    } else {
      assert after[..|items| - 1] == items[..|items| - 1];
    }
  }

  lemma {:induction false} CountEmptyAtLeastTwo(items: seq<Item>)
    ensures CountEmpty(items) >= 1 <==> exists i :: 0 <= i < |items| && IsEmptyCall(items[i])
    ensures CountEmpty(items) >= 2
            <==> exists i, k :: 0 <= i < k < |items| && IsEmptyCall(items[i]) && IsEmptyCall(items[k])
  {
    hide IsEmptyCall;
    if items != [] {
      var init, last := items[..|items| - 1], |items| - 1;
      CountEmptyAtLeastTwo(init);
      if CountEmpty(init) >= 1 {
        var i :| 0 <= i < |init| && IsEmptyCall(init[i]);
        assert IsEmptyCall(items[i]);
        if IsEmptyCall(items[last]) { assert i < last; }
      }
      if CountEmpty(init) >= 2 {
        var i, k :| 0 <= i < k < |init| && IsEmptyCall(init[i]) && IsEmptyCall(init[k]);
        assert IsEmptyCall(items[i]) && IsEmptyCall(items[k]);
      }
      if i, k :| 0 <= i < k < |items| && IsEmptyCall(items[i]) && IsEmptyCall(items[k]) {
        assert IsEmptyCall(init[i]);
        if k < last { assert IsEmptyCall(init[k]); }
      }
      if i :| 0 <= i < |items| && IsEmptyCall(items[i]) {
        if i < last { assert IsEmptyCall(init[i]); }
      }
    }
  }

  /**
   * The event brings an empty call id to an item that has no id yet: a new one, or the one at its place in the message.
   */
  predicate AddsEmptyCall(turn: Turn, input: ToolInput) {
    input.toolCallId == Some("")
    && var k := FindTool(turn.items, input.contentIndex, input.toolCallId);
       k.Some? ==> turn.items[k.value].toolCallId.None?
  }

  /**
   * Each such event makes for exactly one more tool item with the empty id, and no other tool event changes their
   * number. So two of them stand side by side if and only if the turn had one already when the event came, or had two
   * before.
   */
  lemma EmptyCallIdsAddUp(turn: Turn, input: ToolInput, at: int)
    ensures CountEmpty(UpsertTool(turn, input, at).items)
            == CountEmpty(turn.items) + if AddsEmptyCall(turn, input) then 1 else 0
    ensures (exists i, k :: 0 <= i < k < |UpsertTool(turn, input, at).items|
               && IsEmptyCall(UpsertTool(turn, input, at).items[i])
               && IsEmptyCall(UpsertTool(turn, input, at).items[k]))
            <==> CountEmpty(turn.items) >= (if AddsEmptyCall(turn, input) then 1 else 2)
  {
    var found := FindTool(turn.items, input.contentIndex, input.toolCallId);
    var after := UpsertTool(turn, input, at).items;
    if found.Some? {
      CountEmptyAfterChange(turn.items, found.value, after[found.value]);
    } else {
      assert after[..|turn.items|] == turn.items;
    }
    CountEmptyAtLeastTwo(after);
  }

  /** No other event changes the number for any turn. */
  lemma OthersAddNoEmptyCall(turn: Turn, status: TurnStatus, at: int)
    ensures CountEmpty(UpsertThinking(turn, at).items) == CountEmpty(turn.items)
    ensures CountEmpty(EndThinking(turn, at).items) == CountEmpty(turn.items)
    ensures CountEmpty(Close(turn, status, at).items) == CountEmpty(turn.items)
  {
    var k := LatestThinking(turn.items);
    if k.Some? {
      CountEmptyAfterChange(turn.items, k.value, turn.items[k.value].(updatedAt := at));
      CountEmptyAfterChange(turn.items, k.value, turn.items[k.value].(status := Completed, updatedAt := at));
    }
    var thought := UpsertThinking(turn, at).items;
    if |thought| > |turn.items| { assert thought[..|turn.items|] == turn.items; }
    ClosingAddsNone(turn.items, status, at);
  }

  lemma {:induction false} ClosingAddsNone(items: seq<Item>, status: TurnStatus, at: int)
    ensures CountEmpty(CloseItems(items, status, at)) == CountEmpty(items)
  {
    if items != [] {
      ClosingAddsNone(items[..|items| - 1], status, at);
      assert CloseItems(items, status, at)[..|items| - 1] == CloseItems(items[..|items| - 1], status, at);
    }
  }

  predicate TurnNamed(turn: Turn) {
    forall item <- turn.items :: item.toolCallId != Some("")
  }

  predicate AllNamed(a: Activity) {
    forall turn <- a.turns :: TurnNamed(turn)
  }

  lemma ItemsKeepNamed(turn: Turn, input: ToolInput, status: TurnStatus, at: int)
    requires TurnNamed(turn) && input.toolCallId != Some("")
    ensures TurnNamed(UpsertTool(turn, input, at)) && TurnNamed(UpsertThinking(turn, at))
            && TurnNamed(EndThinking(turn, at))
    ensures TurnNamed(Close(turn, status, at))
  {
  }

  lemma {:induction false} KeptAreOld(turns: seq<Turn>, timestamp: int)
    ensures forall turn <- KeptBefore(turns, timestamp) :: turn in turns
  {
    if turns != [] { KeptAreOld(turns[..|turns| - 1], timestamp); }
  }

  lemma OnActiveKeepsNamed(a: Activity, at: int, f: Turn -> Turn)
    requires AllNamed(a) && forall turn :: TurnNamed(turn) ==> TurnNamed(f(turn))
    ensures AllNamed(OnActive(a, at, f)) && AllNamed(EnsureTurn(a, at))
  {
    hide TurnNamed;
    assert TurnNamed(Turn(TurnId(at, a.sequence + 1), InProgress, at, None, [])) by {
      EmptyIsNamed(TurnId(at, a.sequence + 1), InProgress, at, None);
    }
  }

  lemma EmptyIsNamed(id: TurnId, status: TurnStatus, at: int, completedAt: Option<int>)
    ensures TurnNamed(Turn(id, status, at, completedAt, []))
  {
  }

  lemma FinalizeKeepsNamed(a: Activity, status: TurnStatus, at: int, startedAt: int)
    requires AllNamed(a)
    ensures AllNamed(Finalize(a, status, at, startedAt))
  {
    hide TurnNamed, CloseItems;
    var since := if startedAt <= at then startedAt else at;
    EmptyIsNamed(TurnId(since, a.sequence + 1), Failed, since, Some(at));
    forall turn | TurnNamed(turn) ensures TurnNamed(Close(turn, status, at)) {
      ItemsKeepNamed(turn, ToolInput("", Active, None, None), status, at);
    }
  }

  lemma EventKeepsNamed(a: Activity, e: Event, at: int)
    requires AllNamed(a) && !CarriesEmptyId(e)
    ensures AllNamed(Record(a, e, at))
  {
    hide TurnNamed, OnActive, UpsertTool, UpsertThinking, EndThinking, Finalize, EnsureTurn;
    var input := if e.UseTool? then e.input else ToolInput("", Active, None, None);
    forall turn | TurnNamed(turn)
      ensures TurnNamed(UpsertTool(turn, input, at)) && TurnNamed(UpsertThinking(turn, at))
              && TurnNamed(EndThinking(turn, at))
    { ItemsKeepNamed(turn, input, Done, at); }
    match e {
      case Begin => OnActiveKeepsNamed(a, at, turn => turn);
      case Think => OnActiveKeepsNamed(a, at, turn => UpsertThinking(turn, at));
      case UseTool(_) => OnActiveKeepsNamed(a, at, turn => UpsertTool(turn, input, at));
      case MessageEnd => OnActiveKeepsNamed(a, at, turn => EndThinking(turn, at));
      case End(status, startedAt) => FinalizeKeepsNamed(a, status, at, startedAt);
      case Rewind(timestamp) => KeptAreOld(a.turns, timestamp);
      case Clear =>
    }
  }

  /** If no event carries an empty call id, no two tool items of a turn share a call id at all. */
  lemma {:induction false} CallIdsAreUnique(events: seq<(Event, int)>)
    requires forall e <- events :: !CarriesEmptyId(e.0)
    ensures AllNamed(After(events))
    ensures forall turn <- After(events).turns, i, k | 0 <= i < k < |turn.items| ::
              turn.items[i].kind == Tool && turn.items[k].kind == Tool && turn.items[i].toolCallId.Some?
              ==> turn.items[i].toolCallId != turn.items[k].toolCallId
  {
    hide Tidy, Record, TurnTidy;
    if events != [] {
      var init := events[..|events| - 1];
      CallIdsAreUnique(init);
      EventKeepsNamed(After(init), events[|events| - 1].0, events[|events| - 1].1);
    }
    ActivityIsAlwaysTidy(events);
    NamedAndTidy(After(events));
  }

  lemma NamedAndTidy(a: Activity)
    requires Tidy(a) && AllNamed(a)
    ensures forall turn <- a.turns, i, k | 0 <= i < k < |turn.items| ::
              turn.items[i].kind == Tool && turn.items[k].kind == Tool && turn.items[i].toolCallId.Some?
              ==> turn.items[i].toolCallId != turn.items[k].toolCallId
  {
    forall turn, i, k | turn in a.turns && 0 <= i < k < |turn.items| && turn.items[i].kind == Tool
      && turn.items[k].kind == Tool && turn.items[i].toolCallId.Some?
      ensures turn.items[i].toolCallId != turn.items[k].toolCallId
    {
      assert TurnTidy(turn) && TurnNamed(turn);
      assert turn.items[i] in turn.items;
    }
  }
}
