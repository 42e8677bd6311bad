/**
 * The activity Butler shows while it works (butler-activity.ts): turns, the items of a turn, and which turn
 * is active. Texts shown to the operator are not modelled.
 */
module ActivityTurns {
  import opened Options

  const MAX_ACTIVITY_TURNS := 20

  datatype TurnId = TurnId(at: int, sequence: nat)
  datatype Kind = Thinking | Tool
  datatype ItemId = ItemId(turn: TurnId, kind: Kind, index: nat)
  datatype ItemStatus = Active | Completed | Error | Stopped
  datatype TurnStatus = InProgress | Done | Failed | Interrupted | Cancelled

  datatype Item = Item(
    id: ItemId,
    kind: Kind,
    status: ItemStatus,
    title: string,
    at: int,
    updatedAt: int,
    contentIndex: Option<int>,
    toolCallId: Option<string>)

  datatype Turn = Turn(id: TurnId, status: TurnStatus, startedAt: int, completedAt: Option<int>, items: seq<Item>)

  datatype Activity = Activity(turns: seq<Turn>, activeId: Option<TurnId>, sequence: nat)

  const NOTHING := Activity([], None, 0)

  // ---------------------------------------------------------------- one turn's items

  /** The position of the last thinking item. */
  function LatestThinking(items: seq<Item>): (k: Option<nat>)
    ensures k.Some? ==>
            k.value < |items| && items[k.value].kind == Thinking
            && forall j :: k.value < j < |items| ==> items[j].kind != Thinking
    ensures k.None? ==> forall item <- items :: item.kind != Thinking
  {
    if items == [] then None
    else if items[|items| - 1].kind == Thinking then Some(|items| - 1)
    else LatestThinking(items[..|items| - 1])
  }

  function UpsertThinking(turn: Turn, at: int): Turn {
    var k := LatestThinking(turn.items);
    if k.Some? && turn.items[k.value].status == Active
    then turn.(items := turn.items[k.value := turn.items[k.value].(updatedAt := at)])
    else turn.(items := turn.items
               + [Item(ItemId(turn.id, Thinking, |turn.items|), Thinking, Active, "Thinking", at, at, None, None)])
  }

  function EndThinking(turn: Turn, at: int): Turn {
    var k := LatestThinking(turn.items);
    if k.Some? then turn.(items := turn.items[k.value := turn.items[k.value].(status := Completed, updatedAt := at)])
    else turn
  }

  /** An empty call id counts as none. */
  predicate Named(toolCallId: Option<string>) {
    toolCallId.Some? && toolCallId.value != ""
  }

  predicate IsTheTool(item: Item, contentIndex: Option<int>, toolCallId: Option<string>) {
    item.kind == Tool
    && (if Named(toolCallId) then item.toolCallId == toolCallId
        else contentIndex.Some? && item.contentIndex == contentIndex)
  }

  function FindTool(items: seq<Item>, contentIndex: Option<int>, toolCallId: Option<string>): (k: Option<nat>)
    ensures k.Some? ==> k.value < |items| && IsTheTool(items[k.value], contentIndex, toolCallId)
                        && forall j :: 0 <= j < k.value ==> !IsTheTool(items[j], contentIndex, toolCallId)
    ensures k.None? ==> forall item <- items :: !IsTheTool(item, contentIndex, toolCallId)
  {
    if items == [] then None
    else if IsTheTool(items[0], contentIndex, toolCallId) then Some(0)
    else
      var rest := FindTool(items[1..], contentIndex, toolCallId);
      if rest.Some? then Some(rest.value + 1) else None
  }

  datatype ToolInput = ToolInput(title: string, status: ItemStatus, contentIndex: Option<int>,
                                 toolCallId: Option<string>)

  function Or<T>(a: Option<T>, b: Option<T>): Option<T> {
    if a.Some? then a else b
  }

  function UpsertTool(turn: Turn, input: ToolInput, at: int): Turn {
    var k := FindTool(turn.items, input.contentIndex, input.toolCallId);
    if k.Some? then
      var item := turn.items[k.value];
      turn.(items := turn.items[k.value := item.(
        title := if input.title != "" then input.title else item.title, status := input.status, updatedAt := at,
        contentIndex := Or(item.contentIndex, input.contentIndex),
        toolCallId := Or(item.toolCallId, input.toolCallId))])
    else
      turn.(items := turn.items + [Item(ItemId(turn.id, Tool, |turn.items|), Tool, input.status,
                                        if input.title != "" then input.title
                                        else "Tool call", at, at, input.contentIndex, input.toolCallId)])
  }

  function ClosedStatus(status: TurnStatus): ItemStatus {
    match status
    case Done => Completed
    case Failed => Error
    case _ => Stopped
  }

  function CloseItem(item: Item, status: TurnStatus, at: int): Item {
    if item.status == Active then item.(status := ClosedStatus(status), updatedAt := at) else item
  }

  function CloseItems(items: seq<Item>, status: TurnStatus, at: int): seq<Item> {
    seq(|items|, k requires 0 <= k < |items| => CloseItem(items[k], status, at))
  }

  // ---------------------------------------------------------------- the turns

  function FindTurn(turns: seq<Turn>, id: Option<TurnId>): (k: Option<nat>)
    ensures k.Some? ==>
            k.value < |turns| && Some(turns[k.value].id) == id
            && forall j :: 0 <= j < k.value ==> Some(turns[j].id) != id
    ensures k.None? ==> forall turn <- turns :: Some(turn.id) != id
  {
    if turns == [] then None
    else if Some(turns[0].id) == id then Some(0)
    else
      var rest := FindTurn(turns[1..], id);
      if rest.Some? then Some(rest.value + 1) else None
  }

  /** The last twenty. */
  function Trimmed(turns: seq<Turn>): seq<Turn> {
    if |turns| > MAX_ACTIVITY_TURNS then turns[|turns| - MAX_ACTIVITY_TURNS..] else turns
  }

  predicate HasActive(a: Activity) {
    var k := FindTurn(a.turns, a.activeId);
    k.Some? && a.turns[k.value].status == InProgress
  }

  function EnsureTurn(a: Activity, at: int): Activity {
    if HasActive(a) then a
    else
      var id := TurnId(at, a.sequence + 1);
      Activity(Trimmed(a.turns + [Turn(id, InProgress, at, None, [])]), Some(id), a.sequence + 1)
  }

  /** The turn has ended, and it neither started nor ended before; a missing end counts as long ago. */
  predicate EndedSince(turn: Turn, since: int) {
    && turn.status != InProgress && since <= turn.startedAt
    && match turn.completedAt
       case Some(at) => since <= at
       case None => since <= 0
  }

  /** The turn a failure without an active turn is charged to: the last one that ended since the request started. */
  function LastEndedSince(turns: seq<Turn>, since: int): (k: Option<nat>)
    ensures k.Some? ==> k.value < |turns| && EndedSince(turns[k.value], since)
                        && forall j :: k.value < j < |turns| ==> !EndedSince(turns[j], since)
    ensures k.None? ==> forall turn <- turns :: !EndedSince(turn, since)
  {
    if turns == [] then None
    else
      var last := turns[|turns| - 1];
      if last.status != InProgress && last.startedAt >= since && last.completedAt.GetOr(0) >= since
        then Some(|turns| - 1)
      else LastEndedSince(turns[..|turns| - 1], since)
  }

  function Close(turn: Turn, status: TurnStatus, at: int): Turn {
    turn.(status := status, completedAt := Some(at), items := CloseItems(turn.items, status, at))
  }

  function Finalize(a: Activity, status: TurnStatus, at: int, startedAt: int): Activity {
    var since := if startedAt <= at then startedAt else at;
    var k := FindTurn(a.turns, a.activeId);
    if k.Some? then a.(turns := a.turns[k.value := Close(a.turns[k.value], status, at)], activeId := None)
    else if status != Failed then a.(activeId := None)
    else
      var ended := LastEndedSince(a.turns, since);
      if ended.Some? then a.(turns := a.turns[ended.value := Close(a.turns[ended.value], status, at)], activeId := None)
      else
        var turn := Turn(TurnId(since, a.sequence + 1), Failed, since, Some(at), []);
        Activity(Trimmed(a.turns + [turn]), None, a.sequence + 1)
  }

  function KeptBefore(turns: seq<Turn>, timestamp: int): seq<Turn> {
    if turns == [] then []
    else KeptBefore(turns[..|turns| - 1], timestamp)
         + if turns[|turns| - 1].completedAt.GetOr(turns[|turns| - 1].startedAt) < timestamp then [turns[|turns| - 1]]
           else []
  }

  function KeepBefore(a: Activity, timestamp: int): Activity {
    var turns := KeptBefore(a.turns, timestamp);
    a.(turns := turns, activeId := if FindTurn(turns, a.activeId).Some? then a.activeId else None)
  }

  /** `f` applied to the turn that is active, after one has been made if need be. */
  function OnActive(a: Activity, at: int, f: Turn -> Turn): Activity {
    var b := EnsureTurn(a, at);
    var k := FindTurn(b.turns, b.activeId);
    if k.Some? then b.(turns := b.turns[k.value := f(b.turns[k.value])]) else b
  }

  datatype Event =
    | Begin
    | Think
    | UseTool(input: ToolInput)                    // a tool call, its execution, or a provider retry
    | MessageEnd
    | End(status: TurnStatus, startedAt: int)      // agent_end, a stop, a failed prompt
    | Rewind(timestamp: int)                       // the chat is cut at a message
    | Clear

  function Record(a: Activity, e: Event, at: int): Activity {
    match e
    case Begin => EnsureTurn(a, at)
    case Think => OnActive(a, at, turn => UpsertThinking(turn, at))
    case UseTool(input) => OnActive(a, at, turn => UpsertTool(turn, input, at))
    case MessageEnd => OnActive(a, at, turn => EndThinking(turn, at))
    case End(status, startedAt) => if status == InProgress then a else Finalize(a, status, at, startedAt)
    case Rewind(timestamp) => KeepBefore(a, timestamp)
    case Clear => a.(turns := [], activeId := None)
  }

  // ---------------------------------------------------------------- the mutable log

  class ActivityLog {
    var turns: seq<Turn>
    var activeId: Option<TurnId>
    var sequence: nat

    ghost function Abs(): Activity
      reads this
    {
      Activity(turns, activeId, sequence)
    }

    constructor ()
      ensures Abs() == NOTHING
    {
      turns, activeId, sequence := [], None, 0;
    }

    method EnsureActivityTurn(at: int)
      modifies this
      ensures Abs() == EnsureTurn(old(Abs()), at)
    {
      var existing := FindTurn(turns, activeId);
      if existing.Some? && turns[existing.value].status == InProgress { return; }
      sequence := sequence + 1;
      var turn := Turn(TurnId(at, sequence), InProgress, at, None, []);
      turns := turns + [turn];
      activeId := Some(turn.id);
      if |turns| > MAX_ACTIVITY_TURNS {
        turns := turns[|turns| - MAX_ACTIVITY_TURNS..];
      }
    }

    /** The loop that closes every item still active. */
    method CloseTurn(k: nat, status: TurnStatus, at: int)
      requires k < |turns|
      modifies this`turns
      ensures turns == old(turns)[k := Close(old(turns)[k], status, at)]
    {
      var items := turns[k].items;
      for i := 0 to |items|
        invariant |items| == |old(turns)[k].items|
        invariant forall j :: 0 <= j < |items| ==>
          items[j] == if j < i then CloseItem(old(turns)[k].items[j], status, at) else old(turns)[k].items[j]
      {
        if items[i].status == Active {
          items := items[i := items[i].(status := ClosedStatus(status), updatedAt := at)];
        }
      }
      assert items == CloseItems(old(turns)[k].items, status, at);
      turns := turns[k := turns[k].(status := status, completedAt := Some(at), items := items)];
    }

    method FinalizeTurn(status: TurnStatus, at: int, startedAt: int)
      modifies this
      ensures Abs() == Finalize(old(Abs()), status, at, startedAt)
    {
      hide CloseItems;
      var since := if startedAt <= at then startedAt else at;
      var found := FindTurn(turns, activeId);
      if found.None? {
        activeId := None;
        if status != Failed { return; }
        found := LastEndedSince(turns, since);
        if found.None? {
          sequence := sequence + 1;
          turns := turns + [Turn(TurnId(since, sequence), Failed, since, Some(at), [])];
          if |turns| > MAX_ACTIVITY_TURNS {
            turns := turns[|turns| - MAX_ACTIVITY_TURNS..];
          }
          NewTurnIsClosed(since, sequence, at);
          return;
        }
      }
      CloseTurn(found.value, status, at);
      activeId := None;
    }

    method UpdateActive(at: int, f: Turn -> Turn)
      modifies this
      ensures Abs() == OnActive(old(Abs()), at, f)
    {
      EnsureActivityTurn(at);
      var k := FindTurn(turns, activeId);
      if k.Some? {
        turns := turns[k.value := f(turns[k.value])];
      }
    }
  }

  lemma NewTurnIsClosed(since: int, sequence: nat, at: int)
    ensures var turn := Turn(TurnId(since, sequence), Failed, since, Some(at), []);
            Close(turn, Failed, at) == turn
  {
  }
}
