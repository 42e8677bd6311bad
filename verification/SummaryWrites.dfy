/**
 * The write chain of the activity summary (ButlerActivitySummaryState in butler-activity-summary-state.ts): each
 * save copies the turns as they are and hangs its write on the promise of the save before it. The turns and their items
 * are objects that others hold and edit in place; only because a save copies every one of them does its write, which
 * comes later, write what was there when it was called.
 */
module SummaryWrites {
  import opened Options

  datatype Progress = Queued | Writing | Written | Broken

  /** One call of save(): the copy it took, the save it waits for, and how far its write is. */
  datatype Save<T> = Save(snapshot: T, after: Option<nat>, progress: Progress)

  datatype Chain<T> = Chain(turns: T, saves: seq<Save<T>>, saveTail: Option<nat>, file: T)

  datatype Event<T> =
    | Edit(turns: T)
    | RequestSave
    | BeginWrite(id: nat)
    | EndWrite(id: nat, ok: bool)

  predicate Settled<T>(s: Save<T>) {
    s.progress == Written || s.progress == Broken
  }

  predicate Enabled<T>(c: Chain<T>, e: Event<T>) {
    match e
    case BeginWrite(id) => id < |c.saves| && c.saves[id].progress == Queued
                           && (c.saves[id].after.Some? ==>
                               c.saves[id].after.value < |c.saves|
                               && Settled(c.saves[c.saves[id].after.value]))
    case EndWrite(id, _) => id < |c.saves| && c.saves[id].progress == Writing
    case _ => true
  }

  /**
   * A write that succeeds replaces the file; one that fails leaves it (the writer renames a finished file into place).
   */
  function Next<T>(c: Chain<T>, e: Event<T>): Chain<T>
    requires Enabled(c, e)
  {
    match e
    case Edit(turns) => c.(turns := turns)
    case RequestSave => c.(saves := c.saves + [Save(c.turns, c.saveTail, Queued)], saveTail := Some(|c.saves|))
    case BeginWrite(id) => c.(saves := c.saves[id := c.saves[id].(progress := Writing)])
    case EndWrite(id, ok) =>
      c.(saves := c.saves[id := c.saves[id].(progress := if ok then Written else Broken)],
         file := if ok then c.saves[id].snapshot else c.file)
  }

  predicate Legal<T>(c: Chain<T>, es: seq<Event<T>>)
    decreases |es|
  {
    es == [] || (Enabled(c, es[0]) && Legal(Next(c, es[0]), es[1..]))
  }

  function Run<T>(c: Chain<T>, es: seq<Event<T>>): Chain<T>
    requires Legal(c, es)
    decreases |es|
  {
    if es == [] then c else Run(Next(c, es[0]), es[1..])
  }

  function Fresh<T>(turns: T, file: T): Chain<T> {
    Chain(turns, [], None, file)
  }

  // ---------------------------------------------------------------- the objects

  class ActivityItem {
    var text: string

    constructor (text: string)
      ensures this.text == text
    {
      this.text := text;
    }
  }

  class ActivityTurn {
    var id: string
    var status: string
    var items: seq<ActivityItem>

    constructor (id: string, status: string, items: seq<ActivityItem>)
      ensures this.id == id && this.status == status && this.items == items
    {
      this.id, this.status, this.items := id, status, items;
    }
  }

  /** What a turn says, apart from the objects that say it. */
  datatype TurnView = TurnView(id: string, status: string, items: seq<string>)

  /** All the objects that the turns consist of are in `repr`. */
  ghost predicate Within(turns: seq<ActivityTurn>, repr: set<object>)
    reads turns
  {
    forall t <- turns :: t in repr && forall i <- t.items :: i in repr
  }

  /** The objects that the turns consist of, and no others. */
  ghost function Objects(turns: seq<ActivityTurn>): (repr: set<object>)
    reads turns
    ensures Within(turns, repr)
  {
    (set t: ActivityTurn | t in turns :: t as object)
      + (set t: ActivityTurn, i: ActivityItem | t in turns && i in t.items :: i as object)
  }

  ghost function ItemTexts(items: seq<ActivityItem>, repr: set<object>): seq<string>
    requires forall i <- items :: i in repr
    reads repr
  {
    seq(|items|, k requires 0 <= k < |items| && items[k] in repr reads repr => items[k].text)
  }

  ghost function ViewOf(t: ActivityTurn, repr: set<object>): TurnView
    requires t in repr && forall i <- t.items :: i in repr
    reads repr
  {
    TurnView(t.id, t.status, ItemTexts(t.items, repr))
  }

  ghost function View(turns: seq<ActivityTurn>, repr: set<object>): (v: seq<TurnView>)
    requires Within(turns, repr)
    reads repr
    ensures |v| == |turns| && forall k :: 0 <= k < |turns| ==> v[k] == ViewOf(turns[k], repr)
  {
    seq(|turns|, k requires 0 <= k < |turns| && Within(turns, repr) reads repr => ViewOf(turns[k], repr))
  }

  ghost predicate SnapshotsWithin(saves: seq<Save<seq<ActivityTurn>>>, repr: set<object>)
    reads repr
  {
    forall save <- saves :: (forall t <- save.snapshot :: t in repr) && Within(save.snapshot, repr)
  }

  /** The saves with what their copies say at present. */
  ghost function SavesView(saves: seq<Save<seq<ActivityTurn>>>, repr: set<object>): (v: seq<Save<seq<TurnView>>>)
    requires SnapshotsWithin(saves, repr)
    reads repr
    ensures |v| == |saves|
    ensures forall k ::
            0 <= k < |saves|
            ==> v[k] == Save(View(saves[k].snapshot, repr), saves[k].after, saves[k].progress)
  {
    seq(|saves|, k requires 0 <= k < |saves| && SnapshotsWithin(saves, repr) reads repr =>
      Save(View(saves[k].snapshot, repr), saves[k].after, saves[k].progress))
  }

  /** cloneTurns, for one turn: a new turn with new items that say the same. */
  method CloneTurn(turn: ActivityTurn) returns (copy: ActivityTurn)
    ensures fresh(copy) && forall i <- copy.items :: fresh(i)
    ensures copy.id == turn.id && copy.status == turn.status && |copy.items| == |turn.items|
    ensures forall k :: 0 <= k < |copy.items| ==> copy.items[k].text == turn.items[k].text
  {
    var items: seq<ActivityItem> := [];
    for k := 0 to |turn.items|
      invariant |items| == k && forall i <- items :: fresh(i)
      invariant forall n :: 0 <= n < k ==> items[n].text == turn.items[n].text
    {
      var item := new ActivityItem(turn.items[k].text);
      items := items + [item];
    }
    copy := new ActivityTurn(turn.id, turn.status, items);
  }

  /** cloneTurns: every turn and every item is copied. */
  method CloneTurns(turns: seq<ActivityTurn>) returns (copies: seq<ActivityTurn>)
    ensures fresh(Objects(copies))
    ensures View(copies, Objects(copies)) == View(turns, Objects(turns))
  {
    hide View, Objects;
    copies := [];
    ghost var repr, made: set<object> := Objects(turns), {};
    for k := 0 to |turns|
      invariant fresh(made) && |copies| == k && Within(copies, made)
      invariant forall n :: 0 <= n < k ==> ViewOf(copies[n], made) == ViewOf(turns[n], repr)
    {
      ghost var before := made;
      var copy := CloneTurn(turns[k]);
      ghost var more: set<object> := {copy} + set i | i in copy.items :: i as object;
      assert ItemTexts(copy.items, before + more) == ItemTexts(turns[k].items, repr);
      forall n | 0 <= n < k ensures ViewOf(copies[n], before + more) == ViewOf(copies[n], before) {
        assert copies[n] in copies;
        assert ItemTexts(copies[n].items, before + more) == ItemTexts(copies[n].items, before);
      }
      copies := copies + [copy];
      made := before + more;
    }
    assert View(copies, made) == View(turns, repr);
    SameView(copies, Objects(copies), made);
  }

  /** What the writer puts into the file. */
  method Serialize(turns: seq<ActivityTurn>) returns (v: seq<TurnView>)
    ensures v == View(turns, Objects(turns))
  {
    hide View, Objects;
    v := [];
    for k := 0 to |turns|
      invariant |v| == k && forall n :: 0 <= n < k ==> v[n] == ViewOf(turns[n], Objects(turns))
    {
      var texts: seq<string> := [];
      for n := 0 to |turns[k].items|
        invariant |texts| == n && forall m :: 0 <= m < n ==> texts[m] == turns[k].items[m].text
      {
        texts := texts + [turns[k].items[n].text];
      }
      assert texts == ItemTexts(turns[k].items, Objects(turns));
      v := v + [TurnView(turns[k].id, turns[k].status, texts)];
    }
  }

  /** What turns say does not depend on the set their objects are known to be in. */
  lemma SameView(turns: seq<ActivityTurn>, repr: set<object>, more: set<object>)
    requires Within(turns, repr) && Within(turns, more)
    ensures View(turns, more) == View(turns, repr)
    ensures Objects(turns) <= more
  {
    hide View;
    forall k | 0 <= k < |turns| ensures ViewOf(turns[k], more) == ViewOf(turns[k], repr) {
      assert ItemTexts(turns[k].items, more) == ItemTexts(turns[k].items, repr);
    }
  }

  lemma SameCopies(saves: seq<Save<seq<ActivityTurn>>>, repr: set<object>, more: set<object>)
    requires SnapshotsWithin(saves, repr) && repr <= more
    ensures SnapshotsWithin(saves, more) && SavesView(saves, more) == SavesView(saves, repr)
  {
    hide View;
    forall k | 0 <= k < |saves| ensures Within(saves[k].snapshot, more)
      && View(saves[k].snapshot, more) == View(saves[k].snapshot, repr) {
      SameView(saves[k].snapshot, repr, more);
    }
  }

  lemma OneMoreSave(saves: seq<Save<seq<ActivityTurn>>>, repr: set<object>, save: Save<seq<ActivityTurn>>,
                    made: set<object>)
    requires SnapshotsWithin(saves, repr) && Within(save.snapshot, made)
    ensures SnapshotsWithin(saves + [save], repr + made)
    ensures SavesView(saves + [save], repr + made)
         == SavesView(saves, repr) + [Save(View(save.snapshot, made), save.after, save.progress)]
  {
    hide View;
    SameCopies(saves, repr, repr + made);
    SameView(save.snapshot, made, repr + made);
  }

  lemma SaveMovesOn(saves: seq<Save<seq<ActivityTurn>>>, id: nat, progress: Progress, repr: set<object>)
    requires SnapshotsWithin(saves, repr) && id < |saves|
    ensures var after := saves[id := saves[id].(progress := progress)];
            && SnapshotsWithin(after, repr)
            && SavesView(after, repr) == SavesView(saves, repr)[id := SavesView(saves, repr)[id].(progress := progress)]
  {
    hide View, Within;
    var after := saves[id := saves[id].(progress := progress)];
    forall save | save in after ensures (forall t <- save.snapshot :: t in repr) && Within(save.snapshot, repr) {
      assert save in saves || save.snapshot == saves[id].snapshot;
    }
  }

  // ---------------------------------------------------------------- the state

  class ActivitySummaryState {
    var turns: seq<ActivityTurn>
    var saves: seq<Save<seq<ActivityTurn>>>
    var saveTail: Option<nat>
    var file: seq<TurnView>
    ghost var live: set<object>      // the objects of the turns, and whatever else may come to be part of them
    ghost var copied: set<object>    // the objects that saves have made for themselves

    ghost predicate Valid()
      reads this, live, copied
    {
      && this !in live && this !in copied && live !! copied
      && (forall t <- turns :: t in live) && Within(turns, live)
      && SnapshotsWithin(saves, copied)
    }

    ghost function Abs(): Chain<seq<TurnView>>
      requires Valid()
      reads this, live, copied
    {
      Chain(View(turns, live), SavesView(saves, copied), saveTail, file)
    }

    constructor (turns: seq<ActivityTurn>, file: seq<TurnView>)
      ensures Valid() && live == Objects(turns) && copied == {} && Abs() == Fresh(View(turns, Objects(turns)), file)
    {
      this.turns, this.saves, this.saveTail, this.file := turns, [], None, file;
      live, copied := Objects(turns), {};
      new;
      assert SavesView(saves, copied) == [];
    }

    /** save(): the copy is made at once, the write is left to the chain. */
    method SaveTurns()
      requires Valid()
      modifies this
      ensures Valid() && live == old(live) && turns == old(turns) && copied >= old(copied)
              && fresh(copied - old(copied))
      ensures Abs() == Next(old(Abs()), RequestSave)
    {
      hide View, SavesView, Objects, Within, SnapshotsWithin;
      var snapshot := CloneTurns(turns);
      SameView(turns, Objects(turns), live);
      var save := Save(snapshot, saveTail, Queued);
      OneMoreSave(saves, copied, save, Objects(snapshot));
      saveTail := Some(|saves|);
      saves := saves + [save];
      copied := copied + Objects(snapshot);
    }

    /** The array is refilled, with objects that no save has made. */
    method Splice(next: seq<ActivityTurn>)
      requires Valid() && this !in Objects(next) && Objects(next) !! copied
      modifies this`turns, this`live
      ensures Valid() && turns == next && live == old(live) + Objects(next) && copied == old(copied)
      ensures Abs() == Next(old(Abs()), Edit(View(next, Objects(next))))
    {
      hide View, Objects;
      turns := next;
      live := live + Objects(next);
      SameView(next, Objects(next), live);
    }

    /** persistTurn: `next` are the stored turns with the given one put in its place (see ActivityTurns.dfy). */
    method PersistTurn(next: seq<ActivityTurn>)
      requires Valid() && this !in Objects(next) && Objects(next) !! copied
      modifies this
      ensures Valid() && turns == next
      ensures Abs() == Next(Next(old(Abs()), Edit(old(View(next, Objects(next))))), RequestSave)
    {
      hide View, SavesView, Objects;
      Splice(next);
      assert Objects(next) == old(Objects(next)) && View(next, Objects(next)) == old(View(next, Objects(next)));
      SaveTurns();
    }

    /** Somebody edits an item in place: the turns may say something else now, but no save does. */
    method EditItem(item: ActivityItem, text: string)
      requires Valid() && item in live
      modifies item
      ensures Valid() && item.text == text
      ensures Abs() == Next(old(Abs()), Edit(View(turns, live)))
    {
      item.text := text;
    }

    /** Somebody edits a turn in place, or changes which of the live items it has. */
    method EditTurn(turn: ActivityTurn, status: string, items: seq<ActivityItem>)
      requires Valid() && turn in live && forall i <- items :: i in live
      modifies turn
      ensures Valid() && turn.status == status && turn.items == items
      ensures Abs() == Next(old(Abs()), Edit(View(turns, live)))
    {
      turn.status := status;
      turn.items := items;
    }

    method BeginWriting(id: nat)
      requires Valid() && Enabled(Abs(), BeginWrite(id))
      modifies this`saves
      ensures Valid() && Abs() == Next(old(Abs()), BeginWrite(id))
    {
      hide View, SavesView, Within, SnapshotsWithin;
      SaveMovesOn(saves, id, Writing, copied);
      saves := saves[id := saves[id].(progress := Writing)];
    }

    /** The write ends. If it succeeded, the file says what the objects of the save's own copy say. */
    method EndWriting(id: nat, ok: bool)
      requires Valid() && Enabled(Abs(), EndWrite(id, ok))
      modifies this`saves, this`file
      ensures Valid() && Abs() == Next(old(Abs()), EndWrite(id, ok))
    {
      hide View, SavesView, Within, SnapshotsWithin, Objects;
      SaveMovesOn(saves, id, if ok then Progress.Written else Broken, copied);
      if ok { file := WriteCopy(id); }
      saves := saves[id := saves[id].(progress := if ok then Progress.Written else Broken)];
    }

    /** The writer is given the save's own copy. */
    method WriteCopy(id: nat) returns (written: seq<TurnView>)
      requires Valid() && id < |saves|
      ensures written == SavesView(saves, copied)[id].snapshot
    {
      hide View, Objects;
      assert saves[id] in saves;
      written := Serialize(saves[id].snapshot);
      SameView(saves[id].snapshot, Objects(saves[id].snapshot), copied);
    }
  }

  // ---------------------------------------------------------------- theorems

  /** Saves wait for the save before them, so all before one that has begun are settled. */
  ghost predicate Sound<T>(c: Chain<T>, first: T) {
    && c.saveTail == (if c.saves == [] then None else Some(|c.saves| - 1))
    && (forall i :: 0 <= i < |c.saves| ==> c.saves[i].after == if i == 0 then None else Some(i - 1))
    && (forall i, j :: 0 <= i < j < |c.saves| && c.saves[j].progress != Queued ==> Settled(c.saves[i]))
    && c.file == LastWritten(c.saves, first)
  }

  /** What the latest successful write wrote. */
  function LastWritten<T>(saves: seq<Save<T>>, first: T): T {
    if saves == [] then first
    else if saves[|saves| - 1].progress == Written then saves[|saves| - 1].snapshot
    else LastWritten(saves[..|saves| - 1], first)
  }

  lemma {:induction false} UnwrittenTail<T>(saves: seq<Save<T>>, id: nat, first: T)
    requires id <= |saves| && forall j :: id <= j < |saves| ==> saves[j].progress != Written
    ensures LastWritten(saves, first) == LastWritten(saves[..id], first)
  {
    if id == |saves| {
      assert saves[..id] == saves;
    } else {
      UnwrittenTail(saves[..|saves| - 1], id, first);
      assert saves[..|saves| - 1][..id] == saves[..id];
    }
  }

  lemma BeginKeepsFile<T>(saves: seq<Save<T>>, id: nat, first: T)
    requires id < |saves| && saves[id].progress == Queued
    requires forall j :: id < j < |saves| ==> saves[j].progress == Queued
    ensures LastWritten(saves[id := saves[id].(progress := Writing)], first) == LastWritten(saves, first)
  {
    var after := saves[id := saves[id].(progress := Writing)];
    UnwrittenTail(saves, id, first);
    UnwrittenTail(after, id, first);
    assert after[..id] == saves[..id];
  }

  lemma EndWritesFile<T>(saves: seq<Save<T>>, id: nat, ok: bool, first: T)
    requires id < |saves| && saves[id].progress == Writing
    requires forall j :: id < j < |saves| ==> saves[j].progress == Queued
    ensures LastWritten(saves[id := saves[id].(progress := if ok then Written else Broken)], first)
         == if ok then saves[id].snapshot else LastWritten(saves, first)
  {
    var after := saves[id := saves[id].(progress := if ok then Written else Broken)];
    UnwrittenTail(saves, id, first);
    assert after[..id] == saves[..id];
    if ok {
      UnwrittenTail(after, id + 1, first);
      assert after[..id + 1][|after[..id + 1]| - 1] == after[id];
    } else {
      UnwrittenTail(after, id, first);
    }
  }

  lemma StepKeepsSound<T>(c: Chain<T>, e: Event<T>, first: T)
    requires Sound(c, first) && Enabled(c, e)
    ensures Sound(Next(c, e), first)
    ensures |c.saves| <= |Next(c, e).saves|
            && forall i :: 0 <= i < |c.saves| ==> Next(c, e).saves[i].snapshot == c.saves[i].snapshot
  {
    hide LastWritten;
    match e {
      case Edit(_) =>
      case RequestSave =>
        NewSaveKeepsFile(c.saves, Save(c.turns, c.saveTail, Queued), first);
      case BeginWrite(id) =>
        assert c.saves[id].after == if id == 0 then None else Some(id - 1);
        BeginKeepsFile(c.saves, id, first);
      case EndWrite(id, ok) =>
        forall j | id < j < |c.saves| ensures c.saves[j].progress == Queued { }
        EndWritesFile(c.saves, id, ok, first);
    }
  }

  lemma NewSaveKeepsFile<T>(saves: seq<Save<T>>, save: Save<T>, first: T)
    requires save.progress == Queued
    ensures LastWritten(saves + [save], first) == LastWritten(saves, first)
  {
    assert (saves + [save])[..|saves|] == saves;
  }

  lemma {:induction false} RunKeepsSound<T>(c: Chain<T>, es: seq<Event<T>>, first: T)
    requires Sound(c, first) && Legal(c, es)
    ensures Sound(Run(c, es), first)
    ensures |c.saves| <= |Run(c, es).saves|
            && forall i :: 0 <= i < |c.saves| ==> Run(c, es).saves[i].snapshot == c.saves[i].snapshot
    decreases |es|
  {
    hide Sound, Next, Enabled;
    if es != [] {
      StepKeepsSound(c, es[0], first);
      RunKeepsSound(Next(c, es[0]), es[1..], first);
    }
  }

  /**
   * Writes happen one at a time in the order of the calls, whatever fails, and the file always holds what the
   * latest successful write wrote.
   */
  lemma WritesHappenInCallOrder<T>(turns: T, file: T, es: seq<Event<T>>)
    requires Legal(Fresh(turns, file), es)
    ensures var c := Run(Fresh(turns, file), es);
            && (forall i, j :: 0 <= i < j < |c.saves| && c.saves[j].progress != Queued ==> Settled(c.saves[i]))
            && c.file == LastWritten(c.saves, file)
  {
    hide Legal, Run;
    RunKeepsSound(Fresh(turns, file), es, file);
  }

  /** A failed write never stops a later one: as soon as the save before it is settled, a save may write. */
  lemma FailureStopsNothing<T>(turns: T, file: T, es: seq<Event<T>>, id: nat)
    requires Legal(Fresh(turns, file), es)
    requires var saves := Run(Fresh(turns, file), es).saves; id < |saves| && saves[id].progress == Queued
    ensures var c := Run(Fresh(turns, file), es);
            Enabled(c, BeginWrite(id)) <==> (id > 0 ==> Settled(c.saves[id - 1]))
  {
    hide Legal, Run;
    RunKeepsSound(Fresh(turns, file), es, file);
  }

  /** Every save writes the turns as they were when it was called, however they are edited before its write begins. */
  lemma EachSaveWritesItsOwnTurns<T>(c: Chain<T>, es: seq<Event<T>>, first: T)
    requires Sound(c, first) && Legal(c, [RequestSave] + es)
    ensures var later := Run(c, [RequestSave] + es);
            |c.saves| < |later.saves| && later.saves[|c.saves|].snapshot == c.turns
  {
    hide Sound;
    var all := [RequestSave] + es;
    assert all[1..] == es;
    StepKeepsSound(c, RequestSave, first);
    RunKeepsSound(Next(c, RequestSave), es, first);
  }

  /** Once all saves are settled and the last one succeeded, the file holds the last saved turns. */
  lemma LastSaveWins<T>(turns: T, file: T, es: seq<Event<T>>)
    requires Legal(Fresh(turns, file), es)
    requires var saves := Run(Fresh(turns, file), es).saves; saves != [] && saves[|saves| - 1].progress == Written
    ensures var c := Run(Fresh(turns, file), es);
            c.file == c.saves[|c.saves| - 1].snapshot && forall i :: 0 <= i < |c.saves| ==> Settled(c.saves[i])
  {
    hide Legal, Run;
    RunKeepsSound(Fresh(turns, file), es, file);
  }
}
