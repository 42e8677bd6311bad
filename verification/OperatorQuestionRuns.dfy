/**
 * Every life of a posted question: answers, retries, deliveries that succeed or fail, saves that fail, other
 * saves that slip in between, crashes and restarts.
 */
module OperatorQuestionRuns {
  import opened Options
  import opened Texts
  import opened OperatorQuestion

  // ---------------------------------------------------------------- what every reachable question satisfies

  predicate WellAnswered(item: Item) {
    && (item.selected.Some? ==>
        item.freeform.None? && item.selected.value != ""
        && Trim(item.selected.value) == item.selected.value
                                && item.selected.value in item.options)
    && (item.freeform.Some? ==>
        item.allowFreeform && item.freeform.value != ""
        && Trim(item.freeform.value) == item.freeform.value)
    && (item.answeredAt.Some? <==> item.selected.Some? || item.freeform.Some?)
  }

  predicate MirrorsFirst(q: Question) {
    q.questions != [] ==>
      && |q.questions| > 1
      && q.root.options == q.questions[0].options && q.root.allowFreeform == q.questions[0].allowFreeform
      && Mirror(q.root, q.questions[0]) == q.root
  }

  predicate DistinctIds(items: seq<Item>) {
    forall i, j :: 0 <= i < j < |items| ==> items[i].id != items[j].id
  }

  predicate Sound(q: Question) {
    && MirrorsFirst(q)
    && DistinctIds(ItemsOf(q))
    && (forall item <- ItemsOf(q) :: WellAnswered(item))
    && (q.delivery == Idle <==> !AllAnswered(ItemsOf(q)))
  }

  predicate SameKeys(a: seq<Item>, b: seq<Item>) {
    |a| == |b| && forall i ::
      0 <= i < |a|
      ==> a[i].id == b[i].id && a[i].options == b[i].options && a[i].allowFreeform == b[i].allowFreeform
  }

  lemma AnsweredIsStored(item: Item)
    requires WellAnswered(item)
    ensures IsAnswered(item) <==> item.selected.Some? || item.freeform.Some?
  {
    if item.freeform.Some? { BlankTexts(item.freeform.value); }
  }

  lemma FilledIsWellAnswered(item: Item, input: Input, now: int)
    requires Acceptable(item, input)
    ensures WellAnswered(Filled(item, input, now)) && IsAnswered(Filled(item, input, now))
  {
    hide Trim, Collapse;
    CompactTwice(input.optionId);
    TrimTwice(input.freeform);
    AnsweredIsStored(Filled(item, input, now));
  }

  lemma WithItemIsSound(q: Question, k: nat, item: Item, delivery: Delivery)
    requires Sound(q) && k < |ItemsOf(q)| && item.id == ItemsOf(q)[k].id && WellAnswered(item)
    requires item.options == ItemsOf(q)[k].options && item.allowFreeform == ItemsOf(q)[k].allowFreeform
    requires delivery == Idle <==> !AllAnswered(ItemsOf(WithItem(q, k, item)))
    ensures Sound(WithItem(q, k, item).(delivery := delivery))
    ensures ItemsOf(WithItem(q, k, item)) == ItemsOf(q)[k := item]
  {
    hide WellAnswered, IsAnswered;
    var items := ItemsOf(q);
    assert ItemsOf(WithItem(q, k, item)) == items[k := item];
    assert ItemsOf(WithItem(q, k, item).(delivery := delivery)) == items[k := item];
  }

  /** The answer is written: the item was open and the answer is one it allows. */
  predicate Writes(q: Question, input: Input, saved: bool) {
    var k := FindItem(ItemsOf(q), input.questionId);
    saved && k.Some? && Acceptable(ItemsOf(q)[k.value], input) && !IsAnswered(ItemsOf(q)[k.value])
  }

  lemma WrittenAnswer(q: Question, input: Input, now: int)
    requires Sound(q) && Writes(q, input, true)
    ensures var k := FindItem(ItemsOf(q), input.questionId).value;
            var after := Answer(q, input, true, now).question;
            Sound(after) && ItemsOf(after) == ItemsOf(q)[k := Filled(ItemsOf(q)[k], input, now)]
  {
    hide Sound, WellAnswered, IsAnswered, Acceptable, MatchesStored, WithItem, Filled, ItemsOf, FindItem;
    var k := FindItem(ItemsOf(q), input.questionId).value;
    var item := Filled(ItemsOf(q)[k], input, now);
    FilledIsWellAnswered(ItemsOf(q)[k], input, now);
    FilledKeepsKeys(ItemsOf(q)[k], input, now);
    var complete := AllAnswered(ItemsOf(WithItem(q, k, item)));
    WithItemIsSound(q, k, item, if complete then Pending else Idle);
    DeliveryKeepsItems(WithItem(q, k, item), if complete then Pending else Idle);
  }

  lemma DeliveryKeepsItems(q: Question, delivery: Delivery)
    ensures ItemsOf(q.(delivery := delivery)) == ItemsOf(q)
  {
  }

  lemma FilledKeepsKeys(item: Item, input: Input, now: int)
    ensures var filled := Filled(item, input, now);
            filled.id == item.id && filled.options == item.options && filled.allowFreeform == item.allowFreeform
  {
  }

  /** An answer that is not written leaves the question as it is, or hands a failed reply over again. */
  lemma UnwrittenAnswer(q: Question, input: Input, saved: bool, now: int)
    requires !Writes(q, input, saved)
    ensures var after := Answer(q, input, saved, now).question;
            after == q || (q.delivery.Failed? && after == q.(delivery := Pending))
  {
    hide Acceptable, MatchesStored, IsAnswered, WithItem, Filled, ItemsOf, FindItem;
  }

  /** An answer keeps the question sound and changes at most the one item it was given for. */
  lemma AnswerKeepsSound(q: Question, input: Input, saved: bool, now: int)
    requires Sound(q)
    ensures var after := Answer(q, input, saved, now).question;
            && Sound(after) && SameKeys(ItemsOf(q), ItemsOf(after))
            && forall i :: 0 <= i < |ItemsOf(q)| && IsAnswered(ItemsOf(q)[i]) ==> ItemsOf(after)[i] == ItemsOf(q)[i]
  {
    hide Sound, Answer, Acceptable, IsAnswered, Filled, ItemsOf, FindItem;
    if Writes(q, input, saved) {
      WrittenAnswer(q, input, now);
      FilledKeepsKeys(ItemsOf(q)[FindItem(ItemsOf(q), input.questionId).value], input, now);
    } else {
      UnwrittenAnswer(q, input, saved, now);
      if q.delivery.Failed? { DeliveryKeepsSound(q, Pending); }
    }
  }

  lemma DeliveryKeepsSound(q: Question, delivery: Delivery)
    requires Sound(q) && q.delivery != Idle && delivery != Idle
    ensures Sound(q.(delivery := delivery)) && ItemsOf(q.(delivery := delivery)) == ItemsOf(q)
  {
  }

  /**
   * What the operator may answer: one of the two, a choice that is offered, spaces aside, or a text of at most two
   * thousand characters where texts are allowed.
   */
  predicate IsAllowed(item: Item, input: Input) {
    var choice, text := Compact(input.optionId), Trim(input.freeform);
    || (choice != "" && text == "" && choice in item.options)
    || (choice == "" && text != "" && item.allowFreeform && |text| <= 2_000)
  }

  /**
   * An answer to an open item is taken if and only if it is allowed and can be saved. Then the item says just that, the
   * reply is handed over if nothing else is unanswered, and the caller is told so. Else the question is as it was, and
   * the caller is told that the answer was rejected, or that it could not be saved.
   */
  lemma AnswerIsTaken(q: Question, input: Input, saved: bool, now: int, k: nat)
    requires Sound(q) && FindItem(ItemsOf(q), input.questionId) == Some(k) && k < |ItemsOf(q)|
    requires !IsAnswered(ItemsOf(q)[k])
    ensures var item := ItemsOf(q)[k];
            var choice, text := Compact(input.optionId), Trim(input.freeform);
            var given := item.(selected := if choice == "" then None else Some(choice),
                               freeform := if text == "" then None else Some(text), answeredAt := Some(now));
            var after := Answer(q, input, saved, now);
            if !IsAllowed(item, input) then after == Outcome(q, Rejected)
            else if !saved then after == Outcome(q, SaveFailed)
            else
              && ItemsOf(after.question) == ItemsOf(q)[k := given]
              && var done := AllAnswered(ItemsOf(q)[k := given]);
                 after.reply == Answered(done, done) && after.question.delivery == if done then Pending else Idle
  {
    AllowedMeans(ItemsOf(q)[k], input);
    FilledSays(ItemsOf(q)[k], input, now);
    hide IsAnswered, WithItem, MatchesStored, AllAnswered, Sound, Acceptable, IsAllowed, Filled, FindItem;
    if IsAllowed(ItemsOf(q)[k], input) && saved {
      WrittenAnswer(q, input, now);
      DeliveryKeepsItems(WithItem(q, k, Filled(ItemsOf(q)[k], input, now)),
                         Answer(q, input, saved, now).question.delivery);
    }
  }

  lemma FilledSays(item: Item, input: Input, now: int)
    ensures var choice, text := Compact(input.optionId), Trim(input.freeform);
            Filled(item, input, now) == item.(selected := if choice == "" then None else Some(choice),
                                              freeform := if text == "" then None else Some(text),
                                              answeredAt := Some(now))
  {
    hide Compact, Trim;
  }

  /** The item was answered with just this, spaces aside. */
  predicate IsTheAnswer(item: Item, input: Input) {
    var choice, text := Compact(input.optionId), Trim(input.freeform);
    if choice != "" then item.selected == Some(choice)
    else text != "" && item.freeform.Some? && Compact(item.freeform.value) == Compact(text)
  }

  /**
   * An answer to an answered item is rejected if it is not allowed or another one. The same answer hands the reply over
   * again if and only if all is answered and the delivery has failed, and that can be saved; else it changes nothing.
   */
  lemma AnswerIsRepeated(q: Question, input: Input, saved: bool, now: int, k: nat)
    requires Sound(q) && FindItem(ItemsOf(q), input.questionId) == Some(k) && k < |ItemsOf(q)|
    requires IsAnswered(ItemsOf(q)[k])
    ensures var item := ItemsOf(q)[k];
            var after := Answer(q, input, saved, now);
            if !IsAllowed(item, input) || !IsTheAnswer(item, input) then after == Outcome(q, Rejected)
            else if AllAnswered(ItemsOf(q)) && q.delivery.Failed? then
              after == if saved then Outcome(q.(delivery := Pending), Answered(true, true)) else Outcome(q, SaveFailed)
            else after == Outcome(q, Answered(AllAnswered(ItemsOf(q)), false))
  {
    hide IsAnswered, WithItem, AllAnswered, MirrorsFirst, DistinctIds, WellAnswered, Acceptable, MatchesStored,
         IsAllowed,
         IsTheAnswer, Filled, FindItem;
    var item := ItemsOf(q)[k];
    assert item in ItemsOf(q);
    AllowedMeans(item, input);
    if IsAllowed(item, input) { TheAnswerMeans(item, input); }
  }

  lemma AllowedMeans(item: Item, input: Input)
    ensures Acceptable(item, input) <==> IsAllowed(item, input)
  {
    hide Compact, Trim;
  }

  lemma TheAnswerMeans(item: Item, input: Input)
    requires WellAnswered(item) && IsAllowed(item, input)
    ensures MatchesStored(item, input) <==> IsTheAnswer(item, input)
  {
    BlankTexts(input.freeform);
    BlankTexts(Trim(input.freeform));
    if item.freeform.Some? { BlankTexts(item.freeform.value); }
    hide Compact, Trim, Blank;
  }

  /** An answer to no item of the question is rejected. */
  lemma StrangeAnswerIsRejected(q: Question, input: Input, saved: bool, now: int)
    requires forall item <- ItemsOf(q) :: item.id != input.questionId
    ensures Answer(q, input, saved, now) == Outcome(q, Rejected)
  {
    hide IsAnswered, WithItem, AllAnswered, Acceptable, MatchesStored;
  }

  lemma FilledMatches(item: Item, input: Input, other: Input, now: int)
    requires Acceptable(item, input) && Acceptable(item, other)
    ensures MatchesStored(Filled(item, input, now), other)
            <==> OptionOf(other) == OptionOf(input)
                 && (OptionOf(input).None? ==> Compact(FreeformOf(other).value) == Compact(FreeformOf(input).value))
  {
    hide Trim, Collapse, Space;
    BlankTexts(input.freeform);
    BlankTexts(other.freeform);
    if FreeformOf(input).Some? { BlankTexts(Trim(input.freeform)); }
    if FreeformOf(other).Some? { BlankTexts(Trim(other.freeform)); }
  }

  /**
   * Answering a second time: the same answer, up to white space, is taken without changing anything or being handed
   * over again; any other is rejected.
   */
  lemma AnsweringTwice(q: Question, input: Input, other: Input, saved: bool, now: int, later: int)
    requires Sound(q) && Writes(q, input, true) && other.questionId == input.questionId
    requires Acceptable(ItemsOf(q)[FindItem(ItemsOf(q), input.questionId).value], other)
    ensures var after := Answer(q, input, true, now).question;
            var same := OptionOf(other) == OptionOf(input)
                        && (OptionOf(input).None? ==>
                            Compact(FreeformOf(other).value)
                            == Compact(FreeformOf(input).value));
            Answer(after, other, saved, later)
              == Outcome(after, if same then Answered(AllAnswered(ItemsOf(after)), false) else Rejected)
  {
    var items := ItemsOf(q);
    var k := FindItem(items, input.questionId).value;
    var after := Answer(q, input, true, now).question;
    WrittenAnswer(q, input, now);
    FilledIsWellAnswered(items[k], input, now);
    FilledKeepsKeys(items[k], input, now);
    FilledMatches(items[k], input, other, now);
    SameAcceptance(items[k], Filled(items[k], input, now), other);
    FoundAgain(items, k, Filled(items[k], input, now), input.questionId);
    NotFailed(q, input, now);
    hide Sound, Acceptable, MatchesStored, IsAnswered, Filled, ItemsOf, FindItem, WithItem, AllAnswered, OptionOf,
         FreeformOf;
    assert FindItem(ItemsOf(after), other.questionId) == Some(k);
    Repeated(after, other, saved, later, k);
  }

  lemma NotFailed(q: Question, input: Input, now: int)
    requires Writes(q, input, true)
    ensures !Answer(q, input, true, now).question.delivery.Failed?
  {
    hide Acceptable, IsAnswered, MatchesStored, WithItem, Filled;
  }

  lemma Repeated(q: Question, input: Input, saved: bool, now: int, k: nat)
    requires FindItem(ItemsOf(q), input.questionId) == Some(k) && k < |ItemsOf(q)| && !q.delivery.Failed?
    requires Acceptable(ItemsOf(q)[k], input) && IsAnswered(ItemsOf(q)[k])
    ensures Answer(q, input, saved, now)
         == Outcome(q, if MatchesStored(ItemsOf(q)[k], input) then Answered(AllAnswered(ItemsOf(q)), false)
                    else Rejected)
  {
    hide Acceptable, IsAnswered, MatchesStored, WithItem, Filled;
  }

  lemma SameAcceptance(a: Item, b: Item, input: Input)
    requires a.options == b.options && a.allowFreeform == b.allowFreeform
    ensures Acceptable(a, input) == Acceptable(b, input)
  {
  }

  lemma FoundAgain(items: seq<Item>, k: nat, item: Item, id: string)
    requires FindItem(items, id) == Some(k) && k < |items| && item.id == items[k].id
    ensures FindItem(items[k := item], id) == Some(k)
  {
    var after := items[k := item];
    assert after[k] in after;
  }

  // ---------------------------------------------------------------- posting and loading

  datatype Spec = Spec(options: seq<string>, allowFreeform: bool)

  /** buildQuestionItems and makeOperatorQuestion: at most three items, each under its own id. */
  function ItemId(groupId: string, count: nat, k: nat): string {
    if count == 1 then groupId else groupId + "-q" + Decimal(k + 1)
  }

  function NewItem(id: string, spec: Spec): Item {
    Item(id, spec.options, spec.allowFreeform, None, None, None)
  }

  /** Whether the items count as one is decided before the list is cut to three. */
  function NewQuestion(groupId: string, specs: seq<Spec>): Question
    requires specs != []
  {
    var shown := if |specs| > 3 then specs[..3] else specs;
    var items := seq(|shown|, k requires 0 <= k < |shown| => NewItem(ItemId(groupId, |specs|, k), shown[k]));
    if |items| == 1 then Question(items[0], [], Idle)
    else Question(NewItem(groupId, shown[0]), items, Idle)
  }

  lemma NewQuestionIsSound(groupId: string, specs: seq<Spec>)
    requires specs != []
    ensures Sound(NewQuestion(groupId, specs)) && 1 <= |ItemsOf(NewQuestion(groupId, specs))| <= 3
    ensures forall item <- ItemsOf(NewQuestion(groupId, specs)) :: !IsAnswered(item)
  {
    var items := ItemsOf(NewQuestion(groupId, specs));
    forall i, j | 0 <= i < j < |items| ensures items[i].id != items[j].id {
      if Decimal(i + 1) == Decimal(j + 1) { DecimalIsInjective(i + 1, j + 1); }
      assert items[i].id[|groupId| + 2..] == Decimal(i + 1) && items[j].id[|groupId| + 2..] == Decimal(j + 1);
    }
    assert !IsAnswered(items[0]);
  }

  function NormalizeItem(item: Item): Item {
    var selected := if item.selected.Some? && Trim(item.selected.value) != ""
      && Trim(item.selected.value) in item.options
                    then Some(Trim(item.selected.value)) else None;
    var freeform := if item.allowFreeform && item.freeform.Some? then NonEmpty(Trim(item.freeform.value)) else None;
    item.(selected := selected, freeform := if selected.Some? then None else freeform,
          answeredAt := if selected.Some? || freeform.Some? then item.answeredAt else None)
  }

  predicate StoredAnswer(item: Item) {
    item.selected.Some? || item.freeform.Some?
  }

  /** normalizeOperatorQuestion, for a question whose items all have a prompt, options and an id. */
  function Normalize(q: Question): Question {
    var root := NormalizeItem(q.root);
    var questions := if |q.questions| > 1
      then seq(|q.questions|, k requires 0 <= k < |q.questions| => NormalizeItem(q.questions[k])) else [];
    var items := if questions == [] then [root] else questions;
    Question(root, questions,
             if exists item <- items :: !StoredAnswer(item) then Idle
             else if q.delivery == Idle then Delivered
             else if q.delivery.Failed? && q.delivery.error.Some? then Failed(NonEmpty(Trim(q.delivery.error.value)))
             else q.delivery)
  }

  lemma NormalizeItemKeeps(item: Item)
    requires WellAnswered(item)
    ensures NormalizeItem(item) == item
  {
    hide Trim;
  }

  lemma RootIsWellAnswered(q: Question)
    requires Sound(q)
    ensures WellAnswered(q.root)
  {
    hide Trim;
    assert WellAnswered(ItemsOf(q)[0]);
  }

  /** Loading a sound question gives the same question back; only the wording of a failure may be tidied. */
  lemma NormalizeKeepsSound(q: Question)
    requires Sound(q)
    ensures Normalize(q).root == q.root && Normalize(q).questions == q.questions
    ensures Normalize(q).delivery == q.delivery || (q.delivery.Failed? && Normalize(q).delivery.Failed?)
    ensures Sound(Normalize(q))
  {
    hide Trim, Compact, WellAnswered, IsAnswered, NormalizeItem;
    RootIsWellAnswered(q);
    NormalizeItemKeeps(q.root);
    forall item | item in ItemsOf(q) ensures NormalizeItem(item) == item && (StoredAnswer(item) <==> IsAnswered(item)) {
      NormalizeItemKeeps(item);
      AnsweredIsStored(item);
    }
    forall item | item in q.questions ensures NormalizeItem(item) == item {
      assert item in ItemsOf(q);
    }
    if |q.questions| > 1 { assert Normalize(q).questions == q.questions; }
  }

  // ---------------------------------------------------------------- lives

  /** The question in memory and the question in the state file. */
  datatype Life = Life(mem: Question, disk: Question)

  datatype Event =
    | Accept(input: Input, saved: bool, leaked: bool, now: int)   // leaked: another save wrote the file before the undo
    | Deliver(delivered: bool, error: string, saved: bool)
    | SaveOther
    | Crash(delivered: bool)                                      // delivered: what recovery finds in the transcript

  function Next(l: Life, e: Event): Life {
    match e
    case Accept(input, saved, leaked, now) =>
      var mem := Answer(l.mem, input, saved, now).question;
      Life(mem, if saved && mem != l.mem then mem
                else if leaked then Answer(l.mem, input, true, now).question
                else l.disk)
    case Deliver(delivered, error, saved) =>
      var mem := Settle(l.mem, delivered, error);
      Life(mem, if saved && l.mem.delivery == Pending then mem else l.disk)
    case SaveOther => l.(disk := l.mem)
    case Crash(delivered) => l.(mem := Recover(Normalize(l.disk), delivered))
  }

  function After(l: Life, es: seq<Event>): Life
    decreases |es|
  {
    if es == [] then l else After(Next(l, es[0]), es[1..])
  }

  predicate SoundLife(l: Life) {
    Sound(l.mem) && Sound(l.disk) && SameKeys(ItemsOf(l.mem), ItemsOf(l.disk))
  }

  lemma StepKeepsSound(l: Life, e: Event)
    requires SoundLife(l)
    ensures SoundLife(Next(l, e))
  {
    hide Sound, ItemsOf, Answer, Normalize;
    match e {
      case Accept(input, saved, leaked, now) =>
        AnswerKeepsSound(l.mem, input, saved, now);
        AnswerKeepsSound(l.mem, input, true, now);
      case Deliver(delivered, error, saved) =>
        if l.mem.delivery == Pending { DeliveryKeepsSound(l.mem, Settle(l.mem, delivered, error).delivery); }
      case SaveOther =>
      case Crash(delivered) =>
        LoadKeepsItems(l.disk, delivered);
    }
  }

  lemma LoadKeepsItems(q: Question, delivered: bool)
    requires Sound(q)
    ensures Sound(Recover(Normalize(q), delivered)) && ItemsOf(Recover(Normalize(q), delivered)) == ItemsOf(q)
    ensures Recover(Normalize(q), delivered).delivery != Pending
    ensures q.delivery == Pending || q.delivery == Delivered ==>
              Recover(Normalize(q), delivered).delivery == Delivered
                || (q.delivery == Pending && Recover(Normalize(q), delivered).delivery.Failed?)
  {
    hide Sound, Normalize;
    NormalizeKeepsSound(q);
    var n := Normalize(q);
    if n.delivery == Pending { DeliveryKeepsSound(n, Recover(n, delivered).delivery); }
  }

  /**
   * In every life: delivery is idle exactly while some item is unanswered, the root repeats the first item, and
   * every stored answer is one the item allows. In memory and in the file.
   */
  lemma {:induction false} LifeStaysSound(l: Life, es: seq<Event>)
    requires SoundLife(l)
    ensures SoundLife(After(l, es)) && SameKeys(ItemsOf(l.mem), ItemsOf(After(l, es).mem))
    decreases |es|
  {
    hide Sound, Next, ItemsOf;
    if es != [] {
      StepKeepsSound(l, es[0]);
      StepKeepsKeys(l, es[0]);
      LifeStaysSound(Next(l, es[0]), es[1..]);
    }
  }

  lemma StepKeepsKeys(l: Life, e: Event)
    requires SoundLife(l)
    ensures SameKeys(ItemsOf(l.mem), ItemsOf(Next(l, e).mem))
  {
    hide Sound, Answer, Normalize;
    match e {
      case Accept(input, saved, leaked, now) => AnswerKeepsSound(l.mem, input, saved, now);
      case Crash(delivered) => LoadKeepsItems(l.disk, delivered);
      case _ =>
    }
  }

  // ---------------------------------------------------------------- accepted answers

  /** The answer to item `k` is in memory and in the file. */
  predicate Kept(l: Life, k: nat) {
    && k < |ItemsOf(l.mem)| && k < |ItemsOf(l.disk)|
    && IsAnswered(ItemsOf(l.mem)[k])
    && ItemsOf(l.disk)[k] == ItemsOf(l.mem)[k]
  }

  lemma StepKeepsAnswer(l: Life, e: Event, k: nat)
    requires SoundLife(l) && Kept(l, k)
    ensures Kept(Next(l, e), k) && ItemsOf(Next(l, e).mem)[k] == ItemsOf(l.mem)[k]
  {
    hide Sound, Answer, Normalize, IsAnswered;
    match e {
      case Accept(input, saved, leaked, now) =>
        AnswerKeepsSound(l.mem, input, saved, now);
        AnswerKeepsSound(l.mem, input, true, now);
      case Crash(delivered) => LoadKeepsItems(l.disk, delivered);
      case _ =>
    }
  }

  lemma {:induction false} KeptForGood(l: Life, es: seq<Event>, k: nat)
    requires SoundLife(l) && Kept(l, k)
    ensures SoundLife(After(l, es)) && Kept(After(l, es), k) && ItemsOf(After(l, es).mem)[k] == ItemsOf(l.mem)[k]
    decreases |es|
  {
    hide Next, SoundLife, Kept, ItemsOf;
    if es != [] {
      StepKeepsSound(l, es[0]);
      StepKeepsAnswer(l, es[0], k);
      KeptForGood(Next(l, es[0]), es[1..], k);
    }
  }

  /** The event answers item `k`, which had no answer, and the caller is told that it was accepted. */
  predicate AcceptsAnswer(l: Life, e: Event, k: nat) {
    && e.Accept? && Answer(l.mem, e.input, e.saved, e.now).reply.Answered?
    && FindItem(ItemsOf(l.mem), e.input.questionId) == Some(k)
    && !IsAnswered(ItemsOf(l.mem)[k])
  }

  /** Once accepted, an answer is what the operator gave, and nothing that happens later changes it. */
  lemma AcceptedAnswerNeverChanges(l: Life, e: Event, k: nat, es: seq<Event>)
    requires SoundLife(l) && AcceptsAnswer(l, e, k)
    ensures var later := After(Next(l, e), es);
            && k < |ItemsOf(later.mem)|
            && ItemsOf(later.mem)[k] == Filled(ItemsOf(l.mem)[k], e.input, e.now)
  {
    hide Next, SoundLife, Filled, AcceptsAnswer, IsAnswered, ItemsOf;
    StepKeepsSound(l, e);
    AcceptedIsKept(l, e, k);
    KeptForGood(Next(l, e), es, k);
  }

  lemma AcceptedIsKept(l: Life, e: Event, k: nat)
    requires SoundLife(l) && AcceptsAnswer(l, e, k)
    ensures Kept(Next(l, e), k) && ItemsOf(Next(l, e).mem)[k] == Filled(ItemsOf(l.mem)[k], e.input, e.now)
  {
    AcceptsWrites(l, e, k);
    hide Answer, WellAnswered, MatchesStored, Acceptable, IsAnswered, Filled, MirrorsFirst, ItemsOf, FindItem, Sound;
    WrittenAnswer(l.mem, e.input, e.now);
    FilledIsWellAnswered(ItemsOf(l.mem)[k], e.input, e.now);
    assert IsAnswered(ItemsOf(Next(l, e).mem)[k]);
  }

  lemma AcceptsWrites(l: Life, e: Event, k: nat)
    requires AcceptsAnswer(l, e, k)
    ensures e.saved && Writes(l.mem, e.input, true) && Acceptable(ItemsOf(l.mem)[k], e.input)
  {
    hide MatchesStored, Acceptable, IsAnswered, Filled, WithItem;
  }

  /**
   * An offered option can be chosen at all exactly when its id has no white space but single blanks: a choice is
   * compacted before it is looked up, while the id was only trimmed when it was made.
   */
  lemma ChoosableOptions(id: string)
    ensures (exists input :: OptionOf(input) == Some(id)) <==> Compact(id) == id && id != ""
  {
    hide Compact;
    assert OptionOf(Input("", id, "")) == NonEmpty(Compact(id));
    forall input | OptionOf(input) == Some(id) ensures Compact(id) == id && id != "" {
      CompactTwice(input.optionId);
    }
  }

  // ---------------------------------------------------------------- deliveries

  /**
   * What is reported about a pending delivery is what the question says afterwards, in memory and, if it could be
   * saved, in the file: delivered if it was, and else failed, for a reason that is never empty. At a restart the
   * transcript has the same say. A delivery that is not pending is left as it is.
   */
  lemma DeliveryIsAsReported(l: Life, delivered: bool, error: string, saved: bool)
    ensures var told := Next(l, Deliver(delivered, error, saved));
            && (l.mem.delivery == Pending ==>
                  && (told.mem.delivery == Delivered <==> delivered)
                  && (told.mem.delivery.Failed? <==> !delivered)
                  && (!delivered ==> told.mem.delivery.error.Some? && told.mem.delivery.error.value != "")
                  && (!delivered && Compact(error) != "" ==> told.mem.delivery.error == Some(Compact(error)))
                  && told.disk == if saved then told.mem else l.disk)
            && (l.mem.delivery != Pending ==> told == l)
            && told.mem.root == l.mem.root && told.mem.questions == l.mem.questions
    ensures var loaded, back := Normalize(l.disk), Next(l, Crash(delivered)).mem;
            && (loaded.delivery == Pending ==>
                  && (back.delivery == Delivered <==> delivered)
                  && (back.delivery.Failed? <==> !delivered)
                  && (!delivered ==> back.delivery.error.Some? && back.delivery.error.value != ""))
            && (loaded.delivery != Pending ==> back == loaded)
            && back.root == loaded.root && back.questions == loaded.questions
  {
    hide Normalize, Compact;
  }

  /** Memory knows that the reply was delivered, and no restart can find out otherwise. */
  predicate KnownDelivered(l: Life, es: seq<Event>) {
    && l.mem.delivery == Delivered
    && (l.disk.delivery == Delivered
        || (l.disk.delivery == Pending && forall e <- es :: e.Crash? ==> e.delivered))
  }

  lemma KnownDeliveredStays(l: Life, es: seq<Event>)
    requires SoundLife(l) && es != [] && KnownDelivered(l, es)
    ensures !Queues(l, es[0]) && KnownDelivered(Next(l, es[0]), es[1..])
  {
    hide WellAnswered, Acceptable, MatchesStored, IsAnswered, WithItem, MirrorsFirst, DistinctIds, Normalize, Filled;
    assert es[0] in es && forall e <- es[1..] :: e in es;
    match es[0] {
      case Crash(delivered) =>
        LoadKeepsItems(l.disk, delivered);
        NormalizeKeepsSound(l.disk);
      case _ =>
    }
  }

  lemma {:induction false} KnownDeliveredForGood(l: Life, es: seq<Event>, k: nat)
    requires SoundLife(l) && KnownDelivered(l, es) && k < |es|
    ensures !QueuesAt(l, es, k) && After(l, es[..k]).mem.delivery == Delivered
    decreases |es|
  {
    hide Queues, Next, SoundLife, KnownDelivered, FailsDelivery;
    KnownDeliveredStays(l, es);
    assert After(l, es[..0]) == l;
    assert l.mem.delivery == Delivered by { KnownIsDelivered(l, es); }
    if k > 0 {
      StepKeepsSound(l, es[0]);
      KnownDeliveredForGood(Next(l, es[0]), es[1..], k - 1);
      AfterTail(l, es, k - 1);
    }
  }

  lemma KnownIsDelivered(l: Life, es: seq<Event>)
    requires KnownDelivered(l, es)
    ensures l.mem.delivery == Delivered
  {
  }

  /**
   * A reply that was reported delivered is never handed over again, over every later life: if that could be saved,
   * whatever happens, and if not, as long as no restart finds a transcript without it.
   */
  lemma DeliveredIsNeverQueuedAgain(l: Life, error: string, saved: bool, es: seq<Event>, k: nat)
    requires SoundLife(l) && Open(l) && l.mem.delivery == Pending && k < |es|
    requires saved || forall e <- es :: e.Crash? ==> e.delivered
    ensures !QueuesAt(Next(l, Deliver(true, error, saved)), es, k)
    ensures After(Next(l, Deliver(true, error, saved)), es[..k]).mem.delivery == Delivered
  {
    hide SoundLife, Normalize, Compact;
    StepKeepsSound(l, Deliver(true, error, saved));
    KnownDeliveredForGood(Next(l, Deliver(true, error, saved)), es, k);
  }

  // ---------------------------------------------------------------- queued replies

  /** The reply is handed to Butler. */
  predicate Queues(l: Life, e: Event) {
    e.Accept? && Answer(l.mem, e.input, e.saved, e.now).reply == Answered(true, true)
  }

  /** A delivery is reported to have failed, in a running process or by the transcript at a restart. */
  predicate FailsDelivery(l: Life, e: Event) {
    (e.Deliver? || e.Crash?) && !e.delivered && Next(l, e).mem.delivery.Failed?
  }

  /** A reply was handed over and no failure is known, in memory or in the file. */
  predicate Open(l: Life) {
    (l.mem.delivery == Pending || l.mem.delivery == Delivered)
      && (l.disk.delivery == Pending || l.disk.delivery == Delivered)
  }

  lemma OpenStep(l: Life, e: Event)
    requires SoundLife(l)
    ensures Queues(l, e) ==> !Open(l) && Open(Next(l, e))
    ensures Open(l) && !FailsDelivery(l, e) ==> Open(Next(l, e))
  {
    hide WellAnswered, Acceptable, MatchesStored, IsAnswered, WithItem, MirrorsFirst, DistinctIds, Normalize, Filled;
    match e {
      case Accept(input, saved, leaked, now) =>
      case Crash(delivered) =>
        LoadKeepsItems(l.disk, delivered);
        NormalizeKeepsSound(l.disk);
        DeliveryIsAsReported(l, delivered, "", true);
      case _ =>
    }
  }

  predicate QueuesAt(l: Life, es: seq<Event>, k: nat)
    requires k < |es|
  {
    Queues(After(l, es[..k]), es[k])
  }

  predicate FailsAt(l: Life, es: seq<Event>, k: nat)
    requires k < |es|
  {
    FailsDelivery(After(l, es[..k]), es[k])
  }

  lemma AfterTail(l: Life, es: seq<Event>, k: nat)
    requires es != [] && k < |es| - 1
    ensures After(l, es[..k + 1]) == After(Next(l, es[0]), es[1..][..k])
    ensures QueuesAt(l, es, k + 1) <==> QueuesAt(Next(l, es[0]), es[1..], k)
    ensures FailsAt(l, es, k + 1) <==> FailsAt(Next(l, es[0]), es[1..], k)
  {
    hide Next, Queues, FailsDelivery;
    assert es[..k + 1][0] == es[0] && es[..k + 1][1..] == es[1..][..k];
  }

  lemma {:induction false} OpenUntilFailure(l: Life, es: seq<Event>, k: nat) returns (m: nat)
    requires SoundLife(l) && Open(l) && k < |es| && QueuesAt(l, es, k)
    ensures m < k && FailsAt(l, es, m)
    decreases |es|
  {
    hide Queues, Next, FailsDelivery, Open, SoundLife;
    assert After(l, es[..0]) == l;
    OpenStep(l, es[0]);
    if FailsDelivery(l, es[0]) {
      m := 0;
    } else {
      StepKeepsSound(l, es[0]);
      AfterTail(l, es, k - 1);
      m := OpenUntilFailure(Next(l, es[0]), es[1..], k - 1);
      AfterTail(l, es, m);
      m := m + 1;
    }
  }

  /** Between two queued replies of one question there is always a delivery that was reported to have failed. */
  lemma {:induction false} QueuedRepliesAreSeparated(l: Life, es: seq<Event>, i: nat, k: nat) returns (m: nat)
    requires SoundLife(l) && i < k < |es| && QueuesAt(l, es, i) && QueuesAt(l, es, k)
    ensures i < m < k && FailsAt(l, es, m)
    decreases |es|
  {
    hide Queues, Next, FailsDelivery, Open, SoundLife;
    assert After(l, es[..0]) == l;
    StepKeepsSound(l, es[0]);
    AfterTail(l, es, k - 1);
    if i == 0 {
      OpenStep(l, es[0]);
      m := OpenUntilFailure(Next(l, es[0]), es[1..], k - 1);
    } else {
      AfterTail(l, es, i - 1);
      m := QueuedRepliesAreSeparated(Next(l, es[0]), es[1..], i - 1, k - 1);
    }
    AfterTail(l, es, m);
    m := m + 1;
  }
}
