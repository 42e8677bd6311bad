/**
 * A structured question to the operator (butler-agent-operator-question.ts): its items, the answers given to
 * them, and the delivery of the finished reply to Butler. Each mutation runs alone (see PromiseTail.dfy), so the
 * undo of a failed save belongs to the same step as the change it undoes.
 */
module OperatorQuestion {
  import opened Options
  import opened Texts

  const MAX_FREEFORM_CHARS := 2_000

  datatype Item = Item(
    id: string,
    options: seq<string>,
    allowFreeform: bool,
    selected: Option<string>,
    freeform: Option<string>,
    answeredAt: Option<int>)

  datatype Delivery = Idle | Pending | Delivered | Failed(error: Option<string>)

  /** A question with one item is its own item; with more, the root repeats the first. */
  datatype Question = Question(root: Item, questions: seq<Item>, delivery: Delivery)

  datatype Input = Input(questionId: string, optionId: string, freeform: string)

  datatype Reply = Rejected | SaveFailed | Answered(complete: bool, queued: bool)

  function ItemsOf(q: Question): (items: seq<Item>)
    ensures items != []
  {
    if q.questions == [] then [q.root] else q.questions
  }

  predicate IsAnswered(item: Item) {
    (item.selected.Some? && item.selected.value != "") || (item.freeform.Some? && Compact(item.freeform.value) != "")
  }

  predicate AllAnswered(items: seq<Item>) {
    forall item <- items :: IsAnswered(item)
  }

  function FindItem(items: seq<Item>, id: string): (k: Option<nat>)
    ensures k.Some? ==>
            k.value < |items| && items[k.value].id == id
            && forall j :: 0 <= j < k.value ==> items[j].id != id
    ensures k.None? ==> forall item <- items :: item.id != id
  {
    if items == [] then None
    else if items[0].id == id then Some(0)
    else
      var rest := FindItem(items[1..], id);
      if rest.Some? then Some(rest.value + 1) else None
  }

  function OptionOf(input: Input): Option<string> {
    NonEmpty(Compact(input.optionId))
  }

  function FreeformOf(input: Input): Option<string> {
    NonEmpty(Trim(input.freeform))
  }

  /** The checks that refuse an answer before the stored one is looked at. */
  predicate Acceptable(item: Item, input: Input) {
    var option, freeform := OptionOf(input), FreeformOf(input);
    && option.Some? != freeform.Some?
    && (freeform.Some? ==> item.allowFreeform && |freeform.value| <= MAX_FREEFORM_CHARS)
    && (option.Some? ==> option.value in item.options)
  }

  predicate MatchesStored(item: Item, input: Input) {
    if OptionOf(input).Some? then item.selected == OptionOf(input)
    else FreeformOf(input).Some?
         && (if item.freeform.Some? then NonEmpty(Compact(item.freeform.value)) else None)
            == NonEmpty(Compact(FreeformOf(input).value))
  }

  function Filled(item: Item, input: Input, now: int): Item {
    item.(selected := OptionOf(input), freeform := FreeformOf(input), answeredAt := Some(now))
  }

  function Mirror(root: Item, first: Item): Item {
    root.(selected := first.selected, freeform := first.freeform, answeredAt := first.answeredAt)
  }

  /** The question with item `k` replaced; the root follows its first item. */
  function WithItem(q: Question, k: nat, item: Item): Question
    requires k < |ItemsOf(q)|
  {
    if q.questions == [] then q.(root := item)
    else q.(questions := q.questions[k := item],
            root := if q.questions[0].id == item.id then Mirror(q.root, item) else q.root)
  }

  datatype Outcome = Outcome(question: Question, reply: Reply)

  /** answerOperatorQuestionMessage: the question afterwards, and what the caller is told. */
  function Answer(q: Question, input: Input, saved: bool, now: int): Outcome {
    var items := ItemsOf(q);
    var k := FindItem(items, input.questionId);
    if k.None? || !Acceptable(items[k.value], input) then Outcome(q, Rejected)
    else if IsAnswered(items[k.value]) then
      if !MatchesStored(items[k.value], input) then Outcome(q, Rejected)
      else if AllAnswered(items) && q.delivery.Failed? then
        if saved then Outcome(q.(delivery := Pending), Answered(true, true)) else Outcome(q, SaveFailed)
      else Outcome(q, Answered(AllAnswered(items), false))
    else if !saved then Outcome(q, SaveFailed)
    else
      var filled := WithItem(q, k.value, Filled(items[k.value], input, now));
      var complete := AllAnswered(ItemsOf(filled));
      Outcome(filled.(delivery := if complete then Pending else Idle), Answered(complete, complete))
  }

  /** settleOperatorQuestionDelivery: the change stands even if it cannot be saved. */
  function Settle(q: Question, delivered: bool, error: string): Question {
    if q.delivery != Pending then q
    else q.(delivery :=
              if delivered then Delivered
              else Failed(Some(NonEmpty(Compact(error)).GetOr("Butler could not continue from this answer."))))
  }

  /** recoverInterruptedOperatorQuestionDeliveries, for one question. */
  function Recover(q: Question, delivered: bool): Question {
    if q.delivery != Pending then q
    else q.(delivery := if delivered then Delivered
            else Failed(Some("Butler restarted before it could continue from this answer.")))
  }

  // ---------------------------------------------------------------- the mutable question

  class OperatorQuestionState {
    var root: Item
    var questions: seq<Item>
    var delivery: Delivery

    ghost function Abs(): Question
      reads this
    {
      Question(root, questions, delivery)
    }

    constructor (q: Question)
      ensures Abs() == q
    {
      root, questions, delivery := q.root, q.questions, q.delivery;
    }

    method SetItem(k: nat, item: Item)
      requires k < |ItemsOf(Abs())|
      modifies this`root, this`questions
      ensures Abs() == WithItem(old(Abs()), k, item)
    {
      if questions == [] {
        root := item;
      } else {
        if questions[0].id == item.id {
          root := Mirror(root, item);
        }
        questions := questions[k := item];
      }
    }

    /** The answer is written first and taken back field by field if it cannot be saved. */
    method Accept(input: Input, saved: bool, now: int) returns (reply: Reply)
      modifies this
      ensures Outcome(Abs(), reply) == Answer(old(Abs()), input, saved, now)
    {
      hide WithItem, Acceptable, MatchesStored, IsAnswered;
      var items := if questions == [] then [root] else questions;
      var found := FindItem(items, input.questionId);
      if found.None? || !Acceptable(items[found.value], input) { return Rejected; }
      var k := found.value;
      var wasComplete := AllAnswered(items);
      if IsAnswered(items[k]) {
        if !MatchesStored(items[k], input) { return Rejected; }
        if !wasComplete || !delivery.Failed? { return Answered(wasComplete, false); }
        var before := delivery;
        delivery := Pending;
        if !saved {
          delivery := before;
          return SaveFailed;
        }
        return Answered(true, true);
      }
      var previousTarget, previousRoot, previousDelivery := items[k], root, delivery;
      SetItem(k, Filled(items[k], input, now));
      var complete := AllAnswered(if questions == [] then [root] else questions);
      delivery := if complete then Pending else Idle;
      if !saved {
        TakeBack(k, previousTarget, previousRoot, previousDelivery, old(Abs()), Filled(items[k], input, now));
        return SaveFailed;
      }
      return Answered(complete, complete);
    }

    method TakeBack(k: nat, target: Item, previousRoot: Item, previousDelivery: Delivery, ghost before: Question,
                    ghost filled: Item)
      requires k < |ItemsOf(before)| && target == ItemsOf(before)[k] && previousRoot == before.root
               && previousDelivery == before.delivery
      requires filled.id == target.id && filled.options == target.options
               && filled.allowFreeform == target.allowFreeform
      requires root == WithItem(before, k, filled).root && questions == WithItem(before, k, filled).questions
      modifies this
      ensures Abs() == before
    {
      if questions != [] {
        questions := questions[k := questions[k].(selected := target.selected, freeform := target.freeform,
                                                  answeredAt := target.answeredAt)];
      }
      root := root.(selected := previousRoot.selected, freeform := previousRoot.freeform,
                    answeredAt := previousRoot.answeredAt);
      delivery := previousDelivery;
    }

    /** Whether the save fails makes no difference to the question: only the caller hears of it. */
    method SettleDelivery(delivered: bool, error: string) returns (settled: bool)
      modifies this`delivery
      ensures Abs() == Settle(old(Abs()), delivered, error) && settled == (old(delivery) == Pending)
    {
      settled := delivery == Pending;
      if settled {
        var reason := NonEmpty(Compact(error)).GetOr("Butler could not continue from this answer.");
        delivery := if delivered then Delivered else Failed(Some(reason));
      }
    }
  }
}
