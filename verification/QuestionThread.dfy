/**
 * Questions in the chat: posting one, the rule of one open question per operator turn, and recovery after a
 * restart (postOperatorQuestionMessage and recoverInterruptedOperatorQuestionDeliveries in
 * butler-agent-operator-question.ts).
 */
module QuestionThread {
  import opened Options
  import opened OperatorQuestion
  import opened Texts

  /**
   * `backed` and `succeeded` say what the provider session knows of the message; `reply` is a question's own answer
   * text.
   */
  datatype Message = Message(id: string, isUser: bool, text: string, at: int, backed: bool, succeeded: bool,
                             question: Option<Question>, reply: string)

  predicate NeedsAction(q: Question) {
    q.delivery == Pending || q.delivery.Failed? || !AllAnswered(ItemsOf(q))
  }

  predicate IsOpen(m: Message) {
    m.question.Some? && NeedsAction(m.question.value)
  }

  /** The open questions since the last operator message. */
  function OpenInTurn(ms: seq<Message>): nat {
    if ms == [] || ms[|ms| - 1].isUser then 0
    else OpenInTurn(ms[..|ms| - 1]) + if IsOpen(ms[|ms| - 1]) then 1 else 0
  }

  /** The post is refused while a question is open, and taken back if it cannot be saved. */
  function Post(ms: seq<Message>, m: Message, saved: bool): seq<Message>
    requires !m.isUser && m.question.Some?
  {
    if OpenInTurn(ms) > 0 || !saved then ms else ms + [m]
  }

  /** A question is posted exactly if it can be saved and none is open since the operator's last message. */
  lemma PostedWhenNothingIsOpen(ms: seq<Message>, m: Message, saved: bool)
    requires !m.isUser && m.question.Some?
    ensures var free := forall i :: 0 <= i < |ms| && IsOpen(ms[i]) ==> exists k :: i <= k < |ms| && ms[k].isUser;
            Post(ms, m, saved) == if saved && free then ms + [m] else ms
  {
    hide IsOpen;
    OpenSinceTheLast(ms);
  }

  lemma {:induction false} OpenSinceTheLast(ms: seq<Message>)
    ensures OpenInTurn(ms) == 0
            <==> forall i :: 0 <= i < |ms| && IsOpen(ms[i]) ==> exists k :: i <= k < |ms| && ms[k].isUser
  {
    hide IsOpen;
    if ms != [] && !ms[|ms| - 1].isUser {
      var init := ms[..|ms| - 1];
      OpenSinceTheLast(init);
      if OpenInTurn(init) == 0 {
        forall i | 0 <= i < |init| && IsOpen(ms[i]) ensures exists k :: i <= k < |ms| && ms[k].isUser {
          assert init[i] == ms[i];
          var k :| i <= k < |init| && init[k].isUser;
          assert ms[k].isUser;
        }
      } else {
        var i :| 0 <= i < |init| && IsOpen(init[i]) && forall k :: i <= k < |init| ==> !init[k].isUser;
        assert IsOpen(ms[i]);
        forall k | i <= k < |ms| ensures !ms[k].isUser { if k < |init| { assert init[k] == ms[k]; } }
      }
    } else if ms != [] {
      assert ms[|ms| - 1].isUser;
    }
  }

  /** Anything else that is added to the chat. */
  function Append(ms: seq<Message>, m: Message): seq<Message> {
    ms + [m]
  }

  /** The question of one message moves on; an answered and delivered question does not open again. */
  function Update(ms: seq<Message>, k: nat, q: Question): seq<Message>
    requires k < |ms|
  {
    ms[k := ms[k].(question := Some(q))]
  }

  lemma {:induction false} UpdateOpensNothing(ms: seq<Message>, k: nat, q: Question)
    requires k < |ms| && ms[k].question.Some? && (NeedsAction(q) ==> NeedsAction(ms[k].question.value))
    ensures OpenInTurn(Update(ms, k, q)) <= OpenInTurn(ms)
  {
    var after := Update(ms, k, q);
    if !ms[|ms| - 1].isUser {
      if k < |ms| - 1 {
        assert after[..|ms| - 1] == Update(ms[..|ms| - 1], k, q);
        UpdateOpensNothing(ms[..|ms| - 1], k, q);
      } else {
        assert after[..|ms| - 1] == ms[..|ms| - 1];
      }
    }
  }

  /** Answering and settling open nothing: what needs action afterwards needed it before. */
  lemma AnswersOpenNothing(q: Question, input: Input, saved: bool, now: int, delivered: bool, error: string)
    ensures NeedsAction(Answer(q, input, saved, now).question) ==> NeedsAction(q)
    ensures NeedsAction(Settle(q, delivered, error)) ==> NeedsAction(q)
  {
    hide Acceptable, MatchesStored, WithItem, IsAnswered, Filled;
    var items := ItemsOf(q);
    var k := FindItem(items, input.questionId);
    if k.Some? && !IsAnswered(items[k.value]) { assert items[k.value] in items; }
  }

  // ---------------------------------------------------------------- recovery

  /** The operator messages that carry a question's answer. */
  predicate IsReplyTo(m: Message, asked: Message) {
    m.isUser && m.at >= asked.at && m.text == asked.reply
  }

  /** The latest answer the provider knows of; 0 if there is none. */
  function LatestReplyAt(ms: seq<Message>, asked: Message): int {
    if ms == [] then 0
    else
      var rest := LatestReplyAt(ms[1..], asked);
      if IsReplyTo(ms[0], asked) && ms[0].backed && ms[0].at > rest then ms[0].at else rest
  }

  predicate WasDelivered(ms: seq<Message>, asked: Message) {
    var at := LatestReplyAt(ms, asked);
    at > 0 && exists m <- ms :: !m.isUser && m.backed && m.succeeded && m.id != asked.id && m.at >= at
  }

  /**
   * A transcript proves the delivery of an answer exactly if it holds, under the latest time of all answers to the
   * question that the provider has, a reply of Butler's that succeeded, is not the question itself and is not older.
   */
  lemma DeliveryIsProved(ms: seq<Message>, asked: Message)
    ensures WasDelivered(ms, asked)
            <==> exists r <- ms ::
                   && IsReplyTo(r, asked) && r.backed && r.at > 0
                   && (forall q <- ms :: IsReplyTo(q, asked) && q.backed ==> q.at <= r.at)
                   && exists m <- ms :: !m.isUser && m.backed && m.succeeded && m.id != asked.id && m.at >= r.at
  {
    hide IsReplyTo;
    LatestReplyIsLatest(ms, asked);
  }

  lemma {:induction false} LatestReplyIsLatest(ms: seq<Message>, asked: Message)
    ensures LatestReplyAt(ms, asked) >= 0
    ensures forall q <- ms :: IsReplyTo(q, asked) && q.backed ==> q.at <= LatestReplyAt(ms, asked)
    ensures LatestReplyAt(ms, asked) > 0 ==>
              exists r <- ms :: IsReplyTo(r, asked) && r.backed && r.at == LatestReplyAt(ms, asked)
  {
    hide IsReplyTo;
    if ms != [] {
      LatestReplyIsLatest(ms[1..], asked);
      assert ms == [ms[0]] + ms[1..];
    }
  }

  predicate IsInterrupted(m: Message) {
    m.question.Some? && m.question.value.delivery == Pending
  }

  function RecoverOne(ms: seq<Message>, m: Message): Message {
    if IsInterrupted(m) then m.(question := Some(Recover(m.question.value, WasDelivered(ms, m)))) else m
  }

  /** The messages that go: answers to questions whose delivery turned out to have failed. */
  predicate Goes(ms: seq<Message>, m: Message) {
    exists asked <- ms :: IsInterrupted(asked) && !WasDelivered(ms, asked) && exists r <- ms ::
      IsReplyTo(r, asked)
      && r.id == m.id
  }

  function Recovered(all: seq<Message>, ms: seq<Message>): seq<Message> {
    if ms == [] then []
    else (if Goes(all, ms[0]) then [] else [RecoverOne(all, ms[0])]) + Recovered(all, ms[1..])
  }

  /** The ids of the answers to one question. */
  function ReplyIds(ms: seq<Message>, asked: Message): set<string> {
    set r | r in ms && IsReplyTo(r, asked) :: r.id
  }

  function RemovedIds(all: seq<Message>, ms: seq<Message>): set<string> {
    if ms == [] then {}
    else
      var asked := ms[|ms| - 1];
      RemovedIds(all, ms[..|ms| - 1])
        + if IsInterrupted(asked) && !WasDelivered(all, asked) then ReplyIds(all, asked) else {}
  }

  lemma {:induction false} RemovedIdsAreGone(all: seq<Message>, ms: seq<Message>, id: string)
    ensures id in RemovedIds(all, ms) <==>
              exists asked <- ms :: IsInterrupted(asked) && !WasDelivered(all, asked)
                && exists r <- all :: IsReplyTo(r, asked) && r.id == id
  {
    hide IsReplyTo, WasDelivered;
    if ms != [] {
      RemovedIdsAreGone(all, ms[..|ms| - 1], id);
      assert ms == ms[..|ms| - 1] + [ms[|ms| - 1]];
    }
  }

  function Keep(all: seq<Message>, ms: seq<Message>, gone: set<string>): seq<Message> {
    if ms == [] then [] else (if ms[0].id in gone then [] else [RecoverOne(all, ms[0])]) + Keep(all, ms[1..], gone)
  }

  lemma {:induction false} KeepIsRecovered(all: seq<Message>, ms: seq<Message>)
    ensures Keep(all, ms, RemovedIds(all, all)) == Recovered(all, ms)
  {
    hide RecoverOne, RemovedIds;
    if ms != [] {
      RemovedIdsAreGone(all, all, ms[0].id);
      KeepIsRecovered(all, ms[1..]);
    }
  }

  /**
   * The two loops of recoverInterruptedOperatorQuestionDeliveries: mark each interrupted question and collect the ids,
   * then take the messages out from the end.
   */
  method RecoverInterrupted(ms: seq<Message>) returns (recovered: seq<Message>, changed: bool)
    ensures recovered == Recovered(ms, ms)
    ensures changed <==> exists m <- ms :: IsInterrupted(m)
  {
    hide WasDelivered, ReplyIds, Recovered, RecoverOne, Recover;
    changed := false;
    var gone: set<string> := {};
    var marked: seq<Message> := [];
    for i := 0 to |ms|
      invariant |marked| == i && forall k :: 0 <= k < i ==> marked[k] == RecoverOne(ms, ms[k])
      invariant gone == RemovedIds(ms, ms[..i])
      invariant changed <==> exists k :: 0 <= k < i && IsInterrupted(ms[k])
    {
      assert ms[..i + 1][..i] == ms[..i];
      marked := marked + [RecoverOne(ms, ms[i])];
      if IsInterrupted(ms[i]) {
        changed := true;
        if !WasDelivered(ms, ms[i]) { gone := gone + ReplyIds(ms, ms[i]); }
      }
    }
    assert ms[..|ms|] == ms;
    recovered := [];
    var k := |marked|;
    assert ms[k..] == [];
    while k > 0
      invariant 0 <= k <= |ms| && recovered == Keep(ms, ms[k..], gone)
    {
      k := k - 1;
      assert ms[k..][1..] == ms[k + 1..];
      SameId(ms, ms[k]);
      if marked[k].id !in gone { recovered := [marked[k]] + recovered; }
    }
    assert ms[0..] == ms;
    KeepIsRecovered(ms, ms);
  }

  lemma SameId(all: seq<Message>, m: Message)
    ensures RecoverOne(all, m).id == m.id
  {
  }

  predicate DistinctIds(ms: seq<Message>) {
    forall m, n :: m in ms && n in ms && m.id == n.id ==> m == n
  }

  lemma {:induction false} RecoveredAre(all: seq<Message>, ms: seq<Message>, n: Message)
    ensures n in Recovered(all, ms) <==> exists m <- ms :: !Goes(all, m) && n == RecoverOne(all, m)
  {
    if ms != [] {
      RecoveredAre(all, ms[1..], n);
      assert ms == [ms[0]] + ms[1..];
    }
  }

  /**
   * After a restart no delivery is pending; every question is still there, with the same answers, delivered or
   * failed as the transcript tells; and only operator messages are taken out.
   */
  lemma RecoveryKeepsQuestions(ms: seq<Message>, m: Message)
    requires DistinctIds(ms) && m in ms && !m.isUser
    ensures RecoverOne(ms, m) in Recovered(ms, ms)
    ensures !IsInterrupted(RecoverOne(ms, m))
    ensures m.question.Some? ==>
              var q := RecoverOne(ms, m).question.value;
              && q.root == m.question.value.root && q.questions == m.question.value.questions
              && (q.delivery == m.question.value.delivery
                  || (m.question.value.delivery == Pending && (q.delivery == Delivered || q.delivery.Failed?)))
  {
    RecoveredAre(ms, ms, RecoverOne(ms, m));
  }

  // ---------------------------------------------------------------- what recovery leaves open

  /** The message stays and its question needs action afterwards: it did before, and was not just found delivered. */
  predicate StaysOpen(all: seq<Message>, m: Message) {
    !m.isUser && !Goes(all, m) && IsOpen(m)
      && !(IsInterrupted(m) && WasDelivered(all, m) && AllAnswered(ItemsOf(m.question.value)))
  }

  /** Where the current turn begins after recovery: behind the last operator message that stays. */
  function TurnStart(all: seq<Message>, ms: seq<Message>): (k: nat)
    ensures k <= |ms|
    ensures k > 0 ==> ms[k - 1].isUser && !Goes(all, ms[k - 1])
    ensures forall i :: k <= i < |ms| && ms[i].isUser ==> Goes(all, ms[i])
  {
    if ms == [] then 0
    else if ms[|ms| - 1].isUser && !Goes(all, ms[|ms| - 1]) then |ms|
    else TurnStart(all, ms[..|ms| - 1])
  }

  /** How many questions of `ms` stay open. */
  function CountOpen(all: seq<Message>, ms: seq<Message>): nat {
    if ms == [] then 0
    else CountOpen(all, ms[..|ms| - 1]) + if StaysOpen(all, ms[|ms| - 1]) then 1 else 0
  }

  lemma {:induction false} RecoveredSnoc(all: seq<Message>, ms: seq<Message>, m: Message)
    ensures Recovered(all, ms + [m]) == Recovered(all, ms) + if Goes(all, m) then [] else [RecoverOne(all, m)]
  {
    hide Goes, RecoverOne;
    if ms == [] {
      assert ms + [m] == [m] && [m][1..] == [];
    } else {
      RecoveredSnoc(all, ms[1..], m);
      assert (ms + [m])[1..] == ms[1..] + [m];
    }
  }

  lemma OpenAfterRecovery(all: seq<Message>, m: Message)
    requires !m.isUser && !Goes(all, m)
    ensures IsOpen(RecoverOne(all, m)) <==> StaysOpen(all, m)
    ensures !RecoverOne(all, m).isUser
  {
    hide WasDelivered, IsAnswered, Goes;
  }

  lemma OpenSnoc(ms: seq<Message>, m: Message)
    ensures OpenInTurn(ms + [m]) == if m.isUser then 0 else OpenInTurn(ms) + if IsOpen(m) then 1 else 0
  {
    hide IsOpen;
    assert (ms + [m])[..|ms|] == ms;
  }

  /**
   * After recovery the current turn begins at `TurnStart`, and its open questions are exactly those from there on that
   * stay open.
   */
  lemma {:induction false} RecoveryLeavesOpen(all: seq<Message>, ms: seq<Message>)
    ensures OpenInTurn(Recovered(all, ms)) == CountOpen(all, ms[TurnStart(all, ms)..])
  {
    hide Goes, RecoverOne, StaysOpen, IsOpen;
    if ms != [] {
      var init, last := ms[..|ms| - 1], ms[|ms| - 1];
      assert ms == init + [last];
      RecoveredSnoc(all, init, last);
      var start := TurnStart(all, ms);
      if Goes(all, last) {
        RecoveryLeavesOpen(all, init);
        CountSnoc(all, init[start..], last);
        assert ms[start..] == init[start..] + [last];
        assert !StaysOpen(all, last) by { GoneIsNotOpen(all, last); }
        assert Recovered(all, ms) == Recovered(all, init);
      } else {
        OpenSnoc(Recovered(all, init), RecoverOne(all, last));
        RecoveredRole(all, last);
        if last.isUser {
          assert ms[start..] == [];
        } else {
          RecoveryLeavesOpen(all, init);
          OpenAfterRecovery(all, last);
          CountSnoc(all, init[start..], last);
          assert ms[start..] == init[start..] + [last];
        }
      }
    }
  }

  lemma RecoveredRole(all: seq<Message>, m: Message)
    ensures RecoverOne(all, m).isUser == m.isUser
  {
  }

  lemma GoneIsNotOpen(all: seq<Message>, m: Message)
    ensures StaysOpen(all, m) ==> !Goes(all, m)
  {
    hide Goes;
  }

  lemma CountSnoc(all: seq<Message>, ms: seq<Message>, m: Message)
    ensures CountOpen(all, ms + [m]) == CountOpen(all, ms) + if StaysOpen(all, m) then 1 else 0
  {
    hide StaysOpen;
    assert (ms + [m])[..|ms|] == ms;
  }

  /** Recovery joins no two open questions: no two that stay open stand behind the last operator message that stays. */
  ghost predicate JoinsNone(ms: seq<Message>) {
    forall i, k :: TurnStart(ms, ms) <= i < k < |ms| ==> !(StaysOpen(ms, ms[i]) && StaysOpen(ms, ms[k]))
  }

  lemma {:induction false} CountsNone(all: seq<Message>, ms: seq<Message>)
    ensures CountOpen(all, ms) == 0 <==> forall m <- ms :: !StaysOpen(all, m)
  {
    hide StaysOpen;
    if ms != [] {
      CountsNone(all, ms[..|ms| - 1]);
      assert ms == ms[..|ms| - 1] + [ms[|ms| - 1]];
    }
  }

  lemma {:induction false} CountsAtMostOne(all: seq<Message>, ms: seq<Message>)
    ensures CountOpen(all, ms) <= 1
            <==> forall i, k :: 0 <= i < k < |ms| ==> !(StaysOpen(all, ms[i]) && StaysOpen(all, ms[k]))
  {
    hide StaysOpen;
    if ms != [] {
      var init, last := ms[..|ms| - 1], |ms| - 1;
      CountsAtMostOne(all, init);
      CountsNone(all, init);
      if StaysOpen(all, ms[last]) && CountOpen(all, init) >= 1 {
        var m :| m in init && StaysOpen(all, m);
        var i :| 0 <= i < |init| && init[i] == m;
        assert StaysOpen(all, ms[i]) && i < last;
      } else if CountOpen(all, init) > 1 {
        var i, k :| 0 <= i < k < |init| && StaysOpen(all, init[i]) && StaysOpen(all, init[k]);
        assert StaysOpen(all, ms[i]) && StaysOpen(all, ms[k]);
      } else {
        forall i, k | 0 <= i < k < |ms| ensures !(StaysOpen(all, ms[i]) && StaysOpen(all, ms[k])) {
          if k < last { assert ms[i] == init[i] && ms[k] == init[k]; } else { assert ms[i] in init; }
        }
      }
    }
  }

  /** For every chat: recovery leaves at most one question open in the current turn if and only if it joins no two. */
  lemma RecoveryKeepsOneOpen(ms: seq<Message>)
    ensures OpenInTurn(Recovered(ms, ms)) <= 1 <==> JoinsNone(ms)
  {
    hide StaysOpen, Recovered, OpenInTurn, CountOpen, TurnStart;
    var start := TurnStart(ms, ms);
    RecoveryLeavesOpen(ms, ms);
    CountsAtMostOne(ms, ms[start..]);
    if JoinsNone(ms) {
      forall i, k | 0 <= i < k < |ms[start..]|
        ensures !(StaysOpen(ms, ms[start..][i]) && StaysOpen(ms, ms[start..][k])) {
        assert ms[start..][i] == ms[start + i] && ms[start..][k] == ms[start + k];
      }
    } else {
      var i, k :| start <= i < k < |ms| && StaysOpen(ms, ms[i]) && StaysOpen(ms, ms[k]);
      assert ms[start..][i - start] == ms[i] && ms[start..][k - start] == ms[k];
    }
  }

  // ---------------------------------------------------------------- whole lives of a chat

  datatype Step =
    | DoPost(m: Message, saved: bool)
    | DoAppend(m: Message)                                // a message without an open question
    | DoAnswer(k: nat, input: Input, saved: bool, now: int)
    | DoSettle(k: nat, delivered: bool, error: string)
    | DoRecover                                           // a restart

  /** What Butler can put up: one to three items, none answered, with two to six options each. */
  predicate IsNew(q: Question) {
    |ItemsOf(q)| <= 3 && q.delivery == Idle
      && forall item <- ItemsOf(q) :: 2 <= |item.options| <= 6 && !IsAnswered(item)
  }

  predicate Enabled(ms: seq<Message>, s: Step) {
    match s
    case DoPost(m, _) => !m.isUser && m.question.Some? && IsNew(m.question.value)
    case DoAppend(m) => !IsOpen(m)
    case DoAnswer(k, _, _, _) => k < |ms| && ms[k].question.Some?
    case DoSettle(k, _, _) => k < |ms| && ms[k].question.Some?
    case DoRecover => true
  }

  function Next(ms: seq<Message>, s: Step): seq<Message>
    requires Enabled(ms, s)
  {
    match s
    case DoPost(m, saved) => Post(ms, m, saved)
    case DoAppend(m) => Append(ms, m)
    case DoAnswer(k, input, saved, now) => Update(ms, k, Answer(ms[k].question.value, input, saved, now).question)
    case DoSettle(k, delivered, error) => Update(ms, k, Settle(ms[k].question.value, delivered, error))
    case DoRecover => Recovered(ms, ms)
  }

  predicate Legal(ms: seq<Message>, steps: seq<Step>)
    decreases |steps|
  {
    steps == [] || (Enabled(ms, steps[0]) && Legal(Next(ms, steps[0]), steps[1..]))
  }

  function Run(ms: seq<Message>, steps: seq<Step>): seq<Message>
    requires Legal(ms, steps)
    decreases |steps|
  {
    if steps == [] then ms else Run(Next(ms, steps[0]), steps[1..])
  }

  lemma StepKeepsOneOpen(ms: seq<Message>, s: Step)
    requires Enabled(ms, s) && OpenInTurn(ms) <= 1
    ensures OpenInTurn(Next(ms, s)) <= 1 <==> (s.DoRecover? ==> JoinsNone(ms))
  {
    hide NeedsAction, Answer, Settle, Recovered, JoinsNone;
    match s {
      case DoPost(m, saved) => assert (ms + [m])[..|ms|] == ms;
      case DoAppend(m) => assert (ms + [m])[..|ms|] == ms;
      case DoAnswer(k, input, saved, now) =>
        AnswersOpenNothing(ms[k].question.value, input, saved, now, true, "");
        UpdateOpensNothing(ms, k, Answer(ms[k].question.value, input, saved, now).question);
      case DoSettle(k, delivered, error) =>
        AnswersOpenNothing(ms[k].question.value, Input("", "", ""), true, 0, delivered, error);
        UpdateOpensNothing(ms, k, Settle(ms[k].question.value, delivered, error));
      case DoRecover => RecoveryKeepsOneOpen(ms);
    }
  }

  ghost predicate RecoveriesJoinNone(ms: seq<Message>, steps: seq<Step>)
    requires Legal(ms, steps)
    decreases |steps|
  {
    steps != [] ==> (steps[0].DoRecover? ==> JoinsNone(ms)) && RecoveriesJoinNone(Next(ms, steps[0]), steps[1..])
  }

  /**
   * At most one question is open in the operator's current turn, over every life, restarts included, in which no
   * recovery joins two.
   */
  lemma {:induction false} OneOpenQuestionPerTurn(ms: seq<Message>, steps: seq<Step>)
    requires OpenInTurn(ms) <= 1 && Legal(ms, steps) && RecoveriesJoinNone(ms, steps)
    ensures OpenInTurn(Run(ms, steps)) <= 1
    decreases |steps|
  {
    hide Next, Enabled, JoinsNone;
    if steps != [] {
      StepKeepsOneOpen(ms, steps[0]);
      OneOpenQuestionPerTurn(Next(ms, steps[0]), steps[1..]);
    }
  }

  // ---------------------------------------------------------------- a life in which recovery joins two

  function OneItem(id: string): Question {
    Question(Item(id, ["yes", "no"], false, None, None, None), [], Idle)
  }

  function Asked(id: string, at: int): Message {
    Message(id, false, "?", at, false, false, Some(OneItem(id)), "yes")
  }

  function Said(id: string, at: int): Message {
    Message(id, true, "yes", at, false, false, None, "")
  }

  /** The stored question once it is answered. */
  function Chosen(id: string, now: int): Question {
    Question(Item(id, ["yes", "no"], false, Some("yes"), None, Some(now)), [], Pending)
  }

  lemma AnswerIsChosen(id: string, now: int)
    ensures Answer(OneItem(id), Input(id, "yes", ""), true, now).question == Chosen(id, now)
  {
    assert Collapse("yes") == "yes" by { assert "yes"[1..] == "es" && "es"[1..] == "s" && "s"[1..] == ""; }
    assert Trim("yes") == "yes" && Trim("") == "";
    assert OptionOf(Input(id, "yes", "")) == Some("yes") && FreeformOf(Input(id, "yes", "")).None?;
    assert FindItem([OneItem(id).root], id) == Some(0);
  }

  /** Taking out the answer to a first open question joins it to the second. */
  lemma AnswerBetweenTwo(first: Message, answer: Message, second: Message)
    requires !first.isUser && !second.isUser && answer.isUser && !answer.backed && IsReplyTo(answer, first)
    requires IsInterrupted(first) && IsOpen(second) && !IsInterrupted(second)
    requires first.id != answer.id && second.id != answer.id && first.id != second.id
    ensures OpenInTurn([first, answer, second]) == 1
    ensures OpenInTurn(Recovered([first, answer, second], [first, answer, second])) == 2
  {
    hide OpenInTurn, NeedsAction, WasDelivered;
    var ms := [first, answer, second];
    NoBackedReply(ms, first);
    OnlyTheAnswerGoes(first, answer, second);
    var one, two := RecoverOne(ms, first), RecoverOne(ms, second);
    RecoveredOfThree(ms);
    FailedIsOpen(first.question.value);
    OpenOfThree(first, answer, second);
    OpenOfTwo(one, two);
  }

  lemma OnlyTheAnswerGoes(first: Message, answer: Message, second: Message)
    requires IsReplyTo(answer, first) && IsInterrupted(first) && !WasDelivered([first, answer, second], first)
    requires !first.isUser && !second.isUser && first.id != answer.id && second.id != answer.id
    ensures var ms := [first, answer, second]; Goes(ms, answer) && !Goes(ms, first) && !Goes(ms, second)
  {
    hide WasDelivered;
    var ms := [first, answer, second];
    assert first in ms && answer in ms;
  }

  lemma RecoveredOfThree(ms: seq<Message>)
    requires |ms| == 3 && !Goes(ms, ms[0]) && Goes(ms, ms[1]) && !Goes(ms, ms[2])
    ensures Recovered(ms, ms) == [RecoverOne(ms, ms[0]), RecoverOne(ms, ms[2])]
  {
    hide Goes, RecoverOne;
    assert Recovered(ms, ms[2..]) == [RecoverOne(ms, ms[2])] + Recovered(ms, ms[2..][1..]);
    assert ms[1..][1..] == ms[2..];
    assert Recovered(ms, ms[1..]) == Recovered(ms, ms[2..]);
  }

  lemma OpenOfTwo(one: Message, two: Message)
    requires !one.isUser && !two.isUser && IsOpen(one) && IsOpen(two)
    ensures OpenInTurn([one, two]) == 2
  {
    hide IsOpen;
    assert [one, two][..1] == [one];
    assert OpenInTurn([one]) == OpenInTurn([one][..0]) + 1;
  }

  lemma OpenOfThree(first: Message, answer: Message, second: Message)
    requires answer.isUser && !second.isUser && IsOpen(second)
    ensures OpenInTurn([first, answer, second]) == 1
  {
    hide IsOpen;
    assert [first, answer, second][..2] == [first, answer];
  }

  lemma {:induction false} NoLatestReply(ms: seq<Message>, asked: Message)
    requires forall m <- ms :: IsReplyTo(m, asked) ==> !m.backed
    ensures LatestReplyAt(ms, asked) == 0
  {
    if ms != [] { NoLatestReply(ms[1..], asked); }
  }

  lemma NoBackedReply(ms: seq<Message>, asked: Message)
    requires forall m <- ms :: IsReplyTo(m, asked) ==> !m.backed
    ensures !WasDelivered(ms, asked)
  {
    NoLatestReply(ms, asked);
  }

  lemma FailedIsOpen(q: Question)
    requires q.delivery == Pending
    ensures NeedsAction(Recover(q, false))
  {
  }

  /** `steps` is a legal life from an empty chat, and `ms` is where it ends. */
  predicate Reaches(steps: seq<Step>, ms: seq<Message>) {
    Legal([], steps) && Run([], steps) == ms
  }

  lemma {:induction false} RunSnoc(ms: seq<Message>, steps: seq<Step>, step: Step)
    requires Legal(ms, steps) && Enabled(Run(ms, steps), step)
    ensures Legal(ms, steps + [step]) && Run(ms, steps + [step]) == Next(Run(ms, steps), step)
    decreases |steps|
  {
    hide Next, Enabled;
    if steps == [] {
      assert [step][1..] == [];
    } else {
      RunSnoc(Next(ms, steps[0]), steps[1..], step);
      assert (steps + [step])[1..] == steps[1..] + [step];
    }
  }

  lemma Extend(steps: seq<Step>, ms: seq<Message>, step: Step)
    requires Reaches(steps, ms) && Enabled(ms, step)
    ensures Reaches(steps + [step], Next(ms, step))
  {
    hide Next, Enabled;
    RunSnoc([], steps, step);
  }

  lemma FirstAsked() returns (steps: seq<Step>)
    ensures Reaches(steps, [Asked("q1", 1)])
  {
    steps := [DoPost(Asked("q1", 1), true)];
    assert Reaches([], []);
    Extend([], [], steps[0]);
    assert [] + steps == steps;
  }

  /** The first question with its answer, which is on its way. */
  function Answered(): Message {
    Asked("q1", 1).(question := Some(Chosen("q1", 2)))
  }

  lemma FirstAnswered() returns (steps: seq<Step>)
    ensures Reaches(steps, [Answered()])
  {
    var before := FirstAsked();
    var step := DoAnswer(0, Input("q1", "yes", ""), true, 2);
    hide Reaches, Answer;
    Extend(before, [Asked("q1", 1)], step);
    AnswerIsChosen("q1", 2);
    assert Next([Asked("q1", 1)], step) == [Answered()];
    steps := before + [step];
  }

  lemma AnswerShown() returns (steps: seq<Step>)
    ensures Reaches(steps, [Answered(), Said("r1", 2)])
  {
    var before := FirstAnswered();
    hide Reaches;
    Extend(before, [Answered()], DoAppend(Said("r1", 2)));
    assert Next([Answered()], DoAppend(Said("r1", 2))) == [Answered(), Said("r1", 2)];
    steps := before + [DoAppend(Said("r1", 2))];
  }

  lemma SecondAsked() returns (steps: seq<Step>)
    ensures Reaches(steps, [Answered(), Said("r1", 2), Asked("q2", 3)])
  {
    var before := AnswerShown();
    hide Reaches;
    var chat := [Answered(), Said("r1", 2)];
    assert OpenInTurn(chat) == 0;
    Extend(before, chat, DoPost(Asked("q2", 3), true));
    assert Next(chat, DoPost(Asked("q2", 3), true)) == [Answered(), Said("r1", 2), Asked("q2", 3)];
    steps := before + [DoPost(Asked("q2", 3), true)];
  }

  /**
   * Butler asks, the operator answers, the answer is put into the chat, Butler asks again, and the process dies before
   * the first answer has reached the provider. After the restart both questions are open in one turn.
   */
  lemma RecoveryMayJoinTwoOpenQuestions() returns (steps: seq<Step>, before: seq<Message>, after: seq<Message>)
    ensures Reaches(steps, before) && Reaches(steps + [DoRecover], after)
    ensures OpenInTurn(before) == 1 && OpenInTurn(after) == 2
  {
    hide Reaches, OpenInTurn, Recovered, Answered, Said, Asked;
    before := [Answered(), Said("r1", 2), Asked("q2", 3)];
    steps := SecondAsked();
    after := Recovered(before, before);
    Extend(steps, before, DoRecover);
    TheChatJoins();
  }

  lemma TheChatJoins()
    ensures var chat := [Answered(), Said("r1", 2), Asked("q2", 3)];
            OpenInTurn(chat) == 1 && OpenInTurn(Recovered(chat, chat)) == 2
  {
    hide OpenInTurn, Recovered;
    assert !IsAnswered(OneItem("q2").root) && OneItem("q2").root in ItemsOf(OneItem("q2"));
    AnswerBetweenTwo(Answered(), Said("r1", 2), Asked("q2", 3));
  }
}
