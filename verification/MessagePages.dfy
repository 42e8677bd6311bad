/**
 * The transcript in pages (buildMessagePage in butler-agent-helpers.ts) and without repeated prompts
 * (collapseDuplicateVisibleUserMessages in butler-agent-session.ts).
 */
module MessagePages {
  import opened Options

  const DEFAULT_LIMIT := 80
  const MAX_PAGE := 1_000

  datatype Page<T> = Page(messages: seq<T>, startIndex: nat, endIndex: nat, hasMore: bool)

  function Min(a: int, b: int): int {
    if a < b then a else b
  }

  function Max(a: int, b: int): int {
    if a > b then a else b
  }

  /** None stands for a limit that is not a finite number. */
  function CappedLimit(limit: Option<int>): (n: nat)
    ensures 1 <= n <= MAX_PAGE
  {
    Max(1, Min(limit.GetOr(DEFAULT_LIMIT), MAX_PAGE))
  }

  function BuildPage<T>(messages: seq<T>, before: Option<int>, limit: Option<int>): (p: Page<T>)
    ensures p.startIndex <= p.endIndex <= |messages| && p.messages == messages[p.startIndex..p.endIndex]
    ensures p.endIndex > 0 ==> p.startIndex < p.endIndex
  {
    var end := if before.Some? then Max(0, Min(before.value, |messages|)) else |messages|;
    var start := Max(0, end - CappedLimit(limit));
    Page(messages[start..end], start, end, start > 0)
  }

  /** The pages from the given one back to the beginning, each asked for with the start of the one after it. */
  function PagesBack<T>(messages: seq<T>, before: Option<int>, limit: Option<int>): seq<Page<T>>
    decreases BuildPage(messages, before, limit).startIndex
  {
    var p := BuildPage(messages, before, limit);
    if !p.hasMore then [p] else [p] + PagesBack(messages, Some(p.startIndex), limit)
  }

  /** The pages in reading order. */
  function Joined<T>(pages: seq<Page<T>>): seq<T> {
    if pages == [] then [] else Joined(pages[1..]) + pages[0].messages
  }

  lemma {:induction false} PagesEndAt<T>(messages: seq<T>, before: Option<int>, limit: Option<int>)
    ensures Joined(PagesBack(messages, before, limit)) == messages[..BuildPage(messages, before, limit).endIndex]
    ensures forall p <- PagesBack(messages, before, limit) ::
              |p.messages| <= CappedLimit(limit) && (p.hasMore ==> |p.messages| == CappedLimit(limit))
              && (p.hasMore <==> p.startIndex > 0)
    decreases BuildPage(messages, before, limit).startIndex
  {
    var p := BuildPage(messages, before, limit);
    if p.hasMore {
      var rest := PagesBack(messages, Some(p.startIndex), limit);
      PagesEndAt(messages, Some(p.startIndex), limit);
      assert ([p] + rest)[1..] == rest;
      assert messages[..p.startIndex] + p.messages == messages[..p.endIndex];
    } else {
      assert [p][1..] == [];
      assert Joined([p]) == Joined([p][1..]) + p.messages;
    }
  }

  /**
   * Walking back from the end gives every message exactly once, in order. A page holds as many messages as were asked
   * for, at least one and at most a thousand, eighty if no number was given; only the page that begins the history may
   * hold fewer.
   */
  lemma PagesPartitionTheHistory<T>(messages: seq<T>, limit: Option<int>)
    ensures Joined(PagesBack(messages, None, limit)) == messages
    ensures forall p <- PagesBack(messages, None, limit) ::
              var n := match limit
                       case None => 80
                       case Some(asked) => if asked < 1 then 1 else if asked > 1_000 then 1_000 else asked;
              |p.messages| <= n && (p.hasMore ==> |p.messages| == n) && (p.hasMore <==> p.startIndex > 0)
  {
    PagesEndAt(messages, None, limit);
    assert messages[..|messages|] == messages;
  }

  // ---------------------------------------------------------------- repeated prompts

  /** `shown` is the text the operator sees, trimmed. */
  datatype Message = Message(isUser: bool, shown: string, at: int)

  const REPEAT_MS := 30_000

  predicate Repeats(previous: Message, m: Message) {
    previous.isUser && m.isUser && previous.shown == m.shown && -REPEAT_MS <= previous.at - m.at <= REPEAT_MS
  }

  function Collapsed(ms: seq<Message>): seq<Message> {
    if ms == [] then []
    else
      var before := Collapsed(ms[..|ms| - 1]);
      if before != [] && Repeats(before[|before| - 1], ms[|ms| - 1]) then before else before + [ms[|ms| - 1]]
  }

  method CollapseRepeats(ms: seq<Message>) returns (collapsed: seq<Message>)
    ensures collapsed == Collapsed(ms)
  {
    collapsed := [];
    for i := 0 to |ms|
      invariant collapsed == Collapsed(ms[..i])
    {
      assert ms[..i + 1][..i] == ms[..i];
      if |collapsed| > 0 && Repeats(collapsed[|collapsed| - 1], ms[i]) { continue; }
      collapsed := collapsed + [ms[i]];
    }
    assert ms[..|ms|] == ms;
  }

  /** The same prompt twice within half a minute. */
  predicate IsRepeated(previous: Message, m: Message) {
    && previous.isUser && m.isUser && previous.shown == m.shown
    && (if previous.at <= m.at then m.at - previous.at else previous.at - m.at) <= 30_000
  }

  predicate NoRepeats(ms: seq<Message>) {
    forall i :: 0 <= i < |ms| - 1 ==> !IsRepeated(ms[i], ms[i + 1])
  }

  /** No prompt stands twice in a row, and only repeated prompts are taken out. */
  lemma {:induction false} CollapsedHasNoRepeats(ms: seq<Message>)
    ensures NoRepeats(Collapsed(ms))
    ensures forall m <- ms :: !m.isUser ==> m in Collapsed(ms)
    ensures forall m <- ms :: exists k <- Collapsed(ms) :: k == m || IsRepeated(k, m)
  {
    if ms != [] {
      CollapsedHasNoRepeats(ms[..|ms| - 1]);
      assert ms == ms[..|ms| - 1] + [ms[|ms| - 1]];
      var before := Collapsed(ms[..|ms| - 1]);
      var after := Collapsed(ms);
      assert after[|after| - 1] in after;
      forall k | k in before ensures k in after { }
    }
  }

  /** Collapsing is exact: a list without repeats is left alone, so a second pass changes nothing. */
  lemma {:induction false} NothingLeftToCollapse(ms: seq<Message>)
    ensures Collapsed(ms) == ms <==> NoRepeats(ms)
  {
    hide Repeats, IsRepeated;
    RepeatsMean();
    CollapsedHasNoRepeats(ms);
    if ms != [] {
      var init, last := ms[..|ms| - 1], ms[|ms| - 1];
      CollapsedIsShorter(init);
      NothingLeftToCollapse(init);
      if NoRepeats(ms) && init != [] { assert !IsRepeated(ms[|ms| - 2], ms[|ms| - 1]); }
      assert Collapsed(ms) == ms ==> Collapsed(init) == init;
    }
  }

  lemma RepeatsMean()
    ensures forall k, m :: Repeats(k, m) <==> IsRepeated(k, m)
  {
  }

  lemma {:induction false} CollapsedIsShorter(ms: seq<Message>)
    ensures |Collapsed(ms)| <= |ms|
  {
    if ms != [] { CollapsedIsShorter(ms[..|ms| - 1]); }
  }
}
