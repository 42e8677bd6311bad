/**
 * Texts that are put together under a budget: what Butler did since the operator's request
 * (buildCurrentOperatorTurnContext) and the brief of an adversarial review (buildCallbackAdversarialReviewBrief),
 * both in butler-callback-review-runner.ts.
 */
module TurnContext {
  import opened Options
  import opened Texts

  const MAX_ENTRY_CHARS := 2_000
  const MAX_CONTEXT_CHARS := 12_000
  const SEPARATOR := "\n\n"

  /** `text` is the content as plain text; `safe` the same after secrets were taken out of it. */
  datatype Entry =
    | Operator(text: string)
    | ByButler(text: string, safe: string)
    | Evidence(tool: string, text: string, safe: string)   // a result of one of the tools that count as evidence
    | Ignored

  function Tail(s: string, n: nat): string {
    if |s| <= n then s else s[|s| - n..]
  }

  function Join(lines: seq<string>): string {
    if lines == [] then ""
    else if |lines| == 1 then lines[0]
    else lines[0] + SEPARATOR + Join(lines[1..])
  }

  // ---------------------------------------------------------------- the lines since the request

  function Anchor(entries: seq<Entry>, request: string): (k: Option<nat>)
    ensures k.Some? ==> k.value < |entries| && entries[k.value].Operator? && Trim(entries[k.value].text) == request
    ensures forall j ::
            0 <= j < |entries| && (k.None? || k.value < j)
            ==> !(entries[j].Operator? && Trim(entries[j].text) == request)
  {
    if entries == [] then None
    else
      var last := entries[|entries| - 1];
      if last.Operator? && Trim(last.text) == request then Some(|entries| - 1)
      else Anchor(entries[..|entries| - 1], request)
  }

  function LineOf(e: Entry): Option<string> {
    match e
    case ByButler(text, safe) =>
      if Trim(text) == "" || Trim(safe) == "" then None else Some("Butler: " + Tail(Trim(safe), MAX_ENTRY_CHARS))
    case Evidence(tool, text, safe) =>
      if Trim(text) == "" || Trim(safe) == "" then None
      else Some("Butler tool result (" + tool + "): " + Tail(Trim(safe), MAX_ENTRY_CHARS))
    case _ => None
  }

  /** The lines up to the next operator message. */
  function Lines(entries: seq<Entry>): seq<string> {
    if entries == [] || entries[0].Operator? then []
    else (if LineOf(entries[0]).Some? then [LineOf(entries[0]).value] else []) + Lines(entries[1..])
  }

  predicate Speaks(e: Entry) {
    LineOf(e).Some?
  }

  /** The operator's next message ends the lines; nothing after it appears, and every line is one entry's, in order. */
  lemma {:induction false} LinesEndAtTheNextMessage(turn: seq<Entry>, rest: seq<Entry>)
    requires forall e <- turn :: !e.Operator?
    requires rest == [] || rest[0].Operator?
    ensures Lines(turn + rest) == Lines(turn)
    ensures |Lines(turn)| <= |turn| && forall line <- Lines(turn) :: exists e <- turn :: LineOf(e) == Some(line)
    ensures forall e <- turn :: Speaks(e) ==> LineOf(e).value in Lines(turn)
  {
    hide LineOf;
    if turn == [] {
      assert turn + rest == rest;
    } else {
      assert (turn + rest)[0] == turn[0] && (turn + rest)[1..] == turn[1..] + rest;
      assert turn == [turn[0]] + turn[1..];
      LinesEndAtTheNextMessage(turn[1..], rest);
    }
  }

  /**
   * What speaks is a message of Butler's or a result of an evidence tool whose text is not blank, neither before nor
   * after secrets were taken out; and its line quotes the last two thousand characters of the safe text, or all of it.
   */
  lemma LinesQuoteTheEnd(e: Entry)
    ensures Speaks(e) <==> (e.ByButler? || e.Evidence?) && !Blank(e.text) && !Blank(e.safe)
    ensures Speaks(e) ==>
              exists quoted :: LineOf(e).value == Title(e) + quoted && quoted == Tail(Trim(e.safe), |quoted|)
                               && (|quoted| == 2_000 || (|quoted| < 2_000 && quoted == Trim(e.safe) && quoted != ""))
  {
    if e.ByButler? || e.Evidence? {
      BlankTexts(e.text);
      BlankTexts(e.safe);
      hide Trim;
      var quoted := Tail(Trim(e.safe), MAX_ENTRY_CHARS);
      assert quoted == Tail(Trim(e.safe), |quoted|);
    }
  }

  function Title(e: Entry): string {
    if e.Evidence? then "Butler tool result (" + e.tool + "): " else "Butler: "
  }

  // ---------------------------------------------------------------- the budget

  /** The newest lines that fit; the last one taken may be cut to its end. */
  function Select(lines: seq<string>, used: nat): seq<string>
    decreases |lines|
  {
    if lines == [] || used >= MAX_CONTEXT_CHARS then []
    else
      var line, remaining := lines[|lines| - 1], MAX_CONTEXT_CHARS - used;
      var taken := Tail(line, remaining);
      Select(lines[..|lines| - 1], used + |taken| + 2) + [taken]
  }

  method SelectLines(lines: seq<string>) returns (selected: seq<string>)
    ensures selected == Select(lines, 0)
  {
    selected := [];
    var selectedChars := 0;
    var i := |lines|;
    assert lines[..i] == lines;
    while i > 0
      invariant 0 <= i <= |lines| && selectedChars >= 0
      invariant Select(lines, 0) == Select(lines[..i], selectedChars) + selected
    {
      var remaining := MAX_CONTEXT_CHARS - selectedChars;
      if remaining <= 0 { break; }
      var line := lines[i - 1];
      assert lines[..i][..i - 1] == lines[..i - 1];
      selected := [Tail(line, remaining)] + selected;
      selectedChars := selectedChars + (if |line| < remaining then |line| else remaining) + 2;
      i := i - 1;
    }
  }

  function Context(entries: seq<Entry>, operatorRequest: Option<string>): Option<string> {
    if operatorRequest.None? || Trim(operatorRequest.value) == "" then None
    else
      var anchor := Anchor(entries, Trim(operatorRequest.value));
      if anchor.None? then None
      else NonEmpty(Trim(Join(Select(Lines(entries[anchor.value + 1..]), 0))))
  }

  // ---------------------------------------------------------------- theorems

  function JoinedLength(lines: seq<string>): nat {
    if lines == [] then 0 else |lines[0]| + 2 + JoinedLength(lines[1..])
  }

  lemma {:induction false} JoinLength(lines: seq<string>)
    ensures |Join(lines)| == if lines == [] then 0 else JoinedLength(lines) - 2
  {
    if |lines| > 1 { JoinLength(lines[1..]); }
  }

  lemma {:induction false} JoinedLengthOfSum(a: seq<string>, b: seq<string>)
    ensures JoinedLength(a + b) == JoinedLength(a) + JoinedLength(b)
  {
    if a == [] {
      assert a + b == b;
    } else {
      JoinedLengthOfSum(a[1..], b);
      assert (a + b)[1..] == a[1..] + b;
    }
  }

  /** `selected` is the end of `lines`, whole lines except that the oldest may have lost its beginning. */
  ghost predicate NewestLines(selected: seq<string>, lines: seq<string>) {
    |selected| <= |lines| &&
    var k := |lines| - |selected|;
    && (forall i :: 1 <= i < |selected| ==> selected[i] == lines[k + i])
    && (selected != [] ==> exists n: nat :: selected[0] == Tail(lines[k], n))
  }

  /** The selection is always the newest lines, in order, only the oldest cut. */
  lemma {:induction false} SelectionIsNewest(lines: seq<string>, used: nat)
    ensures NewestLines(Select(lines, used), lines)
    decreases |lines|
  {
    hide Tail;
    if lines != [] && used < MAX_CONTEXT_CHARS {
      var init, line := lines[..|lines| - 1], lines[|lines| - 1];
      var taken := Tail(line, MAX_CONTEXT_CHARS - used);
      var rest := Select(init, used + |taken| + 2);
      SelectionIsNewest(init, used + |taken| + 2);
      WholeOrLast(line, used);
      NewestGrows(rest, init, line, taken, MAX_CONTEXT_CHARS - used);
    }
  }

  /** A line that is cut uses up the budget. */
  lemma WholeOrLast(line: string, used: nat)
    requires used < MAX_CONTEXT_CHARS
    ensures var taken := Tail(line, MAX_CONTEXT_CHARS - used);
            && used + |taken| <= MAX_CONTEXT_CHARS
            && (taken != line ==> used + |taken| == MAX_CONTEXT_CHARS)
  {
  }

  lemma NewestGrows(rest: seq<string>, init: seq<string>, line: string, taken: string, n: nat)
    requires NewestLines(rest, init) && taken == Tail(line, n) && (taken == line || rest == [])
    ensures NewestLines(rest + [taken], init + [line])
  {
    hide Tail;
    var lines, all := init + [line], rest + [taken];
    var k := |lines| - |all|;
    if rest != [] {
      var m: nat :| rest[0] == Tail(init[|init| - |rest|], m);
      assert all[0] == rest[0] && lines[k] == init[|init| - |rest|];
      assert all[0] == Tail(lines[k], m);
    } else {
      assert all[0] == taken && lines[k] == line;
      assert all[0] == Tail(lines[k], n);
    }
    forall i | 1 <= i < |all| ensures all[i] == lines[k + i] {
      if i == |rest| { assert all[i] == taken && lines[k + i] == line; }
    }
  }

  /**
   * The selection fits what is left of the budget, and unless it is everything it leaves at most two characters unused.
   */
  lemma {:induction false} SelectionFits(lines: seq<string>, used: nat)
    ensures var s := Select(lines, used);
            && (s != [] ==> used + JoinedLength(s) <= MAX_CONTEXT_CHARS + 2)
            && (s != lines ==> used + JoinedLength(s) >= MAX_CONTEXT_CHARS)
    decreases |lines|
  {
    hide Tail;
    if lines != [] && used < MAX_CONTEXT_CHARS {
      var init, line := lines[..|lines| - 1], lines[|lines| - 1];
      var taken := Tail(line, MAX_CONTEXT_CHARS - used);
      WholeOrLast(line, used);
      SelectionFits(init, used + |taken| + 2);
      JoinedLengthOfSum(Select(init, used + |taken| + 2), [taken]);
      assert JoinedLength([taken]) == |taken| + 2;
      assert lines == init + [line];
    }
  }

  lemma {:induction false} TrimIsShorter(s: string)
    ensures |TrimEnd(s)| <= |s|
  {
    if s != [] && Space(s[|s| - 1]) { TrimIsShorter(s[..|s| - 1]); }
  }

  /**
   * The context never exceeds its 12,000 characters. It is the newest of the lines since the operator's latest message
   * that is the request, in their order, with at most the oldest cut, and unless all of them are there it falls short
   * of the limit by two characters at most.
   */
  lemma ContextFits(entries: seq<Entry>, request: Option<string>)
    requires Context(entries, request).Some?
    ensures |Context(entries, request).value| <= MAX_CONTEXT_CHARS
    ensures request.Some? && Anchor(entries, Trim(request.value)).Some?
    ensures var lines := Lines(entries[Anchor(entries, Trim(request.value)).value + 1..]);
            exists selected ::
              && NewestLines(selected, lines)
              && Context(entries, request).value == Trim(Join(selected))
              && (selected != lines ==> |Join(selected)| >= MAX_CONTEXT_CHARS - 2)
  {
    hide Lines, Select, NewestLines, Trim, TrimStart, TrimEnd;
    var anchor := Anchor(entries, Trim(request.value)).value;
    var lines := Lines(entries[anchor + 1..]);
    var selected := Select(lines, 0);
    SelectionIsNewest(lines, 0);
    SelectionFits(lines, 0);
    JoinLength(selected);
    TrimShortens(Join(selected));
    assert NewestLines(selected, lines);
  }

  /**
   * There is a context if and only if there is a request, the operator has made it, and something was said by Butler or
   * its evidence tools between its latest making and the operator's next message.
   */
  lemma ContextIsThere(entries: seq<Entry>, request: Option<string>)
    ensures Context(entries, request).Some?
            <==> request.Some? && Trim(request.value) != "" && Anchor(entries, Trim(request.value)).Some?
                 && Lines(entries[Anchor(entries, Trim(request.value)).value + 1..]) != []
  {
    hide Lines, Trim, Select, Join;
    if request.Some? && Trim(request.value) != "" && Anchor(entries, Trim(request.value)).Some? {
      var rest := entries[Anchor(entries, Trim(request.value)).value + 1..];
      var joined := Join(Select(Lines(rest), 0));
      BlankTexts(joined);
      assert !Blank(joined) <==> Lines(rest) != [] by { SelectedSpeaks(rest); }
    }
  }

  lemma SelectedSpeaks(entries: seq<Entry>)
    ensures !Blank(Join(Select(Lines(entries), 0))) <==> Lines(entries) != []
  {
    hide LineOf;
    var lines := Lines(entries);
    if lines != [] {
      LinesEndInText(entries);
      var last := lines[|lines| - 1];
      var taken := Tail(last, MAX_CONTEXT_CHARS);
      assert taken[|taken| - 1] == last[|last| - 1];
      assert Select(lines, 0) == Select(lines[..|lines| - 1], |taken| + 2) + [taken];
      JoinEndsInLast(Select(lines[..|lines| - 1], |taken| + 2), taken);
      var joined := Join(Select(lines, 0));
      assert joined[|joined| - 1] in joined;
    }
  }

  lemma {:induction false} JoinEndsInLast(lines: seq<string>, last: string)
    requires last != ""
    ensures var joined := Join(lines + [last]); joined != "" && joined[|joined| - 1] == last[|last| - 1]
  {
    if lines != [] {
      JoinEndsInLast(lines[1..], last);
      assert (lines + [last])[0] == lines[0] && (lines + [last])[1..] == lines[1..] + [last];
    }
  }

  lemma {:induction false} LinesEndInText(entries: seq<Entry>)
    ensures forall line <- Lines(entries) :: line != "" && !Space(line[|line| - 1])
  {
    hide LineOf, Space;
    if entries != [] && !entries[0].Operator? {
      LinesEndInText(entries[1..]);
      LineEndsInText(entries[0]);
    }
  }

  lemma LineEndsInText(e: Entry)
    ensures LineOf(e).Some? ==> var line := LineOf(e).value; line != "" && !Space(line[|line| - 1])
  {
    hide Trim, Space;
    if LineOf(e).Some? {
      var before, after := TrimIsTheMiddle(e.safe);
      var line := LineOf(e).value;
      assert line[|line| - 1] == Trim(e.safe)[|Trim(e.safe)| - 1];
    }
  }

  lemma TrimShortens(s: string)
    ensures |Trim(s)| <= |s|
  {
    TrimIsShorter(TrimStart(s));
  }

  // ---------------------------------------------------------------- the review brief

  function Omission(): (s: string)
    ensures |s| == 24
  {
    "\n...[middle omitted]...\n"
  }

  /** A section longer than its bound keeps its beginning and its end. */
  function Bounded(value: Option<string>, maxChars: nat): Option<string>
    requires maxChars >= 26
  {
    if value.None? || |value.value| <= maxChars then value
    else
      var retained := maxChars - |Omission()|;
      var head := (retained + 1) / 2;
      Some(value.value[..head] + Omission() + Tail(value.value, retained - head))
  }

  lemma BoundedFits(value: Option<string>, maxChars: nat)
    requires maxChars >= 26
    ensures value.Some? <==> Bounded(value, maxChars).Some?
    ensures AtMost(Bounded(value, maxChars), maxChars)
    ensures AtMost(value, maxChars) ==> Bounded(value, maxChars) == value
  {
    hide Omission;
  }

  /** What is cut out of a section is its middle: as much is kept of its end as of its beginning, give or take one. */
  lemma BoundedKeepsBothEnds(value: string, maxChars: nat) returns (head: string, tail: string)
    requires maxChars >= 26 && |value| > maxChars
    ensures Bounded(Some(value), maxChars).value == head + Omission() + tail
    ensures head <= value && tail == Tail(value, |tail|)
    ensures |head| + 24 + |tail| == maxChars && 0 <= |head| - |tail| <= 1
  {
    hide Omission;
    var retained := maxChars - 24;
    head, tail := value[..(retained + 1) / 2], Tail(value, retained - (retained + 1) / 2);
  }

  datatype BriefInput = BriefInput(
    request: Option<string>,
    steer: Option<string>,
    checklist: Option<string>,
    findings: Option<string>,
    directive: Option<string>,
    directiveIsHeld: bool,
    held: Option<string>)

  /** The fixed words in front of each section; the bounds hold whatever they are. */
  datatype Wording = Wording(request: string, reminder: string, steer: string, checklist: string, findings: string,
                             directive: string, heldDirective: string, held: string)

  function Titled(title: string, body: Option<string>): Option<string> {
    if body.Some? then Some(title + body.value) else None
  }

  function Sections(w: Wording, b: BriefInput): seq<Option<string>> {
    [ Bounded(Titled(w.request, b.request), 3_200),
      Bounded(if b.request.Some? then Some(w.reminder) else None, 250),
      Bounded(Titled(w.steer, b.steer), 1_200),
      Bounded(Titled(w.checklist, b.checklist), 2_600),
      Bounded(Titled(w.findings, b.findings), 1_800),
      Bounded(if b.directiveIsHeld then None else Titled(w.directive, b.directive), 1_700),
      Bounded(if b.directiveIsHeld then Titled(w.heldDirective, b.directive) else None, 1_700),
      Bounded(Titled(w.held, b.held), 900) ]
  }

  function AsLine(section: Option<string>): seq<string> {
    if section.Some? && section.value != "" then [section.value] else []
  }

  function Present(sections: seq<Option<string>>): seq<string> {
    if sections == [] then [] else AsLine(sections[0]) + Present(sections[1..])
  }

  function Brief(w: Wording, b: BriefInput): string {
    var text := Join(Present(Sections(w, b)));
    if |text| > 12_000 then text[..12_000] else text
  }

  predicate AtMost(section: Option<string>, n: nat) {
    section.Some? ==> |section.value| <= n
  }

  lemma {:induction false} SectionLengths(w: Wording, b: BriefInput)
    ensures var s := Sections(w, b);
            && |s| == 8
            && AtMost(s[0], 3_200) && AtMost(s[1], 250) && AtMost(s[2], 1_200) && AtMost(s[3], 2_600)
            && AtMost(s[4], 1_800)
            && AtMost(s[5], 1_700) && AtMost(s[6], 1_700) && AtMost(s[7], 900) && (s[5].None? || s[6].None?)
  {
    hide Bounded, AtMost;
    BoundedFits(Titled(w.request, b.request), 3_200);
    BoundedFits(if b.request.Some? then Some(w.reminder) else None, 250);
    BoundedFits(Titled(w.steer, b.steer), 1_200);
    BoundedFits(Titled(w.checklist, b.checklist), 2_600);
    BoundedFits(Titled(w.findings, b.findings), 1_800);
    BoundedFits(if b.directiveIsHeld then None else Titled(w.directive, b.directive), 1_700);
    BoundedFits(if b.directiveIsHeld then Titled(w.heldDirective, b.directive) else None, 1_700);
    BoundedFits(Titled(w.held, b.held), 900);
  }

  function Weight(section: Option<string>): nat {
    if section.Some? && section.value != "" then |section.value| + 2 else 0
  }

  function SumOf(sections: seq<Option<string>>): nat {
    if sections == [] then 0 else Weight(sections[0]) + SumOf(sections[1..])
  }

  lemma {:induction false} PresentLength(sections: seq<Option<string>>)
    ensures JoinedLength(Present(sections)) == SumOf(sections)
  {
    if sections != [] {
      var head := AsLine(sections[0]);
      PresentLength(sections[1..]);
      JoinedLengthOfSum(head, Present(sections[1..]));
      assert JoinedLength(head) == Weight(sections[0]);
    }
  }

  lemma SumFrom(s: seq<Option<string>>, k: nat)
    requires k < |s|
    ensures SumOf(s[k..]) == Weight(s[k]) + SumOf(s[k + 1..])
  {
    assert s[k..][1..] == s[k + 1..];
  }

  lemma SumOfEight(s: seq<Option<string>>)
    requires |s| == 8
    ensures SumOf(s) == Weight(s[0]) + Weight(s[1]) + Weight(s[2]) + Weight(s[3]) + Weight(s[4]) + Weight(s[5])
            + Weight(s[6]) + Weight(s[7])
  {
    hide SumOf;
    SumFrom(s, 0); SumFrom(s, 1); SumFrom(s, 2); SumFrom(s, 3); SumFrom(s, 4); SumFrom(s, 5); SumFrom(s, 6);
      SumFrom(s, 7);
    assert s[0..] == s;
    NoSum(s[8..]);
  }

  lemma NoSum(s: seq<Option<string>>)
    requires s == []
    ensures SumOf(s) == 0
  {
  }

  lemma SumFits(s: seq<Option<string>>)
    requires |s| == 8 && (s[5].None? || s[6].None?)
    requires AtMost(s[0], 3_200) && AtMost(s[1], 250) && AtMost(s[2], 1_200) && AtMost(s[3], 2_600)
             && AtMost(s[4], 1_800)
    requires AtMost(s[5], 1_700) && AtMost(s[6], 1_700) && AtMost(s[7], 900)
    ensures SumOf(s) <= 11_664
  {
    hide SumOf;
    SumOfEight(s);
    assert Weight(s[5]) + Weight(s[6]) <= 1_702;
  }

  /** The bounds of the sections add up to less than the final cut at 12,000, which therefore never cuts. */
  lemma BriefIsNeverCut(w: Wording, b: BriefInput)
    ensures Brief(w, b) == Join(Present(Sections(w, b)))
    ensures |Brief(w, b)| <= 11_662
  {
    hide Sections, Present, Join, JoinedLength, SumOf, AtMost;
    var s := Sections(w, b);
    SectionLengths(w, b);
    SumFits(s);
    PresentLength(s);
    JoinLength(Present(s));
  }

  /** `k` characters of the beginning are shown, and as many of the end or one less, with the remark between them. */
  predicate ShowsEnds(text: string, shown: string, k: nat, n: nat) {
    && k <= n - 24 && 0 <= 2 * k - (n - 24) <= 1 && n <= |text|
    && shown == text[..k] + Omission() + text[|text| - (n - 24 - k)..]
  }

  /** The text as a section bounded by `n` shows it: all of it if it fits, else its two ends in `n` characters. */
  ghost predicate IsShown(text: string, section: Option<string>, n: nat) {
    section.Some?
    && if |text| <= n then section.value == text
       else |section.value| == n && exists k: nat :: ShowsEnds(text, section.value, k, n)
  }

  /** The section is there exactly if there is something to show under that title, and then shows it. */
  ghost predicate Shows(title: string, body: Option<string>, section: Option<string>, n: nat) {
    if body.Some? then IsShown(title + body.value, section, n) else section.None?
  }

  lemma BoundedIsShown(text: string, n: nat)
    requires n >= 26
    ensures IsShown(text, Bounded(Some(text), n), n)
  {
    if |text| > n {
      assert ShowsEnds(text, Bounded(Some(text), n).value, (n - 23) / 2, n);
    }
  }

  lemma BoundedShows(title: string, body: Option<string>, n: nat)
    requires n >= 26
    ensures Shows(title, body, Bounded(Titled(title, body), n), n)
  {
    hide IsShown, Bounded;
    if body.Some? { BoundedIsShown(title + body.value, n); } else { NothingBounded(n); }
  }

  lemma NothingBounded(n: nat)
    requires n >= 26
    ensures Bounded(None, n) == None
  {
  }

  lemma PresentStep(s: seq<Option<string>>)
    ensures Present(s) == if s == [] then [] else AsLine(s[0]) + Present(s[1..])
  {
  }

  lemma {:induction false} PresentOfSum(a: seq<Option<string>>, b: seq<Option<string>>)
    ensures Present(a + b) == Present(a) + Present(b)
  {
    hide Present, AsLine;
    PresentStep(a);
    PresentStep(a + b);
    if a == [] {
      assert a + b == b;
    } else {
      PresentOfSum(a[1..], b);
      assert (a + b)[1..] == a[1..] + b;
    }
  }

  lemma PresentOfTwo(s: seq<Option<string>>)
    requires |s| == 2
    ensures Present(s) == AsLine(s[0]) + AsLine(s[1])
  {
    hide Present, AsLine;
    PresentStep(s);
    PresentStep(s[1..]);
    PresentStep(s[1..][1..]);
  }

  lemma PresentOfEight(s: seq<Option<string>>)
    requires |s| == 8
    ensures Present(s) == (AsLine(s[0]) + AsLine(s[1])) + (AsLine(s[2]) + AsLine(s[3]))
                          + (AsLine(s[4]) + AsLine(s[5])) + (AsLine(s[6]) + AsLine(s[7]))
  {
    hide AsLine, Present;
    PresentOfTwo(s[..2]);
    PresentOfTwo(s[2..4]);
    PresentOfTwo(s[4..6]);
    PresentOfTwo(s[6..]);
    PresentOfSum(s[..2], s[2..4]);
    PresentOfSum(s[..4], s[4..6]);
    PresentOfSum(s[..6], s[6..]);
    assert s[..4] == s[..2] + s[2..4] && s[..6] == s[..4] + s[4..6] && s == s[..6] + s[6..];
  }

  /**
   * What a brief holds, and in which order: the operator's request with its reminder, the steer, the checklist, the
   * findings, the directive under one of two titles, and the held context, each exactly if there is one, each whole or
   * with both its ends, and nothing else.
   */
  lemma BriefHolds(w: Wording, b: BriefInput)
    ensures exists s: seq<Option<string>> ::
              && |s| == 8
              && Brief(w, b) == Join((AsLine(s[0]) + AsLine(s[1])) + (AsLine(s[2]) + AsLine(s[3]))
                                     + (AsLine(s[4]) + AsLine(s[5])) + (AsLine(s[6]) + AsLine(s[7])))
              && Shows(w.request, b.request, s[0], 3_200)
              && (if b.request.Some? then IsShown(w.reminder, s[1], 250) else s[1].None?)
              && Shows(w.steer, b.steer, s[2], 1_200) && Shows(w.checklist, b.checklist, s[3], 2_600)
              && Shows(w.findings, b.findings, s[4], 1_800)
              && (if b.directiveIsHeld then s[5].None? && Shows(w.heldDirective, b.directive, s[6], 1_700)
                  else s[6].None? && Shows(w.directive, b.directive, s[5], 1_700))
              && Shows(w.held, b.held, s[7], 900)
  {
    hide Bounded, Shows, IsShown, Join, Present, AsLine, Titled;
    var s := Sections(w, b);
    BriefIsNeverCut(w, b);
    PresentOfEight(s);
    BoundedShows(w.request, b.request, 3_200);
    BoundedIsShown(w.reminder, 250);
    BoundedShows(w.steer, b.steer, 1_200);
    BoundedShows(w.checklist, b.checklist, 2_600);
    BoundedShows(w.findings, b.findings, 1_800);
    BoundedShows(w.directive, b.directive, 1_700);
    BoundedShows(w.heldDirective, b.directive, 1_700);
    BoundedShows(w.held, b.held, 900);
    NothingBounded(250);
    NothingBounded(1_700);
  }
}
