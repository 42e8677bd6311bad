/**
 * Cleaning the stored session history: ephemeral background turns are stripped, tool results without their call
 * are dropped, contents are made small (stripEphemeralButlerTurns, sanitizeHistoryMessages), and failed turns at
 * the end are cut off (dropTrailingFailedButlerTurns).
 */
module HistoryCleaning {
  import opened Options
  import opened Texts

  datatype Role = User | Assistant | ToolResult | OtherRole

  /** How a text begins, white space aside: not at all, with the ephemeral prompt prefix, or with anything else. */
  datatype Lead = Blank | Ephemeral | Plain

  /**
   * One entry of a content array. `cutLead` is the lead of the text once it is cut to its maximal length: cutting
   * keeps the beginning and appends a remark, so a lead can only become plain.
   */
  datatype Part = Bare(lead: Lead, cutLead: Lead) | Image(lead: Lead, cutLead: Lead) | Text(lead: Lead, cutLead: Lead)

  datatype Content = One(lead: Lead) | Parts(parts: seq<Part>)

  datatype Message = Message(role: Role, content: Content, calls: seq<string>, result: Option<string>, failed: bool)

  // ---------------------------------------------------------------- ephemeral turns

  /** A bare string in a content array is not looked at. */
  function Shown(part: Part): Lead {
    if part.Bare? then Blank else part.lead
  }

  /** The lead of the parts' texts joined together. */
  function LeadOf(parts: seq<Part>): Lead {
    if parts == [] then Blank else if Shown(parts[0]) != Blank then Shown(parts[0]) else LeadOf(parts[1..])
  }

  predicate StartsEphemeral(m: Message) {
    m.role == User && (if m.content.One? then m.content.lead else LeadOf(m.content.parts)) == Ephemeral
  }

  /** Whether messages are being dropped after the given ones. */
  predicate Dropping(ms: seq<Message>) {
    ms != [] &&
    var last := ms[|ms| - 1];
    StartsEphemeral(last) || (last.role != User && Dropping(ms[..|ms| - 1]))
  }

  function Stripped(ms: seq<Message>): seq<Message> {
    if ms == [] then []
    else Stripped(ms[..|ms| - 1]) + if Dropping(ms) then [] else [ms[|ms| - 1]]
  }

  method StripEphemeralTurns(ms: seq<Message>) returns (kept: seq<Message>)
    ensures kept == Stripped(ms)
  {
    var dropping := false;
    kept := [];
    for i := 0 to |ms|
      invariant kept == Stripped(ms[..i]) && dropping == Dropping(ms[..i])
    {
      assert ms[..i + 1][..i] == ms[..i];
      if StartsEphemeral(ms[i]) {
        dropping := true;
      } else {
        if dropping && ms[i].role == User { dropping := false; }
        if !dropping { kept := kept + [ms[i]]; }
      }
    }
    assert ms[..|ms|] == ms;
  }

  // ---------------------------------------------------------------- contents

  function CleanPart(part: Part, user: bool): seq<Part> {
    match part
    case Bare(lead, cutLead) => [Text(lead, cutLead)]    // made a text, but not cut before the next pass
    case Image(_, cutLead) => if user then [] else [Image(cutLead, cutLead)]
    case Text(_, cutLead) => [Text(cutLead, cutLead)]
  }

  function CleanParts(parts: seq<Part>, user: bool): seq<Part> {
    if parts == [] then [] else CleanPart(parts[0], user) + CleanParts(parts[1..], user)
  }

  /** sanitizeHistoryMessage; what it does to the details of a tool result is not modelled. */
  function Clean(m: Message): Message {
    if (m.role != User && m.role != ToolResult) || m.content.One? then m
    else
      var parts := CleanParts(m.content.parts, m.role == User);
      m.(content :=
        Parts(if m.role == User && |parts| < |m.content.parts| then parts + [Text(Plain, Plain)] else parts))
  }

  // ---------------------------------------------------------------- tool calls

  function IndexOf(s: string, c: char): (k: Option<nat>)
    ensures k.Some? ==> k.value < |s| && s[k.value] == c && c !in s[..k.value]
    ensures k.None? ==> c !in s
  {
    if s == [] then None
    else if s[0] == c then Some(0)
    else
      var rest := IndexOf(s[1..], c);
      if rest.Some? then Some(rest.value + 1) else None
  }

  function Aliases(id: string): set<string> {
    var trimmed := Trim(id);
    if trimmed == "" then {}
    else
      var pipe := IndexOf(trimmed, '|');
      if pipe.Some? then {trimmed, trimmed[..pipe.value]} else {trimmed}
  }

  function CallAliases(m: Message): set<string> {
    if m.role != Assistant then {} else set id, alias | id in m.calls && alias in Aliases(id) :: alias
  }

  function ResultAliases(m: Message): set<string> {
    if m.result.Some? then Aliases(m.result.value) else {}
  }

  /** A result that names a call needs one of the known calls; any other message stays. */
  predicate Stays(m: Message, known: set<string>) {
    ResultAliases(m) == {} || ResultAliases(m) * known != {}
  }

  /** The messages kept after the given ones, and the calls then known. */
  datatype Cleaned = Cleaned(kept: seq<Message>, known: set<string>)

  function Sweep(ms: seq<Message>): Cleaned {
    if ms == [] then Cleaned([], {})
    else
      var before := Sweep(ms[..|ms| - 1]);
      var m := Clean(ms[|ms| - 1]);
      if Stays(m, before.known) then Cleaned(before.kept + [m], before.known + CallAliases(m)) else before
  }

  function Sanitized(ms: seq<Message>): seq<Message> {
    Sweep(Stripped(ms)).kept
  }

  method SanitizeHistory(ms: seq<Message>) returns (kept: seq<Message>)
    ensures kept == Sanitized(ms)
  {
    hide Clean, Stays, CallAliases;
    var rest := StripEphemeralTurns(ms);
    kept := [];
    var known: set<string> := {};
    for i := 0 to |rest|
      invariant Cleaned(kept, known) == Sweep(rest[..i])
    {
      assert rest[..i + 1][..i] == rest[..i];
      var m := Clean(rest[i]);
      if Stays(m, known) {
        kept := kept + [m];
        known := known + CallAliases(m);
      }
    }
    assert rest[..|rest|] == rest;
  }

  // ---------------------------------------------------------------- theorems: stripping

  /** The user message whose turn the message at `i` belongs to. */
  function TurnStart(ms: seq<Message>, i: nat): (k: Option<nat>)
    requires i < |ms|
    ensures k.Some? ==> k.value <= i && ms[k.value].role == User && forall j :: k.value < j <= i ==> ms[j].role != User
    ensures k.None? ==> forall j :: 0 <= j <= i ==> ms[j].role != User
  {
    if ms[i].role == User then Some(i) else if i == 0 then None else TurnStart(ms, i - 1)
  }

  /** Dropping goes on exactly through the turn of an ephemeral prompt, to the next prompt. */
  lemma {:induction false} DroppingIsTheTurn(ms: seq<Message>, i: nat)
    requires i < |ms|
    ensures Dropping(ms[..i + 1]) <==> TurnStart(ms, i).Some? && StartsEphemeral(ms[TurnStart(ms, i).value])
  {
    assert ms[..i + 1][..i] == ms[..i];
    if i > 0 { DroppingIsTheTurn(ms, i - 1); }
  }

  /** No prompt that reads as ephemeral is left. */
  lemma {:induction false} NothingEphemeralIsLeft(ms: seq<Message>)
    ensures forall m <- Stripped(ms) :: !StartsEphemeral(m)
  {
    if ms != [] { NothingEphemeralIsLeft(ms[..|ms| - 1]); }
  }

  lemma {:induction false} StripKeepsPlain(ms: seq<Message>)
    requires forall m <- ms :: !StartsEphemeral(m)
    ensures Stripped(ms) == ms && !Dropping(ms)
  {
    hide StartsEphemeral;
    if ms != [] {
      var init := ms[..|ms| - 1];
      assert ms[|ms| - 1] in ms && forall m <- init :: m in ms;
      StripKeepsPlain(init);
      assert ms == init + [ms[|ms| - 1]];
    }
  }

  /** Stripping alone is done in one pass; it is the cleaning of contents that can bring a prompt to light. */
  lemma StrippingTwiceIsOnce(ms: seq<Message>)
    ensures Stripped(Stripped(ms)) == Stripped(ms)
  {
    NothingEphemeralIsLeft(ms);
    StripKeepsPlain(Stripped(ms));
  }

  lemma {:induction false} StripIsShorter(ms: seq<Message>)
    ensures |Stripped(ms)| <= |ms|
    ensures |Stripped(ms)| == |ms| ==> forall m <- ms :: !StartsEphemeral(m)
  {
    if ms != [] {
      StripIsShorter(ms[..|ms| - 1]);
      assert ms == ms[..|ms| - 1] + [ms[|ms| - 1]];
    }
  }

  // ---------------------------------------------------------------- theorems: contents

  /**
   * The part says afterwards what it said before, cut to length; a bare string is made a text and cut the next time.
   */
  predicate SaysTheSame(before: Part, after: Part) {
    if before.Bare? then after.Text? && after.lead == before.lead && after.cutLead == before.cutLead
    else after.Image? == before.Image? && after.Text? == before.Text?
         && after.lead == before.cutLead && after.cutLead == before.cutLead
  }

  lemma {:induction false} CleanPartsGrow(parts: seq<Part>, user: bool)
    requires parts != []
    ensures CleanParts(parts, user)
            == CleanParts(parts[..|parts| - 1], user) + CleanPart(parts[|parts| - 1], user)
  {
    if |parts| > 1 {
      CleanPartsGrow(parts[1..], user);
      assert parts[1..][..|parts| - 2] == parts[..|parts| - 1][1..];
    }
  }

  /** The images before part `i` that go; what is left moves up by that many places. */
  function GoneBefore(parts: seq<Part>, user: bool, i: nat): (gone: nat)
    requires i <= |parts|
    ensures gone <= i
  {
    if i == 0 then 0 else GoneBefore(parts, user, i - 1) + if user && parts[i - 1].Image? then 1 else 0
  }

  /** Every part but the images of a prompt is there, in its order, and says the same. */
  predicate AllThere(before: seq<Part>, after: seq<Part>, user: bool) {
    && |after| >= |before| - GoneBefore(before, user, |before|)
    && forall i: nat ::
         i < |before| && !(user && before[i].Image?) ==>
         i - GoneBefore(before, user, i) < |after| && SaysTheSame(before[i], after[i - GoneBefore(before, user, i)])
  }

  lemma {:induction false} GoneInPrefix(parts: seq<Part>, user: bool, n: nat, i: nat)
    requires i <= n <= |parts|
    ensures GoneBefore(parts[..n], user, i) == GoneBefore(parts, user, i)
  {
    if i > 0 { GoneInPrefix(parts, user, n, i - 1); }
  }

  lemma {:induction false} PartsAreKept(parts: seq<Part>, user: bool)
    ensures |CleanParts(parts, user)| == |parts| - GoneBefore(parts, user, |parts|)
    ensures AllThere(parts, CleanParts(parts, user), user)
    decreases |parts|
  {
    hide SaysTheSame, CleanPart, AllThere;
    if parts == [] {
      assert AllThere([], [], user) by { NothingToKeep(user); }
    } else {
      var last := |parts| - 1;
      PartsAreKept(parts[..last], user);
      CleanPartsGrow(parts, user);
      PartIsKept(parts[last], user);
      GoneInPrefix(parts, user, last, last);
      OneMorePart(parts, CleanParts(parts[..last], user), CleanPart(parts[last], user), user);
    }
  }

  lemma NothingToKeep(user: bool)
    ensures AllThere([], [], user)
  {
  }

  lemma OneMorePart(parts: seq<Part>, kept: seq<Part>, more: seq<Part>, user: bool)
    requires parts != [] && AllThere(parts[..|parts| - 1], kept, user)
    requires |kept| == |parts| - 1 - GoneBefore(parts, user, |parts| - 1)
    requires if user && parts[|parts| - 1].Image? then more == []
             else |more| == 1 && SaysTheSame(parts[|parts| - 1], more[0])
    ensures AllThere(parts, kept + more, user)
  {
    hide SaysTheSame, GoneBefore;
    var init, last := parts[..|parts| - 1], |parts| - 1;
    GoneInOne(parts, user);
    forall i: nat | i < |parts| && !(user && parts[i].Image?)
      ensures var k := i - GoneBefore(parts, user, i);
              k < |kept + more| && SaysTheSame(parts[i], (kept + more)[k]) {
      if i < last {
        GoneInPrefix(parts, user, last, i);
        var k := i - GoneBefore(init, user, i);
        assert init[i] == parts[i];
        assert k < |kept| && SaysTheSame(init[i], kept[k]);
      }
    }
  }

  lemma GoneInOne(parts: seq<Part>, user: bool)
    requires parts != []
    ensures var last := |parts| - 1;
            GoneBefore(parts, user, |parts|)
            == GoneBefore(parts, user, last) + if user && parts[last].Image? then 1 else 0
  {
  }

  lemma PartIsKept(part: Part, user: bool)
    ensures if user && part.Image? then CleanPart(part, user) == []
            else |CleanPart(part, user)| == 1 && SaysTheSame(part, CleanPart(part, user)[0])
  {
  }

  lemma RemarkKeepsAll(before: seq<Part>, after: seq<Part>, user: bool, remark: seq<Part>)
    requires AllThere(before, after, user)
    ensures AllThere(before, after + remark, user)
  {
    hide SaysTheSame, GoneBefore;
  }

  /**
   * Cleaning takes nothing from a message but the images of a prompt: every other part is there, in its place, and says
   * what it said, cut to length. A prompt that has lost an image, and no other message, gets a remark at its end. Who
   * speaks, the calls and the result are as they were, and messages of other roles are not touched at all.
   */
  lemma CleaningKeepsTexts(m: Message)
    ensures Clean(m) == m.(content := Clean(m).content)
    ensures m.content.One? || (m.role != User && m.role != ToolResult) ==> Clean(m) == m
    ensures m.content.Parts? && (m.role == User || m.role == ToolResult) ==>
              var parts, user := m.content.parts, m.role == User;
              var gone := GoneBefore(parts, user, |parts|);
              && Clean(m).content.Parts? && AllThere(parts, Clean(m).content.parts, user)
              && |Clean(m).content.parts| == |parts| - gone + (if gone > 0 then 1 else 0)
              && (gone > 0 ==> Clean(m).content.parts[|parts| - gone] == Text(Plain, Plain))
  {
    hide SaysTheSame, CleanParts, AllThere, GoneBefore;
    if m.content.Parts? {
      var parts, user := m.content.parts, m.role == User;
      PartsAreKept(parts, user);
      RemarkKeepsAll(parts, CleanParts(parts, user), user, [Text(Plain, Plain)]);
      if !user { NothingGone(parts, |parts|); }
    }
  }

  lemma {:induction false} NothingGone(parts: seq<Part>, i: nat)
    requires i <= |parts|
    ensures GoneBefore(parts, false, i) == 0
  {
    if i > 0 { NothingGone(parts, i - 1); }
  }

  // ---------------------------------------------------------------- theorems: tool results

  lemma CleanKeepsCalls(m: Message)
    ensures CallAliases(Clean(m)) == CallAliases(m) && ResultAliases(Clean(m)) == ResultAliases(m)
            && Clean(m).role == m.role
  {
  }

  lemma {:induction false} KnownCallsAreKept(ms: seq<Message>, alias: string)
    requires alias in Sweep(ms).known
    ensures exists j :: 0 <= j < |Sweep(ms).kept| && alias in CallAliases(Sweep(ms).kept[j])
  {
    hide Clean, Stays, CallAliases;
    var before := Sweep(ms[..|ms| - 1]);
    var kept := Sweep(ms).kept;
    if alias in before.known {
      KnownCallsAreKept(ms[..|ms| - 1], alias);
      var j :| 0 <= j < |before.kept| && alias in CallAliases(before.kept[j]);
      assert kept[j] == before.kept[j];
    } else {
      assert alias in CallAliases(kept[|kept| - 1]);
    }
  }

  /** `alias` stands for the id: it is the id without the white space around it, or what comes before its first bar. */
  predicate StandsFor(alias: string, id: string) {
    Trim(id) != "" &&
    (alias == Trim(id) || (alias < Trim(id) && Trim(id)[|alias|] == '|' && '|' !in alias))
  }

  lemma AliasesStandFor(alias: string, id: string)
    ensures alias in Aliases(id) <==> StandsFor(alias, id)
  {
    hide Trim;
    var trimmed := Trim(id);
    var pipe := IndexOf(trimmed, '|');
    if pipe.Some? { FirstBar(trimmed, alias, pipe.value); }
  }

  /** What comes before the first bar is one text only. */
  lemma FirstBar(text: string, alias: string, bar: nat)
    requires bar < |text| && text[bar] == '|' && '|' !in text[..bar]
    ensures alias < text && text[|alias|] == '|' && '|' !in alias <==> alias == text[..bar]
  {
    forall i: nat | i < bar ensures text[i] != '|' { assert text[i] == text[..bar][i]; }
    if alias < text && '|' !in alias {
      forall i: nat | i < |alias| ensures text[i] != '|' { assert text[i] == alias[i]; }
    }
  }

  /** The message makes the call that the result names: an assistant's call and the result share an alias. */
  ghost predicate Calls(m: Message, result: string) {
    m.role == Assistant && exists id <- m.calls :: SameCall(id, result)
  }

  ghost predicate SameCall(id: string, result: string) {
    exists alias: string :: StandsFor(alias, id) && StandsFor(alias, result)
  }

  lemma CallsMeet(m: Message, r: Message)
    ensures ResultAliases(r) != {} <==> r.result.Some? && Trim(r.result.value) != ""
    ensures CallAliases(m) * ResultAliases(r) != {} <==> r.result.Some? && Calls(m, r.result.value)
  {
    hide Trim, Aliases, StandsFor;
    if r.result.Some? {
      NoAliasForBlanks(r.result.value);
      forall alias, id ensures alias in Aliases(id) <==> StandsFor(alias, id) { AliasesStandFor(alias, id); }
      if CallAliases(m) * ResultAliases(r) != {} {
        var alias :| alias in CallAliases(m) * ResultAliases(r);
        var id :| id in m.calls && alias in Aliases(id);
        assert SameCall(id, r.result.value);
      }
      if Calls(m, r.result.value) {
        var id :| id in m.calls && SameCall(id, r.result.value);
        var alias :| StandsFor(alias, id) && StandsFor(alias, r.result.value);
        assert alias in CallAliases(m) * ResultAliases(r);
      }
    }
  }

  lemma NoAliasForBlanks(id: string)
    ensures Aliases(id) != {} <==> Trim(id) != ""
  {
    hide Trim;
    if Trim(id) != "" { assert Trim(id) in Aliases(id); }
  }

  /**
   * Over every history: a kept result that names a call comes after a kept assistant message that makes that call,
   * under the id it names, or one that agrees with it in the part before the bar.
   */
  lemma ResultsNameEarlierCalls(ms: seq<Message>, k: nat)
    requires k < |Sanitized(ms)|
    requires Sanitized(ms)[k].result.Some? && Trim(Sanitized(ms)[k].result.value) != ""
    ensures exists j :: 0 <= j < k && Calls(Sanitized(ms)[j], Sanitized(ms)[k].result.value)
  {
    hide Trim, CallAliases, ResultAliases, Calls;
    var kept := Sanitized(ms);
    CallsMeet(kept[k], kept[k]);
    ResultsFollowTheirCalls(Stripped(ms), k);
    var j :| 0 <= j < k && CallAliases(kept[j]) * ResultAliases(kept[k]) != {};
    CallsMeet(kept[j], kept[k]);
  }

  /** Every kept tool result that names a call comes after a kept assistant message that makes a call of that name. */
  lemma {:induction false} ResultsFollowTheirCalls(ms: seq<Message>, k: nat)
    requires k < |Sweep(ms).kept| && ResultAliases(Sweep(ms).kept[k]) != {}
    ensures exists j :: 0 <= j < k && CallAliases(Sweep(ms).kept[j]) * ResultAliases(Sweep(ms).kept[k]) != {}
  {
    hide Clean, CallAliases, ResultAliases;
    var before := Sweep(ms[..|ms| - 1]);
    var kept := Sweep(ms).kept;
    if k < |before.kept| {
      ResultsFollowTheirCalls(ms[..|ms| - 1], k);
      var j :| 0 <= j < k && CallAliases(before.kept[j]) * ResultAliases(before.kept[k]) != {};
      assert kept[j] == before.kept[j];
    } else {
      var alias :| alias in ResultAliases(kept[k]) * before.known;
      KnownCallsAreKept(ms[..|ms| - 1], alias);
      var j :| 0 <= j < |before.kept| && alias in CallAliases(before.kept[j]);
      assert kept[j] == before.kept[j] && alias in CallAliases(kept[j]) * ResultAliases(kept[k]);
    }
  }

  // ---------------------------------------------------------------- theorems: a second pass

  /** Sweeping what was swept drops nothing. */
  lemma {:induction false} SweepKeepsSwept(ms: seq<Message>)
    ensures Sweep(Sweep(ms).kept).known == Sweep(ms).known && |Sweep(Sweep(ms).kept).kept| == |Sweep(ms).kept|
  {
    hide Clean, CallAliases, ResultAliases;
    if ms != [] {
      var before := Sweep(ms[..|ms| - 1]);
      var m := Clean(ms[|ms| - 1]);
      SweepKeepsSwept(ms[..|ms| - 1]);
      CleanKeepsCalls(m);
      if Stays(m, before.known) {
        assert (before.kept + [m])[..|before.kept|] == before.kept;
      }
    }
  }

  lemma {:induction false} SweepIsShorter(ms: seq<Message>)
    ensures |Sweep(ms).kept| <= |ms|
  {
    if ms != [] { SweepIsShorter(ms[..|ms| - 1]); }
  }

  /** What is dropped in a second pass reads as an ephemeral prompt, or follows one. */
  lemma SecondPassStripsOnly(ms: seq<Message>)
    ensures |Sanitized(Sanitized(ms))| == |Sanitized(ms)| <==> forall m <- Sanitized(ms) :: !StartsEphemeral(m)
  {
    hide Sweep, StartsEphemeral;
    var kept := Sanitized(ms);
    SweepKeepsSwept(Stripped(ms));
    SweepIsShorter(Stripped(kept));
    StripIsShorter(kept);
    if forall m <- kept :: !StartsEphemeral(m) { StripKeepsPlain(kept); }
  }

  // ---------------------------------------------------------------- theorems: which messages are kept

  /** The message belongs to the turn of an ephemeral prompt. */
  predicate InEphemeralTurn(ms: seq<Message>, i: nat)
    requires i < |ms|
  {
    TurnStart(ms, i).Some? && StartsEphemeral(ms[TurnStart(ms, i).value])
  }

  /**
   * The message belongs to no ephemeral turn, and if it is a result that names a call, an earlier message of which the
   * same is true makes that call.
   */
  ghost predicate Survives(ms: seq<Message>, i: nat)
    requires i < |ms|
    decreases i
  {
    && !InEphemeralTurn(ms, i)
    && (ResultAliases(ms[i]) == {}
        || exists j: nat :: j < i && Survives(ms, j) && CallAliases(ms[j]) * ResultAliases(ms[i]) != {})
  }

  lemma {:induction false} TurnStartOfPrefix(ms: seq<Message>, n: nat, i: nat)
    requires i < n <= |ms|
    ensures TurnStart(ms[..n], i) == TurnStart(ms, i)
  {
    if i > 0 { TurnStartOfPrefix(ms, n, i - 1); }
  }

  lemma {:induction false} SurvivesInPrefix(ms: seq<Message>, n: nat, i: nat)
    requires i < n <= |ms|
    ensures Survives(ms[..n], i) <==> Survives(ms, i)
    decreases i
  {
    hide StartsEphemeral, CallAliases, ResultAliases;
    TurnStartOfPrefix(ms, n, i);
    forall j: nat | j < i ensures Survives(ms[..n], j) <==> Survives(ms, j) {
      SurvivesInPrefix(ms, n, j);
    }
  }

  /** The cleaned survivors, in order. */
  ghost function Survivors(ms: seq<Message>): seq<Message> {
    if ms == [] then []
    else
      var last := |ms| - 1;
      if Survives(ms, last) then Survivors(ms[..last]) + [Clean(ms[last])] else Survivors(ms[..last])
  }

  ghost predicate IsKnown(ms: seq<Message>, alias: string) {
    exists j: nat :: j < |ms| && Survives(ms, j) && alias in CallAliases(ms[j])
  }

  lemma KnownGrows(ms: seq<Message>, alias: string)
    requires ms != []
    ensures IsKnown(ms, alias) <==>
            IsKnown(ms[..|ms| - 1], alias) || (Survives(ms, |ms| - 1) && alias in CallAliases(ms[|ms| - 1]))
  {
    hide Survives, CallAliases;
    var init := ms[..|ms| - 1];
    forall j: nat | j < |init| ensures Survives(init, j) <==> Survives(ms, j) { SurvivesInPrefix(ms, |ms| - 1, j); }
    if j: nat :| j < |init| && Survives(init, j) && alias in CallAliases(init[j]) {
      assert Survives(ms, j) && alias in CallAliases(ms[j]);
    }
    if j: nat :| j < |ms| && Survives(ms, j) && alias in CallAliases(ms[j]) {
      if j < |init| { assert Survives(init, j) && alias in CallAliases(init[j]); }
    }
  }

  lemma LastSurvives(ms: seq<Message>)
    requires ms != []
    ensures var last := |ms| - 1;
            Survives(ms, last)
            <==> (!Dropping(ms)
                  && (ResultAliases(ms[last]) == {}
                      || exists alias <- ResultAliases(ms[last]) :: IsKnown(ms[..last], alias)))
  {
    hide Dropping, CallAliases, ResultAliases, StartsEphemeral;
    var last := |ms| - 1;
    assert ms[..last + 1] == ms;
    DroppingIsTheTurn(ms, last);
    forall j: nat | j < last ensures Survives(ms[..last], j) <==> Survives(ms, j) { SurvivesInPrefix(ms, last, j); }
    if alias :| alias in ResultAliases(ms[last]) && IsKnown(ms[..last], alias) {
      var j: nat :| j < last && Survives(ms[..last], j) && alias in CallAliases(ms[..last][j]);
      assert alias in CallAliases(ms[j]) * ResultAliases(ms[last]);
    }
    if j: nat :| j < last && Survives(ms, j) && CallAliases(ms[j]) * ResultAliases(ms[last]) != {} {
      var alias :| alias in CallAliases(ms[j]) * ResultAliases(ms[last]);
      assert Survives(ms[..last], j) && alias in CallAliases(ms[..last][j]);
      assert IsKnown(ms[..last], alias);
    }
  }

  /** For every history, the cleaning keeps exactly the survivors, each of them cleaned, in their order. */
  lemma {:induction false} SurvivorsAreKept(ms: seq<Message>)
    ensures Sanitized(ms) == Survivors(ms)
    ensures forall alias :: alias in Sweep(Stripped(ms)).known <==> IsKnown(ms, alias)
  {
    hide Clean, CallAliases, ResultAliases, Survives, IsKnown, Dropping;
    if ms == [] {
      assert forall alias :: !IsKnown(ms, alias) by { NothingIsKnown(ms); }
    } else {
      var init, last := ms[..|ms| - 1], ms[|ms| - 1];
      SurvivorsAreKept(init);
      LastSurvives(ms);
      CleanKeepsCalls(last);
      forall alias ensures IsKnown(ms, alias) <==>
          IsKnown(init, alias) || (Survives(ms, |ms| - 1) && alias in CallAliases(last)) { KnownGrows(ms, alias); }
      if !Dropping(ms) {
        assert Stripped(ms)[..|Stripped(ms)| - 1] == Stripped(init);
        var known := Sweep(Stripped(init)).known;
        assert Stays(Clean(last), known) <==> Survives(ms, |ms| - 1) by {
          Meet(ResultAliases(last), known);
        }
      } else {
        assert Stripped(ms) == Stripped(init);
      }
    }
  }

  lemma Meet(a: set<string>, b: set<string>)
    ensures a * b != {} <==> exists x <- a :: x in b
  {
    if a * b != {} {
      var x :| x in a * b;
    }
    if x :| x in a && x in b {
      assert x in a * b;
    }
  }

  lemma NothingIsKnown(ms: seq<Message>)
    requires ms == []
    ensures forall alias :: !IsKnown(ms, alias)
  {
  }

  /** How the parts of a prompt read once they are cleaned: images are gone, bare strings count, long texts are cut. */
  function CleanedLead(parts: seq<Part>): Lead {
    if parts == [] then Blank
    else
      var first := match parts[0]
                   case Bare(lead, _) => lead
                   case Image(_, _) => Blank
                   case Text(_, cutLead) => cutLead;
      if first != Blank then first else CleanedLead(parts[1..])
  }

  predicate ReadsEphemeralOnceCleaned(m: Message) {
    m.role == User && (if m.content.One? then m.content.lead else CleanedLead(m.content.parts)) == Ephemeral
  }

  lemma {:induction false} CleanedLeadIsRight(parts: seq<Part>, more: seq<Part>)
    requires more == [] || more == [Text(Plain, Plain)]
    ensures LeadOf(CleanParts(parts, true) + more) == Ephemeral <==> CleanedLead(parts) == Ephemeral
  {
    if parts == [] {
      assert CleanParts(parts, true) + more == more;
    } else {
      CleanedLeadIsRight(parts[1..], more);
      var head, rest := CleanPart(parts[0], true), CleanParts(parts[1..], true) + more;
      assert CleanParts(parts, true) + more == head + rest;
      if head != [] { assert (head + rest)[1..] == rest; } else { assert head + rest == rest; }
    }
  }

  lemma CleaningReads(m: Message)
    ensures StartsEphemeral(Clean(m)) <==> ReadsEphemeralOnceCleaned(m)
  {
    if m.role == User && m.content.Parts? {
      CleanedLeadIsRight(m.content.parts, []);
      CleanedLeadIsRight(m.content.parts, [Text(Plain, Plain)]);
      assert CleanParts(m.content.parts, true) + [] == CleanParts(m.content.parts, true);
    }
  }

  lemma {:induction false} SurvivorsCome(ms: seq<Message>, k: Message)
    ensures k in Survivors(ms) <==> exists i: nat :: i < |ms| && Survives(ms, i) && k == Clean(ms[i])
  {
    hide Clean, Survives;
    if ms != [] {
      var init, last := ms[..|ms| - 1], |ms| - 1;
      SurvivorsCome(init, k);
      forall i: nat | i < last ensures Survives(init, i) <==> Survives(ms, i) { SurvivesInPrefix(ms, last, i); }
      if i: nat :| i < last && Survives(init, i) && k == Clean(init[i]) { assert Survives(ms, i) && k == Clean(ms[i]); }
      if i: nat :| i < |ms| && Survives(ms, i) && k == Clean(ms[i]) {
        if i < last { assert Survives(init, i) && k == Clean(init[i]); }
      }
    }
  }

  /**
   * For every history, a second pass drops nothing more if and only if no message that survives the first reads as an
   * ephemeral prompt once it is cleaned.
   */
  lemma SecondPassDropsNothing(ms: seq<Message>)
    ensures |Sanitized(Sanitized(ms))| == |Sanitized(ms)|
            <==> forall i: nat :: i < |ms| && Survives(ms, i) ==> !ReadsEphemeralOnceCleaned(ms[i])
  {
    hide Sanitized, StartsEphemeral, Clean, Survives, ReadsEphemeralOnceCleaned;
    SecondPassStripsOnly(ms);
    SurvivorsAreKept(ms);
    if forall i: nat :: i < |ms| && Survives(ms, i) ==> !ReadsEphemeralOnceCleaned(ms[i]) {
      forall k | k in Sanitized(ms) ensures !StartsEphemeral(k) {
        SurvivorsCome(ms, k);
        var i: nat :| i < |ms| && Survives(ms, i) && k == Clean(ms[i]);
        CleaningReads(ms[i]);
      }
    } else {
      var i: nat :| i < |ms| && Survives(ms, i) && ReadsEphemeralOnceCleaned(ms[i]);
      SurvivorsCome(ms, Clean(ms[i]));
      CleaningReads(ms[i]);
    }
  }

  /** Content as the providers write it: no bare strings in an array, no text on an image, and cuts that only hide. */
  predicate WellFormed(m: Message) {
    m.content.Parts? ==> forall p <- m.content.parts ::
      !p.Bare? && (p.Image? ==> p.lead == Blank) && (p.cutLead == p.lead || p.cutLead == Plain)
  }

  lemma {:induction false} WellFormedLead(parts: seq<Part>)
    requires forall p <- parts ::
             !p.Bare? && (p.Image? ==> p.lead == Blank)
             && (p.cutLead == p.lead || p.cutLead == Plain)
    requires LeadOf(parts) != Ephemeral
    ensures CleanedLead(parts) != Ephemeral
  {
    if parts != [] && Shown(parts[0]) == Blank { WellFormedLead(parts[1..]); }
  }

  /** So for well-formed contents one pass is enough. */
  lemma OnePassIsEnough(ms: seq<Message>)
    requires forall m <- ms :: WellFormed(m)
    ensures |Sanitized(Sanitized(ms))| == |Sanitized(ms)|
  {
    hide Sanitized, ResultAliases, CallAliases;
    forall i: nat | i < |ms| && Survives(ms, i) ensures !ReadsEphemeralOnceCleaned(ms[i]) {
      assert WellFormed(ms[i]) && !StartsEphemeral(ms[i]);
      if ms[i].content.Parts? && ms[i].role == User { WellFormedLead(ms[i].content.parts); }
    }
    SecondPassDropsNothing(ms);
  }

  /** A bare string with the ephemeral prefix survives the first pass, which makes a text of it, but not the second. */
  lemma BareStringIsDroppedLate()
    ensures var ms := [Message(User, Parts([Bare(Ephemeral, Ephemeral)]), [], None, false)];
            |Sanitized(ms)| == 1 && |Sanitized(Sanitized(ms))| == 0
  {
    var prompt := Message(User, Parts([Bare(Ephemeral, Ephemeral)]), [], None, false);
    CleanedBareString(prompt);
    CleanKeepsCalls(prompt);
    OneMessage(prompt);
    OneMessage(Clean(prompt));
  }

  lemma OneMessage(m: Message)
    requires ResultAliases(Clean(m)) == {}
    ensures Sanitized([m]) == if StartsEphemeral(m) then [] else [Clean(m)]
  {
    hide StartsEphemeral, Clean, CallAliases, ResultAliases;
    var ms := [m];
    assert ms[..0] == [] && !Dropping(ms[..0]);
    assert Stripped(ms[..0]) == [] && Sweep(ms[..0]) == Cleaned([], {});
    if !StartsEphemeral(m) {
      assert Stripped(ms) == [m];
      assert Sweep(ms).kept == [Clean(m)];
    }
  }

  lemma CleanedBareString(m: Message)
    requires m.role == User && m.content == Parts([Bare(Ephemeral, Ephemeral)])
    ensures !StartsEphemeral(m) && StartsEphemeral(Clean(m))
  {
    assert CleanParts([Bare(Ephemeral, Ephemeral)], true) == [Text(Ephemeral, Ephemeral)];
  }

  // ---------------------------------------------------------------- failed turns at the end

  predicate IsFailure(m: Message) {
    m.role == Assistant && m.failed
  }

  /** The prefix through the last assistant message that did not fail. */
  function ThroughLastSuccess(ms: seq<Message>): seq<Message> {
    if ms == [] then []
    else if ms[|ms| - 1].role == Assistant && !ms[|ms| - 1].failed then ms
    else ThroughLastSuccess(ms[..|ms| - 1])
  }

  lemma {:induction false} LastSuccessIsLast(ms: seq<Message>)
    ensures var kept := ThroughLastSuccess(ms);
            && |kept| <= |ms| && kept == ms[..|kept|]
            && (kept != [] ==> kept[|kept| - 1].role == Assistant && !kept[|kept| - 1].failed)
            && (forall i :: |kept| <= i < |ms| ==> ms[i].role != Assistant || ms[i].failed)
  {
    if ms != [] && !(ms[|ms| - 1].role == Assistant && !ms[|ms| - 1].failed) {
      LastSuccessIsLast(ms[..|ms| - 1]);
    }
  }

  /** A history that ends in a failed assistant message is cut to its last success; any other is left alone. */
  method DropTrailingFailedTurns(ms: seq<Message>) returns (kept: seq<Message>)
    ensures kept == if ms != [] && ms[|ms| - 1].role == Assistant && ms[|ms| - 1].failed then ThroughLastSuccess(ms)
                    else ms
  {
    kept := ms;
    while |kept| > 0
      invariant |kept| <= |ms| && kept == ms[..|kept|]
      invariant |kept| < |ms| ==> IsFailure(ms[|ms| - 1]) && (kept == [] || kept[|kept| - 1].role == Assistant)
      invariant ThroughLastSuccess(kept) == ThroughLastSuccess(ms)
      decreases |kept|
    {
      if !IsFailure(kept[|kept| - 1]) { break; }
      kept := kept[..|kept| - 1];
      while |kept| > 0 && kept[|kept| - 1].role != Assistant
        invariant |kept| < |ms| && kept == ms[..|kept|]
        invariant ThroughLastSuccess(kept) == ThroughLastSuccess(ms)
        decreases |kept|
      {
        kept := kept[..|kept| - 1];
      }
    }
  }
}
