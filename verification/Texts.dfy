/** The few string operations the code tests the results of: trimming, collapsing white space, decimal numbers. */
module Texts {
  import opened Options

  /** White space and line ends, as String.prototype.trim and \s know them (sections 12.2 and 12.3 of ECMA-262). */
  predicate Space(c: char) {
    || '\t' <= c <= '\r'
    || c == ' ' || c == '\U{00A0}' || c == '\U{1680}' || '\U{2000}' <= c <= '\U{200A}'
    || c == '\U{2028}' || c == '\U{2029}' || c == '\U{202F}' || c == '\U{205F}' || c == '\U{3000}' || c == '\U{FEFF}'
  }

  function TrimStart(s: string): (r: string)
    ensures |r| <= |s|
  {
    if s != [] && Space(s[0]) then TrimStart(s[1..]) else s
  }

  function TrimEnd(s: string): string {
    if s != [] && Space(s[|s| - 1]) then TrimEnd(s[..|s| - 1]) else s
  }

  function Trim(s: string): string {
    TrimEnd(TrimStart(s))
  }

  /** Every run of white space becomes one blank. */
  function Collapse(s: string): string
    decreases |s|
  {
    if s == [] then []
    else if !Space(s[0]) then [s[0]] + Collapse(s[1..])
    else [' '] + Collapse(TrimStart(s[1..]))
  }

  /** compactText, before the empty text becomes null. */
  function Compact(s: string): string {
    Trim(Collapse(s))
  }

  function NonEmpty(s: string): Option<string> {
    if s == "" then None else Some(s)
  }

  predicate Blank(s: string) {
    forall c <- s :: Space(c)
  }

  lemma {:induction false} TrimStartBlank(s: string)
    ensures TrimStart(s) == "" <==> Blank(s)
    ensures Blank(TrimStart(s)) <==> Blank(s)
  {
    if s != [] && Space(s[0]) {
      TrimStartBlank(s[1..]);
      assert s == [s[0]] + s[1..];
    }
  }

  lemma {:induction false} TrimEndBlank(s: string)
    ensures TrimEnd(s) == "" <==> Blank(s)
    ensures Blank(TrimEnd(s)) <==> Blank(s)
  {
    if s != [] && Space(s[|s| - 1]) {
      TrimEndBlank(s[..|s| - 1]);
      assert s == s[..|s| - 1] + [s[|s| - 1]];
    }
  }

  lemma {:induction false} CollapseBlank(s: string)
    ensures Blank(Collapse(s)) <==> Blank(s)
    decreases |s|
  {
    if s != [] {
      assert s == [s[0]] + s[1..];
      if Space(s[0]) {
        TrimStartBlank(s[1..]);
        CollapseBlank(TrimStart(s[1..]));
      } else {
        CollapseBlank(s[1..]);
      }
    }
  }

  /** A text is empty after trimming exactly when it is empty after compacting: when it is all white space. */
  lemma BlankTexts(s: string)
    ensures Trim(s) == "" <==> Blank(s)
    ensures Compact(s) == "" <==> Blank(s)
    ensures Blank(Trim(s)) <==> Blank(s)
  {
    TrimStartBlank(s);
    TrimEndBlank(TrimStart(s));
    CollapseBlank(s);
    TrimStartBlank(Collapse(s));
    TrimEndBlank(TrimStart(Collapse(s)));
  }

  lemma {:induction false} TrimStartStarts(s: string)
    ensures var r := TrimStart(s); r == "" || !Space(r[0])
  {
    if s != [] && Space(s[0]) { TrimStartStarts(s[1..]); }
  }

  lemma {:induction false} TrimEndEnds(s: string)
    ensures var r := TrimEnd(s); r == "" || (!Space(r[|r| - 1]) && r[0] == s[0])
  {
    if s != [] && Space(s[|s| - 1]) { TrimEndEnds(s[..|s| - 1]); }
  }

  /** Trimming takes the white space at both ends and nothing else. */
  lemma TrimIsTheMiddle(s: string) returns (before: string, after: string)
    ensures s == before + Trim(s) + after && Blank(before) && Blank(after)
    ensures Trim(s) != "" ==> !Space(Trim(s)[0]) && !Space(Trim(s)[|Trim(s)| - 1])
  {
    before := StartIsBlank(s);
    after := EndIsBlank(TrimStart(s));
    TrimStartStarts(s);
    TrimEndEnds(TrimStart(s));
  }

  lemma {:induction false} StartIsBlank(s: string) returns (before: string)
    ensures s == before + TrimStart(s) && Blank(before)
  {
    if s != [] && Space(s[0]) {
      var rest := StartIsBlank(s[1..]);
      before := [s[0]] + rest;
      assert s == [s[0]] + s[1..];
    } else {
      before := [];
    }
  }

  lemma {:induction false} EndIsBlank(s: string) returns (after: string)
    ensures s == TrimEnd(s) + after && Blank(after)
  {
    if s != [] && Space(s[|s| - 1]) {
      var rest := EndIsBlank(s[..|s| - 1]);
      after := rest + [s[|s| - 1]];
      assert s == s[..|s| - 1] + [s[|s| - 1]];
    } else {
      after := [];
    }
  }

  lemma TrimTwice(s: string)
    ensures Trim(Trim(s)) == Trim(s)
  {
    TrimStartStarts(s);
    TrimEndEnds(TrimStart(s));
  }

  /** White space only as single blanks. */
  predicate Collapsed(s: string) {
    && (forall i :: 0 <= i < |s| && Space(s[i]) ==> s[i] == ' ')
    && (forall i :: 0 <= i < |s| - 1 && Space(s[i]) ==> !Space(s[i + 1]))
  }

  lemma {:induction false} CollapseCollapses(s: string)
    ensures Collapsed(Collapse(s))
    ensures s != [] && !Space(s[0]) ==> Collapse(s) != [] && Collapse(s)[0] == s[0]
    decreases |s|
  {
    if s != [] {
      if Space(s[0]) {
        TrimStartStarts(s[1..]);
        CollapseCollapses(TrimStart(s[1..]));
      } else {
        CollapseCollapses(s[1..]);
      }
    }
  }

  lemma {:induction false} CollapsedIsFixed(s: string)
    requires Collapsed(s)
    ensures Collapse(s) == s
    decreases |s|
  {
    if s != [] {
      assert s == [s[0]] + s[1..];
      assert Collapsed(s[1..]);
      assert Space(s[0]) ==> TrimStart(s[1..]) == s[1..];
      CollapsedIsFixed(s[1..]);
    }
  }

  lemma {:induction false} TrimStartKeepsCollapsed(s: string)
    requires Collapsed(s)
    ensures Collapsed(TrimStart(s))
  {
    if s != [] && Space(s[0]) { TrimStartKeepsCollapsed(s[1..]); }
  }

  lemma {:induction false} TrimEndKeepsCollapsed(s: string)
    requires Collapsed(s)
    ensures Collapsed(TrimEnd(s))
  {
    if s != [] && Space(s[|s| - 1]) { TrimEndKeepsCollapsed(s[..|s| - 1]); }
  }

  /** Compacting twice changes nothing more, and neither does trimming a compacted text. */
  lemma CompactTwice(s: string)
    ensures Compact(Compact(s)) == Compact(s) && Trim(Compact(s)) == Compact(s)
  {
    hide Collapsed;
    CollapseCollapses(s);
    TrimStartKeepsCollapsed(Collapse(s));
    TrimEndKeepsCollapsed(TrimStart(Collapse(s)));
    CollapsedIsFixed(Compact(s));
    TrimTwice(Collapse(s));
  }

  // ---------------------------------------------------------------- decimal numbers

  function Digit(d: nat): char
    requires d < 10
  {
    "0123456789"[d]
  }

  function Decimal(n: nat): (r: string)
    ensures r != ""
  {
    if n < 10 then [Digit(n)] else Decimal(n / 10) + [Digit(n % 10)]
  }

  lemma {:induction false} DecimalIsInjective(m: nat, n: nat)
    requires Decimal(m) == Decimal(n)
    ensures m == n
    decreases m
  {
    var dm, dn := Decimal(m), Decimal(n);
    assert dm[|dm| - 1] == Digit(m % 10) && dn[|dn| - 1] == Digit(n % 10);
    assert m % 10 == n % 10;
    if m >= 10 && n >= 10 {
      assert dm[..|dm| - 1] == Decimal(m / 10) && dn[..|dn| - 1] == Decimal(n / 10);
      DecimalIsInjective(m / 10, n / 10);
    }
  }
}
