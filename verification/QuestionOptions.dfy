/**
 * The options offered with a question (buildQuestionOptions in butler-agent-operator-question.ts): options
 * without a label are dropped, every other gets an id of its own, and six are kept.
 */
module QuestionOptions {
  import opened Options
  import opened Texts

  /** `slug` is the id made from the label's letters and digits, possibly empty. */
  datatype RawOption = RawOption(id: string, caption: string, slug: string, description: string)
  datatype QuestionOption = QuestionOption(id: string, caption: string, description: Option<string>)

  const MAX_OPTIONS := 6

  /** The id an option asks for. */
  function BaseId(raw: RawOption, index: nat): (id: string)
    ensures id != ""
  {
    if Trim(raw.id) != "" then Trim(raw.id) else if raw.slug != "" then raw.slug else "option-" + Decimal(index + 1)
  }

  /** The id tried after the base id itself. */
  function Suffixed(baseId: string, suffix: nat): string {
    baseId + "-" + Decimal(suffix)
  }

  lemma SuffixedIsInjective(baseId: string, i: nat, j: nat)
    ensures Suffixed(baseId, i) == Suffixed(baseId, j) ==> i == j
    ensures Suffixed(baseId, i) != baseId
  {
    assert Suffixed(baseId, i)[|baseId| + 1..] == Decimal(i) && Suffixed(baseId, j)[|baseId| + 1..] == Decimal(j);
    if Suffixed(baseId, i) == Suffixed(baseId, j) { DecimalIsInjective(i, j); }
  }

  /** The ids tried before suffix `bound`. */
  function Tried(baseId: string, bound: nat): (s: set<string>)
    requires bound >= 2
  {
    {baseId} + set i | 2 <= i < bound :: Suffixed(baseId, i)
  }

  lemma TriedGrows(baseId: string, bound: nat)
    requires bound >= 2
    ensures Tried(baseId, bound + 1) == Tried(baseId, bound) + {Suffixed(baseId, bound)}
    ensures Suffixed(baseId, bound) !in Tried(baseId, bound)
  {
    SuffixedIsInjective(baseId, bound, bound);
    forall i | 2 <= i < bound ensures Suffixed(baseId, i) != Suffixed(baseId, bound) {
      SuffixedIsInjective(baseId, i, bound);
    }
  }

  /** `id` is the base id if that is free, and otherwise the base id with the least free suffix from 2 on. */
  ghost predicate LeastFree(id: string, baseId: string, seen: set<string>) {
    id !in seen && (id == baseId || (baseId in seen && exists k: nat ::
                     k >= 2 && id == Suffixed(baseId, k) && forall i :: 2 <= i < k ==> Suffixed(baseId, i) in seen))
  }

  /** The search always ends: the ids it tries are all different, and only so many are taken. */
  method FreeId(baseId: string, seen: set<string>) returns (id: string)
    ensures LeastFree(id, baseId, seen)
  {
    hide Suffixed;
    id := baseId;
    var suffix := 2;
    while id in seen
      invariant suffix >= 2
      invariant id == if suffix == 2 then baseId else Suffixed(baseId, suffix - 1)
      invariant suffix > 2 ==> baseId in seen
      invariant forall i :: 2 <= i < suffix - 1 ==> Suffixed(baseId, i) in seen
      decreases |seen - Tried(baseId, suffix)| + if id in seen then 1 else 0
    {
      FewerLeft(baseId, suffix, seen);
      id := Suffixed(baseId, suffix);
      suffix := suffix + 1;
    }
  }

  lemma FewerLeft(baseId: string, bound: nat, seen: set<string>)
    requires bound >= 2
    ensures |seen - Tried(baseId, bound + 1)|
            + (if Suffixed(baseId, bound) in seen then 1 else 0) <= |seen - Tried(baseId, bound)|
  {
    hide Suffixed, Tried;
    TriedGrows(baseId, bound);
    var left := seen - Tried(baseId, bound);
    var next := Suffixed(baseId, bound);
    assert seen - Tried(baseId, bound + 1) == left - {next};
    if next in seen { assert next in left; }
  }

  function Ids(options: seq<QuestionOption>): set<string> {
    set o <- options :: o.id
  }

  /** The options before they are cut to six: every labelled option, each under the least free id of its own. */
  ghost predicate Builds(raws: seq<RawOption>, all: seq<QuestionOption>) {
    if raws == [] then all == []
    else
      var init, raw := raws[..|raws| - 1], raws[|raws| - 1];
      if Trim(raw.caption) == "" then Builds(init, all)
      else
        && all != []
        && Builds(init, all[..|all| - 1])
        && LeastFree(all[|all| - 1].id, BaseId(raw, |init|), Ids(all[..|all| - 1]))
        && all[|all| - 1].caption == Trim(raw.caption)
        && all[|all| - 1].description == NonEmpty(Trim(raw.description))
  }

  function Cut(all: seq<QuestionOption>): seq<QuestionOption> {
    if |all| > MAX_OPTIONS then all[..MAX_OPTIONS] else all
  }

  predicate DistinctOptions(options: seq<QuestionOption>) {
    forall i, j :: 0 <= i < j < |options| ==> options[i].id != options[j].id
  }

  /** The labels that are not blank, in order. */
  function Captions(raws: seq<RawOption>): seq<string> {
    if raws == [] then []
    else Captions(raws[..|raws| - 1])
         + if Trim(raws[|raws| - 1].caption) == "" then [] else [Trim(raws[|raws| - 1].caption)]
  }

  function CaptionsOf(options: seq<QuestionOption>): seq<string> {
    seq(|options|, k requires 0 <= k < |options| => options[k].caption)
  }

  /** The labelled options in order, under distinct non-empty ids, whatever ids were asked for. */
  lemma {:induction false} BuiltOptionsAreDistinct(raws: seq<RawOption>, all: seq<QuestionOption>)
    requires Builds(raws, all)
    ensures CaptionsOf(all) == Captions(raws)
    ensures DistinctOptions(all)
    ensures forall o <- all :: o.id != "" && o.caption != ""
  {
    hide Trim, BaseId, LeastFree;
    if raws != [] {
      var init, raw := raws[..|raws| - 1], raws[|raws| - 1];
      if Trim(raw.caption) == "" {
        BuiltOptionsAreDistinct(init, all);
      } else {
        var rest, last := all[..|all| - 1], all[|all| - 1];
        BuiltOptionsAreDistinct(init, rest);
        FreeIdIsNew(last.id, BaseId(raw, |init|), Ids(rest));
        assert all == rest + [last];
        forall i | 0 <= i < |rest| ensures rest[i].id != last.id { assert rest[i] in rest; }
      }
    }
  }

  lemma BuildsNext(raws: seq<RawOption>, index: nat, all: seq<QuestionOption>, id: string)
    requires index < |raws| && Builds(raws[..index], all)
    ensures var raw := raws[index];
            if Trim(raw.caption) == "" then Builds(raws[..index + 1], all)
            else LeastFree(id, BaseId(raw, index), Ids(all)) ==>
                   var option := QuestionOption(id, Trim(raw.caption), NonEmpty(Trim(raw.description)));
                   Builds(raws[..index + 1], all + [option]) && Ids(all + [option]) == Ids(all) + {id}
  {
    hide Trim, BaseId, LeastFree;
    assert raws[..index + 1][..index] == raws[..index];
    var option := QuestionOption(id, Trim(raws[index].caption), NonEmpty(Trim(raws[index].description)));
    assert (all + [option])[..|all|] == all;
  }

  lemma CutKeepsDistinct(all: seq<QuestionOption>)
    requires DistinctOptions(all)
    ensures DistinctOptions(Cut(all))
    ensures CaptionsOf(Cut(all)) == if |CaptionsOf(all)| > MAX_OPTIONS then CaptionsOf(all)[..MAX_OPTIONS]
            else CaptionsOf(all)
  {
  }

  /** The loop builds exactly these options and cuts them to six. */
  method BuildQuestionOptions(raws: seq<RawOption>) returns (options: seq<QuestionOption>)
    ensures exists all :: Builds(raws, all) && options == Cut(all)
    ensures CaptionsOf(options) == if |Captions(raws)| > MAX_OPTIONS then Captions(raws)[..MAX_OPTIONS]
            else Captions(raws)
    ensures DistinctOptions(options)
  {
    hide Trim, BaseId, LeastFree, Cut, Captions, CaptionsOf, DistinctOptions, Builds, Ids;
    var all := [];
    var seen: set<string> := {};
    NothingBuilt();
    assert raws[..0] == [];
    for index := 0 to |raws|
      invariant Builds(raws[..index], all) && seen == Ids(all)
    {
      var raw := raws[index];
      var caption := Trim(raw.caption);
      if caption == "" {
        BuildsNext(raws, index, all, "");
      } else {
        var id := FreeId(BaseId(raw, index), seen);
        BuildsNext(raws, index, all, id);
        seen := seen + {id};
        all := all + [QuestionOption(id, caption, NonEmpty(Trim(raw.description)))];
      }
    }
    assert raws[..|raws|] == raws;
    BuiltOptionsAreDistinct(raws, all);
    CutKeepsDistinct(all);
    options := Cut(all);
  }

  lemma NothingBuilt()
    ensures Builds([], []) && Ids([]) == {}
  {
  }

  lemma FreeIdIsNew(id: string, baseId: string, seen: set<string>)
    requires LeastFree(id, baseId, seen) && baseId != ""
    ensures id !in seen && id != ""
  {
  }
}
