/**
 * Which proofs of a job are shown (getVisibleThreadProofs and collapseSupersededThreadProofs in
 * butler-agent-helpers.ts): the newest reviewable proof of each target, and every reviewable proof without one.
 */
module ProofSelection {
  import opened Sorting

  /** `threadId` and `key` are empty when there is none; ranks are those of the display order. */
  datatype Proof = Proof(
    threadId: string,
    id: string,
    checkedAt: int,
    updatedAt: int,
    createdAt: int,
    reviewable: bool,
    key: string,
    rank: nat,
    subtypeRank: nat)

  /** A time of zero counts as missing. */
  function EffectiveAt(p: Proof): int {
    if p.checkedAt != 0 then p.checkedAt else if p.updatedAt != 0 then p.updatedAt else p.createdAt
  }

  predicate NewerFirst(a: Proof, b: Proof) {
    EffectiveAt(a) >= EffectiveAt(b)
  }

  predicate DisplayOrder(a: Proof, b: Proof) {
    if a.rank != b.rank then a.rank < b.rank
    else if a.subtypeRank != b.subtypeRank then a.subtypeRank < b.subtypeRank
    else NewerFirst(a, b)
  }

  function Collapse(sorted: seq<Proof>, seen: set<string>): seq<Proof> {
    if sorted == [] then []
    else
      var p := sorted[0];
      if !p.reviewable || (p.key != "" && p.key in seen) then Collapse(sorted[1..], seen)
      else [p] + Collapse(sorted[1..], if p.key != "" then seen + {p.key} else seen)
  }

  /** The loop over a job's proofs, newest first. */
  method CollapseSuperseded(threadProofs: seq<Proof>) returns (visible: seq<Proof>)
    ensures visible == Collapse(Sort(NewerFirst, threadProofs), {})
  {
    var sorted := Sort(NewerFirst, threadProofs);
    visible := [];
    var seen: set<string> := {};
    for i := 0 to |sorted|
      invariant visible + Collapse(sorted[i..], seen) == Collapse(sorted, {})
    {
      var p := sorted[i];
      assert sorted[i..][0] == p && sorted[i..][1..] == sorted[i + 1..];
      if !p.reviewable { continue; }
      if p.key != "" {
        if p.key in seen { continue; }
        seen := seen + {p.key};
      }
      visible := visible + [p];
    }
  }

  /** The job ids in the order in which they first appear. */
  function ThreadIds(proofs: seq<Proof>): (ids: seq<string>)
    ensures forall t :: t in ids <==> t != "" && exists p <- proofs :: p.threadId == t
    ensures forall i, j :: 0 <= i < j < |ids| ==> ids[i] != ids[j]
  {
    if proofs == [] then []
    else
      var before := ThreadIds(proofs[..|proofs| - 1]);
      var t := proofs[|proofs| - 1].threadId;
      assert proofs == proofs[..|proofs| - 1] + [proofs[|proofs| - 1]];
      if t == "" || t in before then before else before + [t]
  }

  function OfThread(t: string, proofs: seq<Proof>): seq<Proof> {
    Filter((p: Proof) => p.threadId == t, proofs)
  }

  function VisibleOf(t: string, proofs: seq<Proof>): seq<Proof> {
    Collapse(Sort(NewerFirst, OfThread(t, proofs)), {})
  }

  function AllVisible(ids: seq<string>, proofs: seq<Proof>): seq<Proof> {
    if ids == [] then [] else VisibleOf(ids[0], proofs) + AllVisible(ids[1..], proofs)
  }

  function VisibleProofs(proofs: seq<Proof>): seq<Proof> {
    Sort(DisplayOrder, AllVisible(ThreadIds(proofs), proofs))
  }

  // ---------------------------------------------------------------- one job

  /** The first reviewable proof for the key, if any. */
  function FirstFor(k: string, sorted: seq<Proof>): seq<Proof> {
    if sorted == [] then []
    else if sorted[0].reviewable && sorted[0].key == k then [sorted[0]]
    else FirstFor(k, sorted[1..])
  }

  lemma {:induction false} CollapseKeepsTheFirst(sorted: seq<Proof>, seen: set<string>, k: string)
    requires k != ""
    ensures Filter((p: Proof) => p.key == k, Collapse(sorted, seen)) == if k in seen then [] else FirstFor(k, sorted)
  {
    if sorted != [] {
      var p := sorted[0];
      if !p.reviewable || (p.key != "" && p.key in seen) {
        CollapseKeepsTheFirst(sorted[1..], seen, k);
      } else {
        var after := if p.key != "" then seen + {p.key} else seen;
        CollapseKeepsTheFirst(sorted[1..], after, k);
        assert ([p] + Collapse(sorted[1..], after))[1..] == Collapse(sorted[1..], after);
      }
    }
  }

  lemma {:induction false} FirstIsNewest(sorted: seq<Proof>, k: string)
    requires Sorted(NewerFirst, sorted)
    ensures |FirstFor(k, sorted)| <= 1
    ensures forall p <- FirstFor(k, sorted) :: p in sorted && p.reviewable && p.key == k
    ensures forall q <- sorted :: q.reviewable && q.key == k ==>
              |FirstFor(k, sorted)| == 1 && EffectiveAt(FirstFor(k, sorted)[0]) >= EffectiveAt(q)
  {
    if sorted != [] {
      FirstIsNewest(sorted[1..], k);
      forall q | q in sorted ensures NewerFirst(sorted[0], q) || q == sorted[0] {
        var j :| 0 <= j < |sorted| && sorted[j] == q;
      }
    }
  }

  lemma {:induction false} CollapseKeepsTheKeyless(sorted: seq<Proof>, seen: set<string>, p: Proof)
    ensures p.key == "" && p.reviewable ==> multiset(Collapse(sorted, seen))[p] == multiset(sorted)[p]
    ensures p in Collapse(sorted, seen) ==> p in sorted && p.reviewable
  {
    if sorted != [] {
      assert sorted == [sorted[0]] + sorted[1..];
      CollapseKeepsTheKeyless(sorted[1..], seen, p);
      CollapseKeepsTheKeyless(sorted[1..], if sorted[0].key != "" then seen + {sorted[0].key} else seen, p);
    }
  }

  lemma NewerFirstIsTotal()
    ensures TotalOrder(NewerFirst)
  {
  }

  lemma InVisibleOf(t: string, proofs: seq<Proof>, p: Proof)
    ensures p in VisibleOf(t, proofs) ==> p in proofs && p.threadId == t && p.reviewable
    ensures p.key == "" && p.reviewable
            ==> multiset(VisibleOf(t, proofs))[p] == if p.threadId == t then multiset(proofs)[p] else 0
  {
    var mine := OfThread(t, proofs);
    var sorted := Sort(NewerFirst, mine);
    CollapseKeepsTheKeyless(sorted, {}, p);
    SortKeepsAll(NewerFirst, mine);
    FilterIsExact((q: Proof) => q.threadId == t, proofs, p);
    assert p in sorted <==> p in multiset(sorted);
    assert p in mine <==> p in multiset(mine);
  }

  // ---------------------------------------------------------------- all jobs

  lemma {:induction false} InAllVisible(ids: seq<string>, proofs: seq<Proof>, p: Proof)
    requires forall i, j :: 0 <= i < j < |ids| ==> ids[i] != ids[j]
    ensures p in AllVisible(ids, proofs) ==> p in proofs && p.reviewable && p.threadId in ids
    ensures p.key == "" && p.reviewable ==>
              multiset(AllVisible(ids, proofs))[p] == if p.threadId in ids then multiset(proofs)[p] else 0
  {
    if ids != [] {
      InVisibleOf(ids[0], proofs, p);
      InAllVisible(ids[1..], proofs, p);
    }
  }

  predicate IsFor(p: Proof, t: string, k: string) {
    p.threadId == t && p.key == k
  }

  lemma {:induction false} SameFilter(xs: seq<Proof>, t: string, k: string)
    requires forall p <- xs :: p.threadId == t
    ensures Filter((p: Proof) => IsFor(p, t, k), xs) == Filter((p: Proof) => p.key == k, xs)
  {
    if xs != [] { SameFilter(xs[1..], t, k); }
  }

  lemma {:induction false} OneThreadMatters(ids: seq<string>, proofs: seq<Proof>, t: string, k: string)
    requires forall i, j :: 0 <= i < j < |ids| ==> ids[i] != ids[j]
    ensures Filter((p: Proof) => IsFor(p, t, k), AllVisible(ids, proofs))
         == if t in ids then Filter((p: Proof) => p.key == k, VisibleOf(t, proofs)) else []
  {
    hide VisibleOf;
    if ids != [] {
      var head, rest := VisibleOf(ids[0], proofs), AllVisible(ids[1..], proofs);
      FilterOfSum((p: Proof) => IsFor(p, t, k), head, rest);
      OneThreadMatters(ids[1..], proofs, t, k);
      forall p | p in head ensures p.threadId == ids[0] { InVisibleOf(ids[0], proofs, p); }
      if ids[0] == t {
        SameFilter(head, t, k);
        assert t !in ids[1..];
      } else {
        FilterFindsNothing((p: Proof) => IsFor(p, t, k), head);
      }
    }
  }

  /**
   * Only reviewable proofs of a job are shown, and every reviewable proof without a target is, as often as it is there.
   */
  lemma ShownProofsAreReviewable(proofs: seq<Proof>, p: Proof)
    ensures p in VisibleProofs(proofs) ==> p in proofs && p.reviewable && p.threadId != ""
    ensures p.key == "" && p.reviewable && p.threadId != ""
            ==> multiset(VisibleProofs(proofs))[p] == multiset(proofs)[p]
  {
    hide Sort, AllVisible;
    var ids := ThreadIds(proofs);
    InAllVisible(ids, proofs, p);
    SortKeepsAll(DisplayOrder, AllVisible(ids, proofs));
    assert p in VisibleProofs(proofs) <==> p in multiset(VisibleProofs(proofs));
    assert p in AllVisible(ids, proofs) <==> p in multiset(AllVisible(ids, proofs));
  }

  /** What dates a proof is its check; if it was not checked, its last update; if that is missing too, its creation. */
  predicate DatedAt(p: Proof, t: int) {
    && (p.checkedAt != 0 ==> t == p.checkedAt)
    && (p.checkedAt == 0 && p.updatedAt != 0 ==> t == p.updatedAt)
    && (p.checkedAt == 0 && p.updatedAt == 0 ==> t == p.createdAt)
  }

  lemma EveryProofIsDated(p: Proof, t: int)
    ensures DatedAt(p, t) <==> t == EffectiveAt(p)
  {
  }

  /** They are shown in the display order: by kind of evidence, then its subtype, then newest first. */
  lemma ShownInDisplayOrder(proofs: seq<Proof>, i: nat, j: nat, s: int, t: int)
    requires i < j < |VisibleProofs(proofs)|
    requires DatedAt(VisibleProofs(proofs)[i], s) && DatedAt(VisibleProofs(proofs)[j], t)
    ensures var p, q := VisibleProofs(proofs)[i], VisibleProofs(proofs)[j];
            && p.rank <= q.rank
            && (p.rank == q.rank ==> p.subtypeRank <= q.subtypeRank)
            && (p.rank == q.rank && p.subtypeRank == q.subtypeRank ==> s >= t)
  {
    AllInDisplayOrder(proofs);
    hide Sort, AllVisible, EffectiveAt, DatedAt;
    EveryProofIsDated(VisibleProofs(proofs)[i], s);
    EveryProofIsDated(VisibleProofs(proofs)[j], t);
    assert DisplayOrder(VisibleProofs(proofs)[i], VisibleProofs(proofs)[j]);
  }

  lemma AllInDisplayOrder(proofs: seq<Proof>)
    ensures Sorted(DisplayOrder, VisibleProofs(proofs))
  {
    hide Sorted, AllVisible, EffectiveAt;
    assert TotalOrder(DisplayOrder);
    SortSorts(DisplayOrder, AllVisible(ThreadIds(proofs), proofs));
  }

  lemma NewestOfThread(proofs: seq<Proof>, t: string, k: string, q: Proof)
    requires k != "" && q in proofs && q.reviewable && IsFor(q, t, k)
    ensures var shown := Filter((p: Proof) => p.key == k, VisibleOf(t, proofs));
            |shown| == 1 && EffectiveAt(shown[0]) >= EffectiveAt(q)
  {
    hide Sort, Collapse, Sorted, EffectiveAt;
    var mine := OfThread(t, proofs);
    var sorted := Sort(NewerFirst, mine);
    NewerFirstIsTotal();
    SortSorts(NewerFirst, mine);
    FilterIsExact((p: Proof) => p.threadId == t, proofs, q);
    assert q in multiset(sorted);
    FirstIsNewest(sorted, k);
    CollapseKeepsTheFirst(sorted, {}, k);
  }

  /** For each job and target with a reviewable proof, exactly one is shown, and none is newer. */
  lemma NewestProofPerTarget(proofs: seq<Proof>, t: string, k: string, q: Proof)
    requires t != "" && k != "" && q in proofs && q.reviewable && IsFor(q, t, k)
    ensures |Filter((p: Proof) => IsFor(p, t, k), VisibleProofs(proofs))| == 1
    ensures forall p <- VisibleProofs(proofs), shownAt: int, at: int ::
              IsFor(p, t, k) && DatedAt(p, shownAt) && DatedAt(q, at) ==> shownAt >= at
  {
    hide Sort, AllVisible, VisibleOf, EffectiveAt, Filter, DatedAt;
    var ids := ThreadIds(proofs);
    var all := AllVisible(ids, proofs);
    NewestOfThread(proofs, t, k, q);
    OneThreadMatters(ids, proofs, t, k);
    SortKeepsCount(DisplayOrder, (p: Proof) => IsFor(p, t, k), all);
    SortKeepsAll(DisplayOrder, all);
    forall p | p in VisibleProofs(proofs) && IsFor(p, t, k) ensures EffectiveAt(p) >= EffectiveAt(q) {
      assert p in multiset(VisibleProofs(proofs));
      FilterIsExact((x: Proof) => IsFor(x, t, k), all, p);
    }
    forall p: Proof, at: int ensures DatedAt(p, at) <==> at == EffectiveAt(p) { EveryProofIsDated(p, at); }
  }
}
