/**
 * The review records of one job and how findings are merged into them (upsertStateStoreReviewRecord,
 * addProofReviewFindingToLatestRecord and getLatestStateStoreReviewRecord in state-store-review-records.ts).
 */
module ReviewRecords {
  import opened Options
  import opened Sorting

  datatype Verdict = Open | Accepted | Rejected

  datatype Finding = Finding(id: string, blocking: bool, waived: bool, proofRun: Option<string>, createdAt: int)

  datatype Record = Record(attemptId: string, scopeId: string, reportUpdatedAt: int, manifest: Option<string>,
                           verdict: Verdict, findings: seq<Finding>)

  predicate Blocks(f: Finding) {
    f.blocking && !f.waived
  }

  predicate HasBlocking(findings: seq<Finding>) {
    exists f <- findings :: Blocks(f)
  }

  /** A record is rejected exactly when one of its findings is blocking and not waived. */
  predicate VerdictFits(r: Record) {
    (r.verdict == Rejected <==> exists f <- r.findings :: f.blocking && !f.waived) && r.verdict != Open
  }

  predicate DistinctIds(findings: seq<Finding>) {
    forall i, j :: 0 <= i < j < |findings| ==> findings[i].id != findings[j].id
  }

  predicate SameReview(a: Record, b: Record) {
    a.attemptId == b.attemptId && a.scopeId == b.scopeId && a.reportUpdatedAt == b.reportUpdatedAt
    && a.manifest == b.manifest
  }

  function FindSame(records: seq<Record>, r: Record): (k: Option<nat>)
    ensures k.Some? ==> k.value < |records| && SameReview(records[k.value], r)
                        && forall j :: 0 <= j < k.value ==> !SameReview(records[j], r)
    ensures k.None? ==> forall q <- records :: !SameReview(q, r)
  {
    if records == [] then None
    else if SameReview(records[0], r) then Some(0)
    else
      var rest := FindSame(records[1..], r);
      if rest.Some? then Some(rest.value + 1) else None
  }

  /** Map.set: a finding replaces the one with its id, or is added. */
  function SetFinding(findings: seq<Finding>, f: Finding): seq<Finding> {
    if findings == [] then [f]
    else if findings[0].id == f.id then [f] + findings[1..]
    else [findings[0]] + SetFinding(findings[1..], f)
  }

  function SetAll(findings: seq<Finding>, more: seq<Finding>): seq<Finding>
    decreases |more|
  {
    if more == [] then findings else SetAll(SetFinding(findings, more[0]), more[1..])
  }

  predicate OlderFirst(a: Finding, b: Finding) {
    a.createdAt <= b.createdAt
  }

  function Merged(existing: Record, r: Record): Record {
    var findings := Sort(OlderFirst, SetAll(existing.findings, r.findings));
    existing.(findings := findings,
              verdict := if HasBlocking(findings) then Rejected
                         else if r.verdict == Accepted then Accepted else existing.verdict)
  }

  function Upsert(records: seq<Record>, r: Record): seq<Record> {
    var k := FindSame(records, r);
    if k.Some? then records[k.value := Merged(records[k.value], r)] else records + [r]
  }

  /** The first of the records with the greatest report time. */
  function Latest(records: seq<Record>): (k: Option<nat>)
    ensures k.None? <==> records == []
    ensures k.Some? ==> k.value < |records|
    ensures k.Some? ==> forall r <- records :: r.reportUpdatedAt <= records[k.value].reportUpdatedAt
    ensures k.Some? ==> forall j :: 0 <= j < k.value ==> records[j].reportUpdatedAt < records[k.value].reportUpdatedAt
  {
    if records == [] then None
    else
      var rest := Latest(records[1..]);
      if rest.None? || records[0].reportUpdatedAt >= records[1..][rest.value].reportUpdatedAt then Some(0)
      else Some(rest.value + 1)
  }

  function WithoutRun(findings: seq<Finding>, run: string): seq<Finding> {
    Filter((f: Finding) => f.proofRun != Some(run), findings)
  }

  /** A proof's verdict replaces what was found about it before. */
  function WithProofFinding(r: Record, f: Finding, run: string, proofFailed: bool): Record {
    var findings := WithoutRun(r.findings, run) + [f];
    var settled := if !HasBlocking(findings) && r.verdict == Rejected then Accepted else r.verdict;
    r.(findings := findings, verdict := if proofFailed then Rejected else settled)
  }

  function AddProofFinding(records: seq<Record>, f: Finding, run: string, proofFailed: bool): seq<Record> {
    var k := Latest(records);
    if k.None? then records else records[k.value := WithProofFinding(records[k.value], f, run, proofFailed)]
  }

  // ---------------------------------------------------------------- theorems

  lemma {:induction false} SetFindingKeeps(findings: seq<Finding>, f: Finding)
    ensures f in SetFinding(findings, f)
    ensures forall g <- SetFinding(findings, f) :: g == f || g in findings
    ensures forall g <- findings :: g.id != f.id ==> g in SetFinding(findings, f)
  {
    if findings != [] && findings[0].id != f.id {
      SetFindingKeeps(findings[1..], f);
      assert findings == [findings[0]] + findings[1..];
    }
  }

  /** Nothing new is lost in a merge, and of the old only what has been found anew. */
  lemma {:induction false} SetAllKeeps(findings: seq<Finding>, more: seq<Finding>)
    requires DistinctIds(more)
    ensures forall f <- more :: f in SetAll(findings, more)
    ensures forall g <- SetAll(findings, more) :: g in more || g in findings
    ensures forall g <- findings :: (forall f <- more :: f.id != g.id) ==> g in SetAll(findings, more)
    decreases |more|
  {
    if more != [] {
      var next := SetFinding(findings, more[0]);
      SetFindingKeeps(findings, more[0]);
      SetAllKeeps(next, more[1..]);
      assert more == [more[0]] + more[1..];
    }
  }

  lemma SortKeepsBlocking(findings: seq<Finding>)
    ensures HasBlocking(Sort(OlderFirst, findings)) <==> HasBlocking(findings)
  {
    SortKeepsAll(OlderFirst, findings);
    var sorted := Sort(OlderFirst, findings);
    forall f ensures f in sorted <==> f in findings {
      assert f in multiset(sorted) <==> f in multiset(findings);
    }
  }

  /** Every record is rejected exactly when it has an open blocking finding, however records are merged. */
  lemma UpsertKeepsVerdicts(records: seq<Record>, r: Record)
    requires (forall q <- records :: VerdictFits(q)) && VerdictFits(r) && DistinctIds(r.findings)
    ensures forall q <- Upsert(records, r) :: VerdictFits(q)
  {
    hide Sort, SetAll, HasBlocking;
    var k := FindSame(records, r);
    if k.Some? { MergedFits(records[k.value], r); }
  }

  lemma MergedFits(existing: Record, r: Record)
    requires VerdictFits(existing) && VerdictFits(r) && DistinctIds(r.findings)
    ensures VerdictFits(Merged(existing, r))
  {
    hide Sort, SetAll;
    SortKeepsBlocking(SetAll(existing.findings, r.findings));
    SetAllKeeps(existing.findings, r.findings);
  }

  /**
   * A record is merged into the first with its attempt, scope, report and output manifest, and into no other; without
   * such a one it is added at the end. In the merged record all new findings are there, with the old ones whose ids
   * they do not bring again, oldest first.
   */
  lemma UpsertMergesItsOwn(records: seq<Record>, r: Record)
    requires DistinctIds(r.findings)
    ensures (forall q <- records :: !IsOwn(q, r)) ==> Upsert(records, r) == records + [r]
    ensures (exists q <- records :: IsOwn(q, r)) ==> exists k: nat :: MergesAt(records, r, k)
  {
    hide Merged, IsMerged;
    var k := FindSame(records, r);
    if k.Some? {
      assert IsOwn(records[k.value], r);
      MergedIsMerged(records[k.value], r);
      assert MergesAt(records, r, k.value);
    }
  }

  predicate IsOwn(q: Record, r: Record) {
    q.attemptId == r.attemptId && q.scopeId == r.scopeId && q.reportUpdatedAt == r.reportUpdatedAt
    && q.manifest == r.manifest
  }

  /** The record at `k`, the first that is the new one's own, has it merged in, and no other record changes. */
  predicate MergesAt(records: seq<Record>, r: Record, k: nat) {
    var after := Upsert(records, r);
    && k < |records| && |after| == |records| && IsOwn(records[k], r)
    && (forall j :: 0 <= j < k ==> !IsOwn(records[j], r))
    && IsMerged(records[k], r, after[k]) && forall j :: 0 <= j < |records| && j != k ==> after[j] == records[j]
  }

  /** The record is the existing one with the new findings in it, in the order of their times. */
  predicate IsMerged(existing: Record, r: Record, merged: Record) {
    && IsOwn(merged, existing)
    && (forall f <- r.findings :: f in merged.findings)
    && (forall g <- existing.findings :: (forall f <- r.findings :: f.id != g.id) ==> g in merged.findings)
    && (forall g <- merged.findings :: g in r.findings || g in existing.findings)
    && (forall i, j :: 0 <= i < j < |merged.findings| ==> merged.findings[i].createdAt <= merged.findings[j].createdAt)
  }

  lemma MergedIsMerged(existing: Record, r: Record)
    requires DistinctIds(r.findings)
    ensures IsMerged(existing, r, Merged(existing, r))
  {
    hide Sort, SetAll, HasBlocking, DistinctIds;
    var all := SetAll(existing.findings, r.findings);
    SetAllKeeps(existing.findings, r.findings);
    assert TotalOrder(OlderFirst);
    SortSorts(OlderFirst, all);
    forall f ensures f in Sort(OlderFirst, all) <==> f in all {
      assert f in multiset(Sort(OlderFirst, all)) <==> f in multiset(all);
    }
  }

  lemma ProofFindingKeepsVerdicts(records: seq<Record>, f: Finding, run: string, proofFailed: bool)
    requires (forall q <- records :: VerdictFits(q)) && (f.blocking <==> proofFailed) && !f.waived
    ensures forall q <- AddProofFinding(records, f, run, proofFailed) :: VerdictFits(q)
  {
    var k := Latest(records);
    if k.Some? {
      var r := records[k.value];
      forall g ensures g in WithoutRun(r.findings, run) ==> g in r.findings {
        FilterIsExact((x: Finding) => x.proofRun != Some(run), r.findings, g);
      }
      ProofFindingFits(r, f, run, proofFailed);
    }
  }

  /**
   * A proof's verdict goes into the record of the newest report, the first of several: there it replaces what was found
   * about that proof before, stands last, and leaves every other finding as often as it was. No other record changes.
   */
  lemma ProofFindingReplaces(records: seq<Record>, f: Finding, run: string, proofFailed: bool) returns (k: nat)
    requires records != [] && f.proofRun == Some(run)
    ensures k < |records| && forall j :: 0 <= j < |records| ==>
              records[j].reportUpdatedAt <= records[k].reportUpdatedAt
              && (j < k ==> records[j].reportUpdatedAt < records[k].reportUpdatedAt)
    ensures var after := AddProofFinding(records, f, run, proofFailed);
            && |after| == |records| && (forall j :: 0 <= j < |records| && j != k ==> after[j] == records[j])
            && SameReview(after[k], records[k])
            && after[k].findings != [] && after[k].findings[|after[k].findings| - 1] == f
            && (forall g: Finding :: g.proofRun != Some(run) ==>
                  multiset(after[k].findings)[g] == multiset(records[k].findings)[g])
            && (forall g <- after[k].findings :: g.proofRun == Some(run) ==> g == f)
            && (proofFailed ==> after[k].verdict == Rejected)
  {
    hide HasBlocking;
    k := Latest(records).value;
    var before := records[k].findings;
    forall g
      ensures g in WithoutRun(before, run) ==> g.proofRun != Some(run)
      ensures g.proofRun != Some(run) ==> multiset(WithoutRun(before, run))[g] == multiset(before)[g] {
      FilterIsExact((x: Finding) => x.proofRun != Some(run), before, g);
    }
    hide WithoutRun;
  }

  lemma ProofFindingFits(r: Record, f: Finding, run: string, proofFailed: bool)
    requires VerdictFits(r) && (f.blocking <==> proofFailed) && !f.waived
    requires forall g <- WithoutRun(r.findings, run) :: g in r.findings
    ensures VerdictFits(WithProofFinding(r, f, run, proofFailed))
  {
    hide WithoutRun;
    var findings := WithoutRun(r.findings, run) + [f];
    assert proofFailed ==> Blocks(f) && f in findings;
    if HasBlocking(findings) && !proofFailed {
      var g :| g in findings && Blocks(g);
      assert g in r.findings;
    }
  }

  lemma UpsertKeepsTimes(records: seq<Record>, r: Record)
    ensures exists q <- Upsert(records, r) :: q.reportUpdatedAt == r.reportUpdatedAt
    ensures forall q <- Upsert(records, r) ::
            q.reportUpdatedAt == r.reportUpdatedAt
            || exists p <- records :: p.reportUpdatedAt == q.reportUpdatedAt
    ensures forall p <- records :: exists q <- Upsert(records, r) :: q.reportUpdatedAt == p.reportUpdatedAt
  {
    hide Sort, SetAll, HasBlocking;
    var after := Upsert(records, r);
    var k := FindSame(records, r);
    if k.Some? {
      assert after[k.value] in after;
    } else {
      assert after[|records|] in after;
    }
    forall p | p in records ensures exists q <- after :: q.reportUpdatedAt == p.reportUpdatedAt {
      var i :| 0 <= i < |records| && records[i] == p;
      assert after[i] in after && after[i].reportUpdatedAt == p.reportUpdatedAt;
    }
  }
}
