/**
 * When a finished job may be closed out (relevantTerminalWorkerReport and the proof loop of
 * getOperatorCloseoutBlocker in butler-closeout-gate.ts). What the checklist and the orchestration gate say are
 * inputs.
 */
module CloseoutGate {
  import opened Options
  import opened ReviewRecords

  datatype ReportStatus = Completed | Unfinished

  datatype WorkerReport = WorkerReport(turnId: string, updatedAt: int, status: ReportStatus,
                                       evidence: seq<Option<string>>)

  /**
   * A report counts if it is not older than the request, is about the accepted turn, and is final or its Worker has
   * stopped.
   */
  function RelevantReport(report: Option<WorkerReport>, requestedAt: int, acceptedTurn: Option<string>,
                          running: bool): (r: Option<WorkerReport>)
    ensures r.Some? ==> r == report
    ensures r.Some? <==>
            && report.Some? && requestedAt <= report.value.updatedAt
            && (acceptedTurn.None? || acceptedTurn.value == "" || acceptedTurn.value == report.value.turnId)
            && (running ==> report.value.status == Completed)
  {
    if report.None? || report.value.updatedAt < requestedAt then None
    else if acceptedTurn.Some? && acceptedTurn.value != "" && report.value.turnId != acceptedTurn.value then None
    else if report.value.status == Completed then report
    else if running then None
    else report
  }

  datatype Blocker =
    | ByChecklist(reason: string)
    | ByOrchestration(reason: string)
    | NoProofReferenced
    | ProofMissing(run: string)
    | ProofNotReviewed(run: string)
    | ProofBlocked(run: string)

  predicate IsRun(id: Option<string>) {
    id.Some? && id.value != ""
  }

  /** The proof runs the report's evidence names, each once. */
  function ReferencedRuns(evidence: seq<Option<string>>): (runs: seq<string>)
    ensures forall run :: run in runs <==> run != "" && Some(run) in evidence
    ensures forall i, j :: 0 <= i < j < |runs| ==> runs[i] != runs[j]
  {
    if evidence == [] then []
    else
      var before := ReferencedRuns(evidence[..|evidence| - 1]);
      var last := evidence[|evidence| - 1];
      assert evidence == evidence[..|evidence| - 1] + [last];
      if !IsRun(last) || last.value in before then before else before + [last.value]
  }

  function FirstFinding(findings: seq<Finding>, run: string): (f: Option<Finding>)
    ensures f.Some? ==> f.value in findings && f.value.proofRun == Some(run)
    ensures f.None? ==> forall g <- findings :: g.proofRun != Some(run)
  {
    if findings == [] then None
    else if findings[0].proofRun == Some(run) then Some(findings[0])
    else FirstFinding(findings[1..], run)
  }

  /** What stands against one run: its proof is missing, not reviewed, or its first finding blocks. */
  function RunBlocker(run: string, proofs: set<string>, findings: seq<Finding>): Option<Blocker> {
    if run !in proofs then Some(ProofMissing(run))
    else if FirstFinding(findings, run).None? then Some(ProofNotReviewed(run))
    else if Blocks(FirstFinding(findings, run).value) then Some(ProofBlocked(run))
    else None
  }

  /** What the gate looks at. `findings` are those of the latest review record. */
  datatype Closeout = Closeout(
    report: Option<WorkerReport>,
    checklist: Option<string>,
    orchestration: Option<string>,
    needsVisualProof: bool,
    proofs: set<string>,
    findings: seq<Finding>)

  predicate NeedsProof(c: Closeout) {
    c.report.Some? && c.report.value.status == Completed && c.needsVisualProof
  }

  predicate RunIsFine(c: Closeout, run: string) {
    run in c.proofs && FirstFinding(c.findings, run).Some? && !Blocks(FirstFinding(c.findings, run).value)
  }

  /** The gate opens exactly when nothing objects and every referenced proof is there, reviewed and not blocked. */
  predicate MayClose(c: Closeout) {
    && c.checklist.None? && c.orchestration.None?
    && (NeedsProof(c) ==>
          var runs := ReferencedRuns(c.report.value.evidence);
          runs != [] && forall run <- runs :: RunIsFine(c, run))
  }

  /** The blocker is what stands against the run at `i`, and nothing stands against those before it. */
  predicate FirstObstacle(c: Closeout, runs: seq<string>, i: nat, blocker: Option<Blocker>) {
    && i < |runs| && blocker.Some? && (forall j :: 0 <= j < i ==> RunIsFine(c, runs[j]))
    && blocker.value == (if runs[i] !in c.proofs then ProofMissing(runs[i])
                         else if forall f <- c.findings :: f.proofRun != Some(runs[i]) then ProofNotReviewed(runs[i])
                         else ProofBlocked(runs[i]))
    && !RunIsFine(c, runs[i])
  }

  method CloseoutBlocker(c: Closeout) returns (blocker: Option<Blocker>)
    ensures blocker.None? <==> MayClose(c)
    ensures c.checklist.Some? ==> blocker == Some(ByChecklist(c.checklist.value))
    ensures c.checklist.None? && c.orchestration.Some? ==> blocker == Some(ByOrchestration(c.orchestration.value))
    ensures blocker == Some(NoProofReferenced)
            <==> c.checklist.None? && c.orchestration.None? && NeedsProof(c)
                 && ReferencedRuns(c.report.value.evidence) == []
    ensures NeedsProof(c) && c.checklist.None? && c.orchestration.None? && blocker.Some?
            && blocker != Some(NoProofReferenced) ==>
              exists i :: 0 <= i < |ReferencedRuns(c.report.value.evidence)|
                && FirstObstacle(c, ReferencedRuns(c.report.value.evidence), i, blocker)
  {
    if c.checklist.Some? { return Some(ByChecklist(c.checklist.value)); }
    if c.orchestration.Some? { return Some(ByOrchestration(c.orchestration.value)); }
    if c.report.None? || c.report.value.status != Completed || !c.needsVisualProof { return None; }
    var runs := ReferencedRuns(c.report.value.evidence);
    if runs == [] { return Some(NoProofReferenced); }
    for i := 0 to |runs|
      invariant forall j :: 0 <= j < i ==> RunIsFine(c, runs[j])
    {
      var run := runs[i];
      var finding := FirstFinding(c.findings, run);
      blocker := if run !in c.proofs then Some(ProofMissing(run))
                 else if finding.None? then Some(ProofNotReviewed(run))
                 else if finding.value.blocking && !finding.value.waived then Some(ProofBlocked(run))
                 else None;
      if blocker.Some? {
        assert FirstObstacle(c, runs, i, blocker);
        return;
      }
    }
    return None;
  }

  /** One finding per proof run, as AddProofFinding leaves them. */
  predicate OnePerRun(findings: seq<Finding>) {
    forall i, j :: 0 <= i < j < |findings| && findings[i].proofRun.Some?
      ==> findings[i].proofRun != findings[j].proofRun
  }

  lemma {:induction false} FirstIsOnly(findings: seq<Finding>, f: Finding)
    requires OnePerRun(findings) && f in findings && f.proofRun.Some?
    ensures FirstFinding(findings, f.proofRun.value) == Some(f)
  {
    if findings[0].proofRun != f.proofRun {
      assert findings == [findings[0]] + findings[1..];
      FirstIsOnly(findings[1..], f);
    }
  }

  /** With one finding per run, an open gate means that no blocking finding about any referenced proof stands. */
  lemma OpenGateHasNoBlockedProof(c: Closeout, f: Finding)
    requires NeedsProof(c) && MayClose(c) && OnePerRun(c.findings)
    requires f in c.findings && IsRun(f.proofRun) && f.proofRun in c.report.value.evidence
    ensures !Blocks(f)
  {
    FirstIsOnly(c.findings, f);
    assert f.proofRun.value in ReferencedRuns(c.report.value.evidence);
  }

  /** Another finding about the run stands before the one at `k`. */
  predicate IsLater(findings: seq<Finding>, run: string, k: nat) {
    k < |findings| && findings[k].proofRun == Some(run) && exists i :: 0 <= i < k && findings[i].proofRun == Some(run)
  }

  lemma {:induction false} FirstHasNoneBefore(findings: seq<Finding>, run: string) returns (k: nat)
    requires FirstFinding(findings, run).Some?
    ensures k < |findings| && FirstFinding(findings, run) == Some(findings[k]) && findings[k].proofRun == Some(run)
    ensures forall i :: 0 <= i < k ==> findings[i].proofRun != Some(run)
  {
    if findings[0].proofRun == Some(run) {
      k := 0;
    } else {
      var rest := FirstHasNoneBefore(findings[1..], run);
      k := rest + 1;
    }
  }

  /**
   * An open gate leaves a blocking finding on a referenced run if and only if a later finding of that run blocks: the
   * gate looks at the first finding only.
   */
  lemma OpenGateOverlooksLaterFindings(c: Closeout, run: string)
    requires NeedsProof(c) && MayClose(c) && run in ReferencedRuns(c.report.value.evidence)
    ensures (exists f <- c.findings :: f.proofRun == Some(run) && Blocks(f))
            <==> exists k: nat :: IsLater(c.findings, run, k) && Blocks(c.findings[k])
  {
    assert RunIsFine(c, run);
    var first := FirstHasNoneBefore(c.findings, run);
    if f :| f in c.findings && f.proofRun == Some(run) && Blocks(f) {
      var k :| 0 <= k < |c.findings| && c.findings[k] == f;
      assert k > first;
      assert IsLater(c.findings, run, k);
    }
  }

  /** For every closeout: a finding added about a run that has one already neither closes nor opens the gate. */
  lemma SecondFindingIsOverlooked(c: Closeout, f: Finding)
    requires f.proofRun.Some? && FirstFinding(c.findings, f.proofRun.value).Some?
    ensures MayClose(c.(findings := c.findings + [f])) <==> MayClose(c)
  {
    forall run ensures FirstFinding(c.findings + [f], run) == FirstFinding(c.findings, run) {
      AddedBehind(c.findings, f, run);
    }
    hide FirstFinding, ReferencedRuns;
    assert forall run :: RunIsFine(c.(findings := c.findings + [f]), run) <==> RunIsFine(c, run);
  }

  lemma {:induction false} AddedBehind(findings: seq<Finding>, f: Finding, run: string)
    requires f.proofRun.Some? && FirstFinding(findings, f.proofRun.value).Some?
    ensures FirstFinding(findings + [f], run) == FirstFinding(findings, run)
  {
    assert (findings + [f])[1..] == findings[1..] + [f];
    if findings[0].proofRun != Some(run) {
      if findings[0].proofRun != f.proofRun {
        AddedBehind(findings[1..], f, run);
      } else {
        NotAboutRun(findings[1..], f, run);
      }
    }
  }

  lemma {:induction false} NotAboutRun(findings: seq<Finding>, f: Finding, run: string)
    requires f.proofRun != Some(run)
    ensures FirstFinding(findings + [f], run) == FirstFinding(findings, run)
  {
    if findings == [] {
      assert (findings + [f])[1..] == [];
    } else {
      assert (findings + [f])[1..] == findings[1..] + [f];
      NotAboutRun(findings[1..], f, run);
    }
  }

  /** Replacing what was found about a run keeps one finding per run. */
  lemma ProofFindingKeepsOnePerRun(r: Record, f: Finding, run: string, proofFailed: bool)
    requires OnePerRun(r.findings) && f.proofRun == Some(run)
    ensures OnePerRun(WithProofFinding(r, f, run, proofFailed).findings)
  {
    FilteredRuns(r.findings, run);
  }

  lemma {:induction false} FilteredRuns(findings: seq<Finding>, run: string)
    requires OnePerRun(findings)
    ensures OnePerRun(WithoutRun(findings, run))
    ensures forall g <- WithoutRun(findings, run) :: g in findings && g.proofRun != Some(run)
  {
    if findings != [] {
      assert findings == [findings[0]] + findings[1..];
      FilteredRuns(findings[1..], run);
      var rest := WithoutRun(findings[1..], run);
      assert WithoutRun(findings, run) == (if findings[0].proofRun != Some(run) then [findings[0]] else []) + rest;
      forall g | g in rest ensures findings[0].proofRun.Some? ==> g.proofRun != findings[0].proofRun {
        assert g in findings[1..];
      }
    }
  }
}
