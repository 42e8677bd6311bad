/**
 * Adversarial reviews of one job while Worker reports come and go (ensureButlerAdversarialReview in
 * butler-adversarial-review.ts). A review looks at the report when it starts, works on it over several awaits and
 * checks before it records anything that the report is still the one it started with. An attempt that timed
 * out goes on in the background, but is no longer current; the next one starts only then.
 */
module AdversarialReview {
  import opened Options
  import opened ReviewRecords

  datatype Report = Report(turnId: string, updatedAt: int, completed: bool)

  datatype Stage = Preparing | Reviewing | Ended

  /**
   * One call: the report it started with, whether its attempt is still the current one, and how far it is. An expected
   * turn that is empty counts as none.
   */
  datatype Review = Review(report: Report, expectedTurn: Option<string>, current: bool, stage: Stage)

  /** `written` is bookkeeping: the reports for which some review has recorded its findings. */
  datatype Job = Job(report: Option<Report>, records: seq<Record>, reviews: seq<Review>, written: set<int>)

  datatype Event =
    | NewReport(report: Option<Report>)
    | Decision(record: Record)                     // Butler's own verdict on the current report's points
    | ProofVerdict(finding: Finding, run: string, proofFailed: bool)
    | Start(expectedTurn: Option<string>, minimumAt: Option<int>)
    | Expire(id: nat)                              // the attempt is over for its owner
    | SnapshotReady(id: nat)
    | Submit(id: nat, findings: seq<Finding>, unattributed: Option<Finding>, none: Finding, attemptId: string,
             scopeId: string, hasContract: bool)
    | Break(id: nat)

  predicate ReportIsCurrent(j: Job, r: Review) {
    && r.current
    && j.report.Some? && j.report.value.turnId == r.report.turnId && j.report.value.updatedAt == r.report.updatedAt
    && (r.expectedTurn.Some? ==> j.report.value.turnId == r.expectedTurn.value)
  }

  /** The latest record already settles the report. */
  predicate AlreadyReviewed(j: Job, report: Report) {
    var k := Latest(j.records);
    k.Some? && j.records[k.value].reportUpdatedAt == report.updatedAt && j.records[k.value].verdict != Open
  }

  predicate Begins(j: Job, expectedTurn: Option<string>, minimumAt: Option<int>) {
    && j.report.Some? && j.report.value.completed
    && (expectedTurn.Some? ==> j.report.value.turnId == expectedTurn.value)
    && (minimumAt.Some? ==> minimumAt.value <= j.report.value.updatedAt)
    && !AlreadyReviewed(j, j.report.value)
  }

  /** The findings submitted, one more if the changes could not be attributed, and a remark if there are none. */
  function Results(e: Event): seq<Finding>
    requires e.Submit?
  {
    var all := e.findings + if e.unattributed.Some? then [e.unattributed.value] else [];
    if all == [] then [e.none] else all
  }

  function RecordOf(r: Review, e: Event): Record
    requires e.Submit?
  {
    Record(e.attemptId, e.scopeId, r.report.updatedAt, None,
           if HasBlocking(Results(e)) then Rejected else Accepted, Results(e))
  }

  /** Only one attempt is current at a time; ids are new; a missing attribution blocks and the remark does not. */
  predicate Enabled(j: Job, e: Event) {
    match e
    case NewReport(_) => true
    case Decision(record) => j.report.Some? && record.reportUpdatedAt == j.report.value.updatedAt && VerdictFits(record)
      && DistinctIds(record.findings)
    case ProofVerdict(finding, _, proofFailed) => (finding.blocking <==> proofFailed) && !finding.waived
    case Start(_, _) => forall r <- j.reviews :: !r.current
    case Expire(id) => id < |j.reviews|
    case SnapshotReady(id) => id < |j.reviews| && j.reviews[id].stage == Preparing
    case Submit(id, _, _, none, _, _, _) =>
      id < |j.reviews| && j.reviews[id].stage == Reviewing && DistinctIds(Results(e)) && !none.blocking
    case Break(id) => id < |j.reviews|
  }

  function Set(j: Job, id: nat, r: Review): Job
    requires id < |j.reviews|
  {
    j.(reviews := j.reviews[id := r])
  }

  /** The event records a review's findings. */
  predicate Writes(j: Job, e: Event) {
    e.Submit? && e.id < |j.reviews| && ReportIsCurrent(j, j.reviews[e.id]) && e.hasContract
  }

  function Next(j: Job, e: Event): Job
    requires Enabled(j, e)
  {
    match e
    case NewReport(report) => j.(report := report)
    case Decision(record) => j.(records := Upsert(j.records, record))
    case ProofVerdict(finding, run, proofFailed) => j.(records := AddProofFinding(j.records, finding, run, proofFailed))
    case Start(expectedTurn, minimumAt) =>
      if Begins(j, expectedTurn, minimumAt)
        then j.(reviews := j.reviews + [Review(j.report.value, expectedTurn, true, Preparing)]) else j
    case Expire(id) => Set(j, id, j.reviews[id].(current := false))
    case SnapshotReady(id) =>
      Set(j, id, j.reviews[id].(stage := if ReportIsCurrent(j, j.reviews[id]) then Reviewing else Ended))
    case Submit(id, _, _, _, _, _, _) =>
      var ended := Set(j, id, j.reviews[id].(stage := Ended));
      if Writes(j, e)
      then ended.(records := Upsert(j.records, RecordOf(j.reviews[id], e)),
                  written := j.written + {j.reviews[id].report.updatedAt})
      else ended
    case Break(id) => Set(j, id, j.reviews[id].(stage := Ended))
  }

  predicate Legal(j: Job, es: seq<Event>)
    decreases |es|
  {
    es == [] || (Enabled(j, es[0]) && Legal(Next(j, es[0]), es[1..]))
  }

  function After(j: Job, es: seq<Event>): Job
    requires Legal(j, es)
    decreases |es|
  {
    if es == [] then j else After(Next(j, es[0]), es[1..])
  }

  const NEW_JOB := Job(None, [], [], {})

  /** No report comes with a stamp older than one that has a record already; a report may also vanish. */
  predicate InOrder(j: Job, e: Event) {
    e.NewReport? && e.report.Some? ==> forall r <- j.records :: r.reportUpdatedAt <= e.report.value.updatedAt
  }

  predicate AllInOrder(j: Job, es: seq<Event>)
    requires Legal(j, es)
    decreases |es|
  {
    es == [] || (InOrder(j, es[0]) && AllInOrder(Next(j, es[0]), es[1..]))
  }

  // ---------------------------------------------------------------- the calls, step by step

  class ReviewedJob {
    var report: Option<Report>
    var records: seq<Record>
    var reviews: seq<Review>
    ghost var written: set<int>

    ghost function Abs(): Job
      reads this
    {
      Job(report, records, reviews, written)
    }

    constructor ()
      ensures Abs() == NEW_JOB
    {
      report, records, reviews, written := None, [], [], {};
    }

    /** What a call does before its first await. */
    method Begin(expectedTurn: Option<string>, minimumAt: Option<int>) returns (id: Option<nat>)
      requires Enabled(Abs(), Start(expectedTurn, minimumAt))
      modifies this
      ensures Abs() == Next(old(Abs()), Start(expectedTurn, minimumAt))
      ensures id == if Begins(old(Abs()), expectedTurn, minimumAt) then Some(|old(reviews)|) else None
    {
      if report.None? || !report.value.completed { return None; }
      if expectedTurn.Some? && report.value.turnId != expectedTurn.value { return None; }
      if minimumAt.Some? && report.value.updatedAt < minimumAt.value { return None; }
      var latest := Latest(records);
      if latest.Some? && records[latest.value].reportUpdatedAt == report.value.updatedAt
        && records[latest.value].verdict != Open {
        return None;
      }
      id := Some(|reviews|);
      reviews := reviews + [Review(report.value, expectedTurn, true, Preparing)];
    }

    /** What it does once findings were submitted: collect the results, check once more, record. */
    method Finish(e: Event)
      requires e.Submit? && Enabled(Abs(), e)
      modifies this
      ensures Abs() == Next(old(Abs()), e)
    {
      hide Upsert;
      var review := reviews[e.id];
      var results := e.findings;
      if e.unattributed.Some? { results := results + [e.unattributed.value]; }
      if results == [] { results := [e.none]; }
      assert e.findings + [] == e.findings && results == Results(e);
      reviews := reviews[e.id := review.(stage := Ended)];
      var current := review.current && report.Some? && report.value.turnId == review.report.turnId
        && report.value.updatedAt == review.report.updatedAt
                     && (review.expectedTurn.Some? ==> report.value.turnId == review.expectedTurn.value);
      if !current || !e.hasContract { return; }
      var verdict := if HasBlocking(results) then Rejected else Accepted;
      records := Upsert(records, Record(e.attemptId, e.scopeId, review.report.updatedAt, None, verdict, results));
      written := written + {review.report.updatedAt};
    }
  }

  // ---------------------------------------------------------------- what a record says

  /**
   * A review records findings only for the report that is current at that instant, which is the completed
   * report it started with; the record is rejected exactly when a finding blocks and is not waived, and it is
   * never empty.
   */
  lemma RecordIsForTheCurrentReport(j: Job, e: Event)
    requires Enabled(j, e) && Writes(j, e)
    ensures var r := RecordOf(j.reviews[e.id], e);
            && j.report.Some? && r.reportUpdatedAt == j.report.value.updatedAt
            && j.reviews[e.id].report.turnId == j.report.value.turnId
            && VerdictFits(r) && DistinctIds(r.findings) && r.findings != []
            && (r.verdict == Rejected <==> exists f <- Results(e) :: Blocks(f))
            && Next(j, e).records == Upsert(j.records, r)
  {
  }

  /** The newest record, the first of several, already settles the report. */
  predicate IsSettled(records: seq<Record>, report: Report) {
    exists k: nat ::
      && k < |records| && records[k].reportUpdatedAt == report.updatedAt && records[k].verdict != Open
      && forall j :: 0 <= j < |records| ==>
           if j < k then records[j].reportUpdatedAt < report.updatedAt
           else records[j].reportUpdatedAt <= report.updatedAt
  }

  /**
   * A review begins if and only if there is a completed report, it is of the expected turn, not older than asked for,
   * and not settled yet; it then works on just this report.
   */
  lemma ReviewBegins(j: Job, expectedTurn: Option<string>, minimumAt: Option<int>)
    requires Enabled(j, Start(expectedTurn, minimumAt))
    ensures Next(j, Start(expectedTurn, minimumAt)) == match j.report
            case None => j
            case Some(r) =>
              if r.completed && (expectedTurn == None || expectedTurn == Some(r.turnId))
                 && (minimumAt == None || minimumAt.value <= r.updatedAt) && !IsSettled(j.records, r)
              then j.(reviews := j.reviews + [Review(r, expectedTurn, true, Preparing)]) else j
  {
    if j.report.Some? && IsSettled(j.records, j.report.value) {
      var k: nat :| k < |j.records| && j.records[k].reportUpdatedAt == j.report.value.updatedAt
                    && forall i :: 0 <= i < |j.records| ==>
                         if i < k then j.records[i].reportUpdatedAt < j.report.value.updatedAt
                         else j.records[i].reportUpdatedAt <= j.report.value.updatedAt;
      assert j.records[k] in j.records;
      assert Latest(j.records) == Some(k);
    }
  }

  /**
   * A review ends when it submits or breaks off, and when its report turns out not to be current at its snapshot;
   * unless it submits with its report and attempt still current, nothing is recorded.
   */
  lemma ReviewEnds(j: Job, e: Event)
    requires Enabled(j, e) && (e.Submit? || e.Break? || e.SnapshotReady?)
    ensures var r := j.reviews[e.id];
            var isCurrent := r.current && j.report.Some? && j.report.value.turnId == r.report.turnId
                             && j.report.value.updatedAt == r.report.updatedAt
                             && (r.expectedTurn == None || r.expectedTurn == Some(r.report.turnId));
            && |Next(j, e).reviews| == |j.reviews|
            && (forall i :: 0 <= i < |j.reviews| && i != e.id ==> Next(j, e).reviews[i] == j.reviews[i])
            && Next(j, e).reviews[e.id] == r.(stage := if e.SnapshotReady? && isCurrent then Reviewing else Ended)
            && (Writes(j, e) <==> e.Submit? && isCurrent && e.hasContract)
            && (!Writes(j, e) ==> Next(j, e).records == j.records)
  {
  }

  /**
   * Butler's own verdicts are recorded: a decision with all its findings, a proof's verdict as the last of the newest.
   */
  lemma DecisionsAreRecorded(j: Job, e: Event)
    requires Enabled(j, e)
    ensures e.Decision? ==>
              exists r <- Next(j, e).records :: IsOwn(r, e.record) && forall f <- e.record.findings :: f in r.findings
    ensures e.ProofVerdict? && j.records != [] && e.finding.proofRun == Some(e.run) ==>
              exists r <- Next(j, e).records :: r.findings != [] && r.findings[|r.findings| - 1] == e.finding
    ensures (e.Decision? || e.ProofVerdict?) ==> Next(j, e).reviews == j.reviews && Next(j, e).report == j.report
  {
    if e.Decision? {
      hide Upsert, IsMerged;
      UpsertMergesItsOwn(j.records, e.record);
      DecisionIsThere(j.records, e.record);
    }
    if e.ProofVerdict? && j.records != [] && e.finding.proofRun == Some(e.run) {
      hide AddProofFinding;
      var k := ProofFindingReplaces(j.records, e.finding, e.run, e.proofFailed);
      assert Next(j, e).records[k] in Next(j, e).records;
    }
  }

  lemma DecisionIsThere(records: seq<Record>, r: Record)
    requires DistinctIds(r.findings)
    ensures exists q <- Upsert(records, r) :: IsOwn(q, r) && forall f <- r.findings :: f in q.findings
  {
    hide Upsert, DistinctIds;
    UpsertMergesItsOwn(records, r);
    if forall q <- records :: !IsOwn(q, r) {
      assert (records + [r])[|records|] == r;
    } else {
      var k: nat :| MergesAt(records, r, k);
      assert Upsert(records, r)[k] in Upsert(records, r);
    }
  }

  // ---------------------------------------------------------------- invariants

  ghost predicate VerdictsFit(j: Job) {
    forall r <- j.records :: VerdictFits(r)
  }

  /**
   * Recorded reports have a record; no record is newer than the report there is; the one current review works on an
   * unrecorded report.
   */
  ghost predicate Sound(j: Job) {
    && (forall t <- j.written :: exists r <- j.records :: r.reportUpdatedAt == t)
    && (j.report.Some? ==> forall r <- j.records :: r.reportUpdatedAt <= j.report.value.updatedAt)
    && (forall i ::
        0 <= i < |j.reviews| && j.reviews[i].current && j.reviews[i].stage != Ended
        ==> j.reviews[i].report.updatedAt !in j.written)
    && (forall i, k :: 0 <= i < k < |j.reviews| ==> !j.reviews[i].current || !j.reviews[k].current)
  }

  lemma StepKeepsVerdicts(j: Job, e: Event)
    requires VerdictsFit(j) && Enabled(j, e)
    ensures VerdictsFit(Next(j, e))
  {
    hide VerdictFits, Upsert, AddProofFinding, HasBlocking;
    match e {
      case Decision(record) => UpsertKeepsVerdicts(j.records, record);
      case ProofVerdict(finding, run, proofFailed) => ProofFindingKeepsVerdicts(j.records, finding, run, proofFailed);
      case Submit(id, _, _, _, _, _, _) =>
        if Writes(j, e) {
          RecordIsForTheCurrentReport(j, e);
          UpsertKeepsVerdicts(j.records, RecordOf(j.reviews[id], e));
        }
      case _ =>
    }
  }

  lemma ProofVerdictKeepsTimes(records: seq<Record>, f: Finding, run: string, proofFailed: bool)
    ensures var after := AddProofFinding(records, f, run, proofFailed);
            && |after| == |records|
            && forall i :: 0 <= i < |records| ==> after[i].reportUpdatedAt == records[i].reportUpdatedAt
  {
  }

  /** A report that was recorded is settled as long as it is the current one. */
  lemma RecordedIsReviewed(j: Job)
    requires Sound(j) && VerdictsFit(j) && j.report.Some? && j.report.value.updatedAt in j.written
    ensures AlreadyReviewed(j, j.report.value)
  {
    var k := Latest(j.records);
    assert VerdictFits(j.records[k.value]);
  }

  lemma RecordsChange(j: Job, records: seq<Record>)
    requires Sound(j)
    requires j.report.Some? ==> forall r <- records :: r.reportUpdatedAt <= j.report.value.updatedAt
    requires forall r <- j.records :: exists q <- records :: q.reportUpdatedAt == r.reportUpdatedAt
    ensures Sound(j.(records := records))
  {
  }

  lemma StepKeepsSound(j: Job, e: Event)
    requires Sound(j) && VerdictsFit(j) && Enabled(j, e) && InOrder(j, e)
    ensures Sound(Next(j, e))
  {
    hide VerdictFits, Upsert, AddProofFinding, DistinctIds, HasBlocking;
    match e {
      case NewReport(report) =>
      case Decision(record) =>
        UpsertKeepsTimes(j.records, record);
        RecordsChange(j, Upsert(j.records, record));
      case ProofVerdict(finding, run, proofFailed) =>
        ProofVerdictKeepsTimes(j.records, finding, run, proofFailed);
        SameTimes(j, AddProofFinding(j.records, finding, run, proofFailed));
      case Start(expectedTurn, minimumAt) => StartKeepsSound(j, expectedTurn, minimumAt);
      case Expire(id) =>
      case SnapshotReady(id) =>
      case Submit(id, _, _, _, _, _, _) => SubmitKeepsSound(j, e);
      case Break(id) =>
    }
  }

  lemma SameTimes(j: Job, records: seq<Record>)
    requires Sound(j) && |records| == |j.records|
             && forall i :: 0 <= i < |records| ==> records[i].reportUpdatedAt == j.records[i].reportUpdatedAt
    ensures Sound(j.(records := records))
  {
    forall r | r in j.records ensures exists q <- records :: q.reportUpdatedAt == r.reportUpdatedAt {
      var i :| 0 <= i < |j.records| && j.records[i] == r;
      assert records[i] in records;
    }
    forall r | r in records ensures j.report.Some? ==> r.reportUpdatedAt <= j.report.value.updatedAt {
      var i :| 0 <= i < |records| && records[i] == r;
      assert j.records[i] in j.records;
    }
    RecordsChange(j, records);
  }

  lemma StartKeepsSound(j: Job, expectedTurn: Option<string>, minimumAt: Option<int>)
    requires Sound(j) && VerdictsFit(j) && Enabled(j, Start(expectedTurn, minimumAt))
    ensures Sound(Next(j, Start(expectedTurn, minimumAt)))
  {
    hide VerdictsFit, AlreadyReviewed;
    if j.report.Some? && j.report.value.updatedAt in j.written { RecordedIsReviewed(j); }
  }

  lemma SubmitKeepsSound(j: Job, e: Event)
    requires Sound(j) && e.Submit? && Enabled(j, e)
    ensures Sound(Next(j, e))
  {
    hide VerdictFits, Upsert, DistinctIds, HasBlocking, Results;
    var ended := Set(j, e.id, j.reviews[e.id].(stage := Ended));
    assert Sound(ended);
    if Writes(j, e) {
      var record := RecordOf(j.reviews[e.id], e);
      UpsertKeepsTimes(j.records, record);
      RecordsChange(ended, Upsert(j.records, record));
      OneIsCurrent(j, e.id);
    }
  }

  lemma OneIsCurrent(j: Job, id: nat)
    requires Sound(j) && id < |j.reviews| && j.reviews[id].current
    ensures forall i :: 0 <= i < |j.reviews| && i != id ==> !j.reviews[i].current
  {
  }

  // ---------------------------------------------------------------- theorems

  lemma {:induction false} RunKeepsVerdicts(j: Job, es: seq<Event>)
    requires VerdictsFit(j) && Legal(j, es)
    ensures VerdictsFit(After(j, es))
    decreases |es|
  {
    hide VerdictsFit, Next, Enabled;
    if es != [] {
      StepKeepsVerdicts(j, es[0]);
      RunKeepsVerdicts(Next(j, es[0]), es[1..]);
    }
  }

  /** In every run, every record is rejected exactly when it holds a blocking finding that is not waived. */
  lemma VerdictsAlwaysFit(es: seq<Event>)
    requires Legal(NEW_JOB, es)
    ensures forall r <- After(NEW_JOB, es).records :: VerdictFits(r)
  {
    RunKeepsVerdicts(NEW_JOB, es);
  }

  lemma {:induction false} RunKeepsSound(j: Job, es: seq<Event>)
    requires Sound(j) && VerdictsFit(j) && Legal(j, es) && AllInOrder(j, es)
    ensures Sound(After(j, es)) && VerdictsFit(After(j, es))
    decreases |es|
  {
    hide Sound, VerdictsFit, Next, Enabled, InOrder;
    if es != [] {
      StepKeepsSound(j, es[0]);
      StepKeepsVerdicts(j, es[0]);
      RunKeepsSound(Next(j, es[0]), es[1..]);
    }
  }

  /**
   * Whatever reports, decisions and attempts come in between: as long as no report comes with a stamp older than a
   * recorded one, no review records findings for a report for which one already has.
   */
  lemma EachReportIsRecordedOnce(es: seq<Event>, e: Event)
    requires Legal(NEW_JOB, es) && AllInOrder(NEW_JOB, es)
    requires Enabled(After(NEW_JOB, es), e) && Writes(After(NEW_JOB, es), e)
    ensures var j := After(NEW_JOB, es); j.reviews[e.id].report.updatedAt !in j.written
  {
    hide Legal, AllInOrder, After;
    RunKeepsSound(NEW_JOB, es);
  }

  /**
   * Out of order it can happen again: when a report with an older stamp comes back, the latest record is
   * that of the newer stamp, and a report already recorded is reviewed anew. That is the only way.
   */
  lemma OlderReportIsReviewedAgain(j: Job, expectedTurn: Option<string>)
    requires VerdictsFit(j) && j.report.Some? && j.report.value.completed
    requires (exists r <- j.records :: r.reportUpdatedAt == j.report.value.updatedAt)
    requires expectedTurn.Some? ==> j.report.value.turnId == expectedTurn.value
    ensures Begins(j, expectedTurn, None) <==> exists r <- j.records :: r.reportUpdatedAt > j.report.value.updatedAt
  {
    var k := Latest(j.records);
    assert VerdictFits(j.records[k.value]);
  }

  // ---------------------------------------------------------------- a life in which a report is recorded twice

  function Completed(at: int): Report {
    Report("turn", at, true)
  }

  function Remark(): Finding {
    Finding("none", false, false, None, 0)
  }

  /** One review without findings, from its report to its record, and then its owner is done with it. */
  function Round(id: nat, at: int): seq<Event> {
    [NewReport(Some(Completed(at))), Start(None, None), SnapshotReady(id), Submission(id), Expire(id)]
  }

  function Submission(id: nat): Event {
    Submit(id, [], None, Remark(), "attempt", "scope", true)
  }

  function NoFindings(at: int): Record {
    Record("attempt", "scope", at, None, Accepted, [Remark()])
  }

  /** The job right before the submission of the round. */
  function Submitting(j: Job, at: int): Job {
    j.(report := Some(Completed(at)), reviews := j.reviews + [Review(Completed(at), None, true, Reviewing)])
  }

  function Recorded(j: Job, at: int): Job {
    Job(Some(Completed(at)), Upsert(j.records, NoFindings(at)), j.reviews + [Review(Completed(at), None, false, Ended)],
        j.written + {at})
  }

  predicate IsFree(j: Job) {
    forall r <- j.reviews :: !r.current
  }

  lemma Shown(j: Job, at: int)
    requires !AlreadyReviewed(j, Completed(at))
    ensures var shown := Next(j, NewReport(Some(Completed(at))));
            shown == j.(report := Some(Completed(at))) && Begins(shown, None, None)
  {
  }

  lemma Ready(j: Job, at: int)
    ensures var begun := j.(report := Some(Completed(at)),
                            reviews := j.reviews + [Review(Completed(at), None, true, Preparing)]);
            Enabled(begun, SnapshotReady(|j.reviews|)) && Next(begun, SnapshotReady(|j.reviews|)) == Submitting(j, at)
  {
    var begun := j.reviews + [Review(Completed(at), None, true, Preparing)];
    assert begun[|j.reviews| := Review(Completed(at), None, true, Reviewing)]
           == j.reviews + [Review(Completed(at), None, true, Reviewing)];
  }

  lemma OneEvent(j: Job, e: Event)
    requires Enabled(j, e)
    ensures Legal(j, [e]) && After(j, [e]) == Next(j, e)
  {
    hide Enabled, Next;
    assert [e][1..] == [];
  }

  lemma TwoEvents(j: Job, a: Event, b: Event)
    requires Enabled(j, a) && Enabled(Next(j, a), b)
    ensures Legal(j, [a, b]) && After(j, [a, b]) == Next(Next(j, a), b)
  {
    hide Enabled, Next;
    assert [a, b][1..] == [b];
    OneEvent(Next(j, a), b);
  }

  lemma ThreeEvents(j: Job, a: Event, b: Event, c: Event)
    requires Enabled(j, a) && Enabled(Next(j, a), b) && Enabled(Next(Next(j, a), b), c)
    ensures Legal(j, [a, b, c]) && After(j, [a, b, c]) == Next(Next(Next(j, a), b), c)
  {
    hide Enabled, Next;
    assert [a, b, c][1..] == [b, c];
    TwoEvents(Next(j, a), b, c);
  }

  lemma RoundReaches(j: Job, at: int)
    requires IsFree(j) && !AlreadyReviewed(j, Completed(at))
    ensures var start := Round(|j.reviews|, at)[..3]; Legal(j, start) && After(j, start) == Submitting(j, at)
    ensures Enabled(Submitting(j, at), Submission(|j.reviews|)) && Writes(Submitting(j, at), Submission(|j.reviews|))
  {
    var id := |j.reviews|;
    assert Results(Submission(id)) == [Remark()];
    Shown(j, at);
    Ready(j, at);
    hide Begins, Submitting, Legal, After;
    ThreeEvents(j, NewReport(Some(Completed(at))), Start(None, None), SnapshotReady(id));
    assert Round(id, at)[..3] == [NewReport(Some(Completed(at))), Start(None, None), SnapshotReady(id)];
  }

  lemma {:induction false} AfterConcat(j: Job, a: seq<Event>, b: seq<Event>)
    requires Legal(j, a) && Legal(After(j, a), b)
    ensures Legal(j, a + b) && After(j, a + b) == After(After(j, a), b)
    decreases |a|
  {
    hide Next, Enabled;
    if a == [] {
      assert a + b == b;
    } else {
      AfterConcat(Next(j, a[0]), a[1..], b);
      assert (a + b)[1..] == a[1..] + b;
    }
  }

  lemma Settles(j: Job, at: int)
    requires IsFree(j) && Enabled(Submitting(j, at), Submission(|j.reviews|))
             && Writes(Submitting(j, at), Submission(|j.reviews|))
    ensures var recorded := Next(Submitting(j, at), Submission(|j.reviews|));
            Enabled(recorded, Expire(|j.reviews|)) && Next(recorded, Expire(|j.reviews|)) == Recorded(j, at)
    ensures IsFree(Recorded(j, at))
  {
    hide Upsert, VerdictFits;
    var id := |j.reviews|;
    assert Results(Submission(id)) == [Remark()]
           && RecordOf(Submitting(j, at).reviews[id], Submission(id)) == NoFindings(at);
    var recorded := Next(Submitting(j, at), Submission(id));
    assert recorded.reviews == j.reviews + [Review(Completed(at), None, true, Ended)];
    assert Next(recorded, Expire(id)).reviews == Recorded(j, at).reviews;
  }

  lemma RoundRecords(j: Job, at: int)
    requires IsFree(j) && !AlreadyReviewed(j, Completed(at))
    ensures Legal(j, Round(|j.reviews|, at)) && After(j, Round(|j.reviews|, at)) == Recorded(j, at)
            && IsFree(Recorded(j, at))
  {
    hide AlreadyReviewed, Upsert, Legal, After, Next, Enabled, Writes, Submitting, Recorded, IsFree;
    var id := |j.reviews|;
    RoundReaches(j, at);
    Settles(j, at);
    TwoEvents(Submitting(j, at), Submission(id), Expire(id));
    AfterConcat(j, Round(id, at)[..3], [Submission(id), Expire(id)]);
    assert Round(id, at)[..3] + [Submission(id), Expire(id)] == Round(id, at);
  }

  lemma TwoRecords()
    ensures var first := Recorded(NEW_JOB, 10); var second := Recorded(first, 20);
            && !AlreadyReviewed(NEW_JOB, Completed(10)) && !AlreadyReviewed(first, Completed(20))
            && !AlreadyReviewed(second, Completed(10))
            && second.written == {10, 20} && |first.reviews| == 1 && |second.reviews| == 2
  {
    var first := Recorded(NEW_JOB, 10);
    var second := Recorded(first, 20);
    assert first.records == [NoFindings(10)] && second.records == [NoFindings(10), NoFindings(20)];
    assert NoFindings(20) in second.records;
  }

  /**
   * Out of order it does happen: the report stamped 10 is recorded, then one stamped 20, then the first is shown again
   * and a review records its findings a second time.
   */
  lemma ReportIsRecordedTwice() returns (es: seq<Event>, e: Event)
    ensures Legal(NEW_JOB, es) && Enabled(After(NEW_JOB, es), e) && Writes(After(NEW_JOB, es), e)
    ensures var j := After(NEW_JOB, es); j.reviews[e.id].report.updatedAt in j.written
  {
    var first := Recorded(NEW_JOB, 10);
    var second := Recorded(first, 20);
    TwoRecords();
    assert IsFree(NEW_JOB);
    hide Legal, After, AlreadyReviewed, Upsert, Next, Enabled, Writes, Recorded, IsFree, Round;
    RoundRecords(NEW_JOB, 10);
    RoundRecords(first, 20);
    RoundReaches(second, 10);
    AfterConcat(NEW_JOB, Round(0, 10), Round(1, 20));
    AfterConcat(NEW_JOB, Round(0, 10) + Round(1, 20), Round(2, 10)[..3]);
    es, e := Round(0, 10) + Round(1, 20) + Round(2, 10)[..3], Submission(2);
    assert Submitting(second, 10).reviews[2].report == Completed(10);
  }

  // ---------------------------------------------------------------- the submission tool

  /** submit_review: the first valid submission counts, invalid ones do not use it up. */
  class SubmissionTool<T> {
    var accepted: bool
    var submitted: seq<T>

    ghost predicate Valid()
      reads this
    {
      |submitted| == if accepted then 1 else 0
    }

    constructor ()
      ensures Valid() && !accepted
    {
      accepted, submitted := false, [];
    }

    method Execute(review: Option<T>) returns (ok: bool)
      requires Valid()
      modifies this
      ensures Valid() && ok == (!old(accepted) && review.Some?)
      ensures submitted == if ok then [review.value] else old(submitted)
    {
      if accepted || review.None? { return false; }
      accepted := true;
      submitted := submitted + [review.value];
      ok := true;
    }
  }
}
