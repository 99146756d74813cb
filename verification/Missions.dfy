/** What a runtime mission writes, and what a comparison of commits accepts. */
module Missions {
  import opened Options
  import opened Records
  import opened Text
  import opened Numerals
  import opened StateMachines
  import opened Transitions
  import opened Remediations
  import opened Engines
  import opened Handlers

  // ---------------------------------------------------------------- commits

  predicate AllSpace(s: string) { forall i | 0 <= i < |s| :: IsSpace(s[i]) }

  /** A commit SHA is a hexadecimal numeral of seven to forty digits. */
  lemma ShaIsNumeral(s: string)
    ensures IsSha(s) <==> 7 <= |s| <= 40 && IsNumeral(s, 16)
  {}

  lemma {:induction false} TrimLeftDrops(lead: string, s: string)
    requires AllSpace(lead) && (s == "" || !IsSpace(s[0]))
    ensures TrimLeft(lead + s) == s
  {
    if lead == "" {
      assert lead + s == s;
    } else {
      assert (lead + s)[1..] == lead[1..] + s;
      TrimLeftDrops(lead[1..], s);
    }
  }

  lemma {:induction false} TrimRightDrops(s: string, trail: string)
    requires AllSpace(trail) && (s == "" || !IsSpace(s[|s| - 1]))
    ensures TrimRight(s + trail) == s
  {
    if trail == "" {
      assert s + trail == s;
    } else {
      assert (s + trail)[..|s + trail| - 1] == s + trail[..|trail| - 1];
      TrimRightDrops(s, trail[..|trail| - 1]);
    }
  }

  lemma TrimDrops(lead: string, s: string, trail: string)
    requires AllSpace(lead) && AllSpace(trail) && s != "" && !IsSpace(s[0]) && !IsSpace(s[|s| - 1])
    ensures Trim(lead + s + trail) == s
  {
    assert lead + s + trail == lead + (s + trail);
    TrimLeftDrops(lead, s + trail);
    TrimRightDrops(s, trail);
  }

  lemma ShaHasNoSpace(s: string)
    requires IsSha(s)
    ensures s != "" && !IsSpace(s[0]) && !IsSpace(s[|s| - 1])
  {}

  lemma ShaIsTrimmed(s: string, lead: string, trail: string)
    requires IsSha(s) && AllSpace(lead) && AllSpace(trail)
    ensures Trim(lead + s + trail) == s && Trim(s) == s && s != "" && lead + s + trail != ""
  {
    ShaHasNoSpace(s);
    TrimDrops(lead, s, trail);
    TrimDrops("", s, "");
    assert "" + s + "" == s;
  }

  /**
   Commits match iff they are the same digits: case and surrounding space do not matter, every digit does,
   and a build without a commit matches nothing.
   */
  lemma CommitsMatchIff(a: string, b: string, lead: string, trail: string)
    requires IsSha(a) && IsSha(b) && AllSpace(lead) && AllSpace(trail)
    ensures CommitMatchesBuild(lead + a + trail, b)
            <==> |a| == |b| && forall i | 0 <= i < |a| :: SameLetter(a[i], b[i])
    ensures CommitMatchesBuild(a, lead + b + trail) <==> CommitMatchesBuild(a, b)
    ensures !CommitMatchesBuild(a, "")
  {
    hide Trim, Lower, IsSha, SameLetter, AllSpace;
    ShaIsTrimmed(a, lead, trail);
    ShaIsTrimmed(b, lead, trail);
    LowerForgetsCase(a, b);
  }

  // ---------------------------------------------------------------- a mission against a known finding

  /** Where a mission leaves a queued finding: only complete evidence on the expected commit is conclusive. */
  function Moved(verdict: Verdict, conclusive: bool): FindingStatus {
    match verdict
    case MissionFailed => ValidationQueued
    case NoConclusion => Inconclusive
    case Exploited => if conclusive then Confirmed else Inconclusive
    case NotExploited => if conclusive then NotReproduced else Inconclusive
  }

  /** The evidence is always kept; a failed mission moves nothing, whatever else was wrong with it. */
  lemma KnownCorrelation(
    db: Db, r: nat, f: nat, expected: string, build: string, complete: bool, verdict: Verdict, cost: real)
    requires f < |db.findings| && db.findings[f].status == ValidationQueued
    ensures var next := CorrelateKnown(db, r, f, expected, build, complete, verdict, cost);
            var to := Moved(verdict, complete && CommitMatchesBuild(expected, build));
            && next.Some? && next.value.findings == db.findings[f := db.findings[f].(status := to)]
            && next.value.validations == db.validations + [Validation(f, verdict, build)]
            && next.value.executions == db.executions + [Execution(r, cost)]
            && next.value.events == db.events + (if verdict == MissionFailed then []
                                                 else [FindingMoved(f, Some(r), Some(ValidationQueued), to)])
            && next.value.runs == db.runs && next.value.requests == db.requests
            && next.value.remediations == db.remediations
  {
    hide CommitMatchesBuild;
    if verdict == MissionFailed {
      assert db.findings[f := db.findings[f].(status := ValidationQueued)] == db.findings;
    }
  }

  /** Only a queued finding takes every verdict: on any other, a mission throws unless its move is legal. */
  lemma CorrelationThrowsIff(
    db: Db, r: nat, f: nat, expected: string, build: string, complete: bool, verdict: Verdict, cost: real)
    ensures var next := CorrelateKnown(db, r, f, expected, build, complete, verdict, cost);
            next.None? <==> f >= |db.findings|
                            || (verdict != MissionFailed
                                && !FindingEdge(db.findings[f].status,
                                                Moved(verdict, complete && CommitMatchesBuild(expected, build))))
  {
    hide CommitMatchesBuild, FindingEdge;
  }

  ghost predicate SameEvidence(a: Db, b: Db) {
    && a.findings == b.findings && a.validations == b.validations && a.executions == b.executions
    && a.remediations == b.remediations
  }

  lemma RequestKeepsEvidence(p: Progress, q: Request)
    ensures SameEvidence(p.db, CommitRequest(p, q).db)
  {}

  lemma RunMoveKeepsEvidence(p: Progress, r: nat, to: RunStatus)
    ensures SameEvidence(p.db, CommitRun(p, r, to).db)
  {}

  lemma FinalizingKeepsEvidence(p: Progress, r: nat)
    ensures SameEvidence(p.db, FinalizeRun(p, r).db)
  {
    hide CommitRun, CommitRequest, Disposition, Touched;
    if r < |p.db.runs| {
      var to := Disposition(p.db, Touched(p.db.events, r));
      RunMoveKeepsEvidence(p, r, to);
      var p1 := CommitRun(p, r, to);
      RequestKeepsEvidence(p1, ReceiptJob(r));
      var p2 := CommitRequest(p1, ReceiptJob(r));
      RequestKeepsEvidence(p2, CompletedWebhook(r, to));
      RequestKeepsEvidence(CommitRequest(p2, CompletedWebhook(r, to)), BlockedWebhook(r));
    }
  }

  /** One validation job: what it stores, and where it leaves its finding and all others. */
  lemma MissionMoves(p: Progress, r: nat, f: nat, verdict: Verdict, cost: real)
    requires p.live && p.left >= 1 && r < |p.db.runs| && p.db.runs[r].target.Some?
    requires f < |p.db.findings| && p.db.findings[f].status == ValidationQueued
    ensures var q := ValidateStrix(p, r, f, verdict, cost);
            var head := p.db.runs[r].headSha;
            && q.db.findings == p.db.findings[f := p.db.findings[f].(status := Moved(verdict, head != ""))]
            && q.db.validations == p.db.validations + [Validation(f, verdict, head)]
            && q.db.executions == p.db.executions + [Execution(r, cost)]
            && q.db.remediations == p.db.remediations
  {
    hide CorrelateKnown, FinalizeRun, AnyWith, Touched, Moved, Lower, Trim;
    var head := p.db.runs[r].headSha;
    KnownCorrelation(p.db, r, f, head, head, true, verdict, cost);
    var p1 := Commit(p, CorrelateKnown(p.db, r, f, head, head, true, verdict, cost));
    FinalizingKeepsEvidence(p1, r);
  }

  /** It throws, with nothing stored, if its run, its target or its finding is missing. */
  lemma MissionThrows(p: Progress, r: nat, f: nat, verdict: Verdict, cost: real)
    requires r >= |p.db.runs| || p.db.runs[r].target.None? || f >= |p.db.findings|
    ensures ValidateStrix(p, r, f, verdict, cost) == p.(live := false)
  {}

  /** No job does anything for a run that does not exist, before its snapshot, or classifies a change twice. */
  lemma JobsThrow(
    p: Progress, r: nat, f: nat, candidates: seq<nat>, allowed: bool, budget: real, reports: seq<Report>,
    verdict: Verdict, cost: real)
    ensures var stopped := p.(live := false);
            && (r >= |p.db.runs| ==>
                  Prepare(p, r) == Classify(p, r) == DeepSec(p, r, reports, cost) == stopped
                  && Route(p, r, candidates, allowed, budget) == ValidateStrix(p, r, f, verdict, cost) == stopped
                  && Revalidate(p, r, f, reports, cost) == Retest(p, r, f, verdict, cost) == stopped)
            && (r !in p.db.snapshots ==>
                  Classify(p, r) == DeepSec(p, r, reports, cost) == Revalidate(p, r, f, reports, cost) == stopped)
            && (r in p.db.classified ==> Classify(p, r) == stopped)
            && (r >= |p.db.runs| || f >= |p.db.findings| ==> RouteOne(p, r, f, allowed, budget) == stopped)
            && (f >= |p.db.findings| ==>
                  Revalidate(p, r, f, reports, cost) == Retest(p, r, f, verdict, cost) == stopped)
  {}

  /** The replay of a fix stores its evidence and its cost, on the head of the run that verifies it. */
  lemma ReplayStores(p: Progress, r: nat, f: nat, verdict: Verdict, cost: real)
    requires p.live && p.left >= 1 && r < |p.db.runs| && p.db.runs[r].target.Some?
    requires f < |p.db.findings| && f in p.db.remediations
    ensures var q := Retest(p, r, f, verdict, cost);
            && q.db.validations == p.db.validations + [Validation(f, verdict, p.db.runs[r].headSha)]
            && q.db.executions == p.db.executions + [Execution(r, cost)]
            && (forall g | 0 <= g < |p.db.findings| && g != f :: g < |q.db.findings|
                                                                && q.db.findings[g] == p.db.findings[g])
            && f in q.db.remediations && q.db.remediations[f].fixCommit == p.db.remediations[f].fixCommit
  {
    hide FinalizeRun, CommitMatchesBuild, DetermineVerificationOutcome, StoredVerdict, RetestVerdict;
    var fix, build := p.db.remediations[f], AssumedTargetBuild(p.db.runs[r].headSha);
    var p1 := Commit(p, PersistStrix(p.db, r, f, build, verdict, cost, Forced(None)));
    var p2 := Commit(p1, CompleteFixVerification(
                           p1.db, f, r, StoredVerdict(fix.source), true, RetestVerdict(verdict),
                           CommitMatchesBuild(fix.fixCommit, build), verdict == MissionFailed));
    FinalizingKeepsEvidence(p2, r);
  }

  // ---------------------------------------------------------------- a mission without a finding

  /** A confirmed discovery is stored with its evidence: on the known finding, which does not move, */
  lemma RediscoveryEffect(
    db: Db, repo: nat, r: nat, expected: string, build: string, report: Report, located: bool, cost: real, id: nat)
    requires FindByPrint(db.findings, repo, report.fingerprint) == Some(id)
    ensures CorrelateExploratory(db, repo, r, expected, build, Exploited, Some(report), located, cost)
         == Some(db.(executions := db.executions + [Execution(r, cost)],
                     findings := db.findings[id := db.findings[id].(lastSeen := expected)],
                     validations := db.validations + [Validation(id, Exploited, build)]))
  {
    hide FindByPrint;
  }

  /** or as a new one, which the log takes through all statuses up to confirmed. */
  lemma DiscoveryEffect(
    db: Db, repo: nat, r: nat, expected: string, build: string, report: Report, located: bool, cost: real)
    requires FindByPrint(db.findings, repo, report.fingerprint) == None
    ensures var next := CorrelateExploratory(db, repo, r, expected, build, Exploited, Some(report), located, cost);
            var id := |db.findings|;
            && next.Some?
            && next.value.findings
            == db.findings + [Finding(repo, report.fingerprint, report.severity, report.confidence,
                                      report.category, Confirmed, expected, expected)]
            && next.value.locations
            == db.locations + (if located then [Location(id, report.filePath, expected)] else [])
            && next.value.validations == db.validations + [Validation(id, Exploited, build)]
            && next.value.executions == db.executions + [Execution(r, cost)]
            && next.value.events
            == db.events + [FindingMoved(id, Some(r), None, Suspected)]
               + [FindingMoved(id, Some(r), Some(Suspected), SourceConfirmed)]
               + [FindingMoved(id, Some(r), Some(SourceConfirmed), ValidationQueued)]
               + [FindingMoved(id, Some(r), Some(ValidationQueued), Confirmed)]
            && next.value.runs == db.runs && next.value.requests == db.requests
  {
    hide FindByPrint;
    WalkIs(db, repo, r, expected, report, located, cost);
    hide WalkToConfirmed;
  }

  lemma WalkIs(db: Db, repo: nat, r: nat, expected: string, report: Report, located: bool, cost: real)
    ensures var id := |db.findings|;
            var row := Finding(repo, report.fingerprint, report.severity, report.confidence, report.category,
                               Suspected, expected, expected);
            var places := if located then [Location(id, report.filePath, expected)] else [];
            var a := db.(executions := db.executions + [Execution(r, cost)]);
            var b := InsertFinding(a, row, r).(locations := db.locations + places);
            WalkToConfirmed(b, id, r)
            == Some(b.(findings := db.findings + [row.(status := Confirmed)],
                       events := b.events + [FindingMoved(id, Some(r), Some(Suspected), SourceConfirmed)]
                                 + [FindingMoved(id, Some(r), Some(SourceConfirmed), ValidationQueued)]
                                 + [FindingMoved(id, Some(r), Some(ValidationQueued), Confirmed)]))
  {
    var id := |db.findings|;
    var row := Finding(repo, report.fingerprint, report.severity, report.confidence, report.category,
                       Suspected, expected, expected);
    var places := if located then [Location(id, report.filePath, expected)] else [];
    var b := InsertFinding(db.(executions := db.executions + [Execution(r, cost)]), row, r).(
      locations := db.locations + places);
    var b1 := TransitionFinding(b, id, SourceConfirmed, Some(r)).value;
    var b2 := TransitionFinding(b1, id, ValidationQueued, Some(r)).value;
    assert b1.findings == db.findings + [row.(status := SourceConfirmed)];
    assert b2.findings == db.findings + [row.(status := ValidationQueued)];
    assert TransitionFinding(b2, id, Confirmed, Some(r)).value.findings
        == db.findings + [row.(status := Confirmed)];
  }
}
