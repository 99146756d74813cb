/** How the verification of a fix ends: exactly which checks lead to which verdict, finding and run status. */
module FixOutcomes {
  import opened Options
  import opened Records
  import opened StateMachines
  import opened Remediations
  import opened Engines
  import opened Handlers
  import opened ReviewRuns

  /** The checks that a fix has to pass: the source review, and the replay if one is required. */
  function Checks(sourcePassed: Option<bool>, retestRequired: bool, retestPassed: Option<bool>): seq<Option<bool>> {
    [sourcePassed] + if retestRequired then [retestPassed] else []
  }

  predicate All(checks: seq<Option<bool>>, result: bool) {
    forall i | 0 <= i < |checks| :: checks[i] == Some(result)
  }

  predicate AllKnown(checks: seq<Option<bool>>) { forall i | 0 <= i < |checks| :: checks[i].Some? }

  /**
   Fixed: every required check passed. Still exploitable: every one failed. Partially fixed: they are all
   known and disagree. A replay counts only against the fix commit; without a source verdict nothing does.
   */
  lemma OutcomeIsExact(
    sourcePassed: Option<bool>, retestRequired: bool, retestPassed: Option<bool>, buildMatches: bool,
    operationalFailure: bool)
    ensures var checks := Checks(sourcePassed, retestRequired, retestPassed);
            var judged := !operationalFailure && sourcePassed.Some?;
            var usable := judged && (retestRequired ==> buildMatches) && AllKnown(checks);
            var outcome := DetermineVerificationOutcome(
                             sourcePassed, retestRequired, retestPassed, buildMatches, operationalFailure);
            && (outcome == Fixed <==> usable && All(checks, true))
            && (outcome == Exploitable <==> usable && All(checks, false))
            && (outcome == PartiallyFixed <==> usable && !All(checks, true) && !All(checks, false))
            && (outcome == OpenOutcome <==> judged && !usable)
            && (outcome == VerificationFailed <==> !judged)
  {
    var checks := Checks(sourcePassed, retestRequired, retestPassed);
    assert checks[0] == sourcePassed;
    assert retestRequired ==> checks[1] == retestPassed;
  }

  /** Where the replay leaves the finding, given the source result that was stored before it. */
  function AfterReplay(source: CheckOutcome, buildMatches: bool, verdict: Verdict): FindingStatus {
    if source !in [Passed, NotPassed] || verdict == MissionFailed then Retesting
    else if !buildMatches || verdict == NoConclusion then Inconclusive
    else if source == Passed && verdict == NotExploited then VerifiedFixed
    else if source == NotPassed && verdict == Exploited then StillExploitable
    else Inconclusive
  }

  /** The disposition of a run that verified f, given what else the run touched. */
  function EndOfRun(db: Db, r: nat, f: nat, to: FindingStatus): RunStatus {
    var others := Touched(db.events, r) - {f};
    if to == StillExploitable || AnyWith(db, others, {Confirmed, StillExploitable}) then Blocked
    else if AnyWith(db, others, {SourceConfirmed, FixPending}) then AwaitingFix
    else Completed
  }

  lemma WithoutF(db: Db, ids: set<nat>, f: nat, statuses: set<FindingStatus>)
    requires f < |db.findings|
    ensures AnyWith(db, ids, statuses)
       <==> AnyWith(db, ids - {f}, statuses) || (f in ids && db.findings[f].status in statuses)
  {
    if g :| g in ids && g < |db.findings| && db.findings[g].status in statuses {
      assert g != f ==> g in ids - {f};
    }
  }

  /** The run ends blocked if f ends still_exploitable, and otherwise as the other findings it touched say. */
  lemma FixRunEnds(p: Progress, r: nat, f: nat)
    requires p.live && p.left >= 4 && r < |p.db.runs| && f < |p.db.findings|
    requires p.db.runs[r].status in [SourceReviewCompleted, ValidationRunning]
    requires p.db.findings[f].status in [Retesting, VerifiedFixed, StillExploitable, Inconclusive]
    requires p.db.findings[f].status == StillExploitable ==> f in Touched(p.db.events, r)
    ensures var q := FinalizeRun(p, r);
            && q.live && q.db.findings == p.db.findings && |q.db.runs| == |p.db.runs|
            && q.db.runs[r].status == EndOfRun(p.db, r, f, p.db.findings[f].status)
  {
    var ids := Touched(p.db.events, r);
    WithoutF(p.db, ids, f, {Confirmed, StillExploitable});
    WithoutF(p.db, ids, f, {SourceConfirmed, FixPending});
    assert Disposition(p.db, ids) == EndOfRun(p.db, r, f, p.db.findings[f].status) by {
      hide AnyWith, Touched;
    }
    hide AnyWith, Touched, Disposition, EndOfRun;
    FinalizeFromReview(p, r);
  }

  lemma FinalizeFromReview(p: Progress, r: nat)
    requires p.live && p.left >= 4 && r < |p.db.runs|
    requires p.db.runs[r].status in [SourceReviewCompleted, ValidationRunning]
    ensures var q := FinalizeRun(p, r);
            && q.live && q.db.findings == p.db.findings && |q.db.runs| == |p.db.runs|
            && q.db.runs[r].status == Disposition(p.db, Touched(p.db.events, r))
  {
    var to := Disposition(p.db, Touched(p.db.events, r));
    assert to in [Blocked, AwaitingFix, Completed] && RunEdge(p.db.runs[r].status, to);
    hide Disposition, Touched, RunEdge;
  }

  function StatusAfter(outcome: VerificationOutcome): FindingStatus {
    if ToFindingStatus(outcome).Some? then ToFindingStatus(outcome).value else Retesting
  }

  /** How a check is stored: passed, failed, or inconclusive if it said neither. */
  function CheckedAs(passed: Option<bool>): CheckOutcome {
    if passed == Some(true) then Passed else if passed == Some(false) then NotPassed else Undecided
  }

  lemma StoredAsChecked(passed: Option<bool>)
    ensures ToCheckOutcome(passed) == CheckedAs(passed)
  {}

  /** The verdict is written, and the finding moves accordingly while all others stay. */
  lemma CompletionMoves(
    db: Db, f: nat, r: nat, sourcePassed: Option<bool>, retestRequired: bool, retestPassed: Option<bool>,
    buildMatches: bool, operationalFailure: bool)
    requires f < |db.findings| && f in db.remediations && db.findings[f].status == Retesting
    ensures var next := CompleteFixVerification(
                          db, f, r, sourcePassed, retestRequired, retestPassed, buildMatches, operationalFailure);
            var outcome := DetermineVerificationOutcome(
                             sourcePassed, retestRequired, retestPassed, buildMatches, operationalFailure);
            && next.Some? && next.value.runs == db.runs
            && next.value.remediations == db.remediations[
                 f := Remediation(db.remediations[f].fixCommit, CheckedAs(sourcePassed),
                                  if retestRequired then CheckedAs(retestPassed) else NotApplicable, Some(outcome))]
            && next.value.findings == db.findings[f := db.findings[f].(status := StatusAfter(outcome))]
            && Touched(next.value.events, r)
            == Touched(db.events, r) + if StatusAfter(outcome) == Retesting then {} else {f}
  {
    var outcome :=
      DetermineVerificationOutcome(sourcePassed, retestRequired, retestPassed, buildMatches, operationalFailure);
    var to := ToFindingStatus(outcome);
    StoredAsChecked(sourcePassed);
    StoredAsChecked(retestPassed);
    hide DetermineVerificationOutcome, ToCheckOutcome;
    if to.Some? {
      assert FindingEdge(Retesting, to.value) && to.value != Retesting;
      TouchedExtends(db.events, FindingMoved(f, Some(r), Some(Retesting), to.value), r);
    } else {
      assert db.findings[f := db.findings[f].(status := Retesting)] == db.findings;
    }
    hide Touched, ToFindingStatus, FindingEdge;
  }

  /** Only f moved, so the other findings call for the same end as before. */
  lemma SameEnd(a: Db, b: Db, r: nat, f: nat, to: FindingStatus)
    requires f < |a.findings| == |b.findings|
    requires forall g | 0 <= g < |a.findings| && g != f :: a.findings[g] == b.findings[g]
    requires Touched(a.events, r) - {f} == Touched(b.events, r) - {f}
    ensures EndOfRun(a, r, f, to) == EndOfRun(b, r, f, to)
  {
    var others := Touched(a.events, r) - {f};
    hide Touched;
    assert forall s: set<FindingStatus> :: AnyWith(a, others, s) <==> AnyWith(b, others, s);
  }

  lemma CompletionConcludes(
    p: Progress, f: nat, r: nat, sourcePassed: Option<bool>, retestRequired: bool, retestPassed: Option<bool>,
    buildMatches: bool, operationalFailure: bool)
    requires p.live && p.left >= 5 && r < |p.db.runs| && f < |p.db.findings| && f in p.db.remediations
    requires p.db.runs[r].status in [SourceReviewCompleted, ValidationRunning] && p.db.findings[f].status == Retesting
    ensures var q := FinalizeRun(
                       Commit(p, CompleteFixVerification(p.db, f, r, sourcePassed, retestRequired, retestPassed,
                                                         buildMatches, operationalFailure)), r);
            var to := StatusAfter(DetermineVerificationOutcome(
                                    sourcePassed, retestRequired, retestPassed, buildMatches, operationalFailure));
            && q.live && f < |q.db.findings| && r < |q.db.runs| && q.db.findings[f].status == to
            && q.db.runs[r].status == EndOfRun(p.db, r, f, to)
  {
    hide Touched, FinalizeRun, CompleteFixVerification, DetermineVerificationOutcome, EndOfRun;
    CompletionMoves(p.db, f, r, sourcePassed, retestRequired, retestPassed, buildMatches, operationalFailure);
    var p1 := Commit(p, CompleteFixVerification(
                          p.db, f, r, sourcePassed, retestRequired, retestPassed, buildMatches, operationalFailure));
    FixRunEnds(p1, r, f);
    SameEnd(p.db, p1.db, r, f, p1.db.findings[f].status);
  }

  lemma ReplayVerdict(source: CheckOutcome, buildMatches: bool, verdict: Verdict)
    ensures StatusAfter(DetermineVerificationOutcome(
                          StoredVerdict(source), true, RetestVerdict(verdict), buildMatches, verdict == MissionFailed))
         == AfterReplay(source, buildMatches, verdict)
  {}

  /** The replay is stored without moving anything. */
  lemma ReplayIsStored(p: Progress, r: nat, f: nat, verdict: Verdict, cost: real) returns (q: Progress)
    requires p.live && p.left >= 1 && f < |p.db.findings| && f in p.db.remediations
    requires r < |p.db.runs| && p.db.runs[r].target.Some?
    ensures q.live && q.left == p.left - 1 && q.db.runs == p.db.runs && q.db.findings == p.db.findings
    ensures q.db.events == p.db.events && q.db.remediations == p.db.remediations
    ensures var fix := p.db.remediations[f];
            var judged := CompleteFixVerification(
                            q.db, f, r, StoredVerdict(fix.source), true, RetestVerdict(verdict),
                            CommitMatchesBuild(fix.fixCommit, p.db.runs[r].headSha), verdict == MissionFailed);
            Retest(p, r, f, verdict, cost) == FinalizeRun(Commit(q, judged), r)
  {
    hide FinalizeRun, CompleteFixVerification, CommitMatchesBuild;
    q := Commit(p, PersistStrix(p.db, r, f, p.db.runs[r].headSha, verdict, cost, Forced(None)));
  }

  /**
   A retest that runs to its end. Together with the theorem on every step that verifies a fix, this
   says exactly when a runtime-confirmed finding becomes verified_fixed. A mission that fails leaves the
   finding at retesting although its run is over.
   */
  lemma RetestConcludes(p: Progress, r: nat, f: nat, verdict: Verdict, cost: real)
    requires p.live && p.left >= 6 && r < |p.db.runs| && f < |p.db.findings| && f in p.db.remediations
    requires p.db.runs[r].status == ValidationRunning && p.db.runs[r].target.Some?
    requires p.db.findings[f].status == Retesting
    ensures var q := Retest(p, r, f, verdict, cost);
            var fix := p.db.remediations[f];
            var to := AfterReplay(fix.source, CommitMatchesBuild(fix.fixCommit, p.db.runs[r].headSha), verdict);
            && q.live && f < |q.db.findings| && r < |q.db.runs| && q.db.findings[f].status == to
            && q.db.runs[r].status == EndOfRun(p.db, r, f, to)
  {
    hide *;
    var fix := p.db.remediations[f];
    var matches := CommitMatchesBuild(fix.fixCommit, p.db.runs[r].headSha);
    var p1 := ReplayIsStored(p, r, f, verdict, cost);
    CompletionConcludes(p1, f, r, StoredVerdict(fix.source), true, RetestVerdict(verdict), matches,
                        verdict == MissionFailed);
    ReplayVerdict(fix.source, matches, verdict);
    SameEnd(p.db, p1.db, r, f, AfterReplay(fix.source, matches, verdict));
  }

  /**
   A reproduced exploit blocks the run only together with a failed source check: the run of a finished
   retest is blocked iff the replay reproduced, the stored source check failed and the head is the fix
   commit, or another finding it touched is confirmed or still exploitable.
   */
  lemma RetestBlocksIff(p: Progress, r: nat, f: nat, verdict: Verdict, cost: real)
    requires p.live && p.left >= 6 && r < |p.db.runs| && f < |p.db.findings| && f in p.db.remediations
    requires p.db.runs[r].status == ValidationRunning && p.db.runs[r].target.Some?
    requires p.db.findings[f].status == Retesting
    ensures var q := Retest(p, r, f, verdict, cost);
            var fix := p.db.remediations[f];
            && q.live && r < |q.db.runs|
            && (q.db.runs[r].status == Blocked
                <==> || (&& verdict == Exploited && fix.source == NotPassed
                         && CommitMatchesBuild(fix.fixCommit, p.db.runs[r].headSha))
                     || AnyWith(p.db, Touched(p.db.events, r) - {f}, {Confirmed, StillExploitable}))
  {
    hide Touched, AnyWith, Retest, CommitMatchesBuild;
    RetestConcludes(p, r, f, verdict, cost);
  }

  function AfterReview(passed: Option<bool>): FindingStatus {
    match passed
    case None => Retesting
    case Some(ok) => if ok then VerifiedFixed else StillExploitable
  }

  lemma ReviewVerdict(passed: Option<bool>)
    ensures StatusAfter(DetermineVerificationOutcome(passed, false, None, false, false)) == AfterReview(passed)
  {}

  /** The review of a source-only fix that runs to its end: its verdict alone decides. */
  lemma SourceReviewConcludes(p: Progress, r: nat, f: nat, fix: Remediation, passed: Option<bool>)
    requires p.live && p.left >= 5 && r < |p.db.runs| && f < |p.db.findings| && f in p.db.remediations
    requires p.db.runs[r].status == SourceReviewCompleted && fix.runtime == NotApplicable
    requires p.db.findings[f].status == Retesting
    ensures var q := ConcludeReview(p, r, f, Some(fix), passed);
            var to := AfterReview(passed);
            && q.live && f < |q.db.findings| && r < |q.db.runs| && q.db.findings[f].status == to
            && q.db.runs[r].status == EndOfRun(p.db, r, f, to)
  {
    hide Touched, FinalizeRun, CompleteFixVerification, EndOfRun, AfterReview, StatusAfter;
    hide DetermineVerificationOutcome;
    CompletionConcludes(p, f, r, passed, false, None, false, false);
    ReviewVerdict(passed);
  }

  /** A finding left at retesting cannot be given another fix, and its verification cannot be started again. */
  lemma RetestingIsStuck(db: Db, f: nat, sha: string, target: Option<nat>, key: string)
    requires f < |db.findings| && db.findings[f].status == Retesting
    ensures SubmitFix(db, f, sha) == None
    ensures StartFixVerification(db, f, target, key) == None
  {
    assert !FindingEdge(Retesting, FixSubmitted) && !FindingEdge(Retesting, Retesting);
  }
}
