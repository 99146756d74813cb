/** A finding becomes verified_fixed only on the evidence its history calls for. */
module VerifiedFixes {
  import opened Options
  import opened Records
  import opened StateMachines
  import opened Transitions
  import opened Remediations
  import opened Engines
  import opened Handlers

  predicate UnderFix(s: FindingStatus) { s == FixSubmitted || s == Retesting }

  /**
   What makes it safe to look only at the remediation row: while a fix is being verified, a row that
   asks for no retest belongs to a finding that never was confirmed at runtime; and both a row that
   asks for one and a queued retest belong to a finding that was.
   */
  ghost predicate FixRows(db: Db) {
    && (forall f | f in db.remediations && f < |db.findings| && UnderFix(db.findings[f].status) ::
          db.remediations[f].runtime == NotApplicable ==> !EverConfirmed(db, f))
    && (forall f | f in db.remediations :: db.remediations[f].runtime != NotApplicable ==> EverConfirmed(db, f))
    && (forall i | 0 <= i < |db.requests| :: db.requests[i].RetestJob? ==> EverConfirmed(db, db.requests[i].finding))
  }

  ghost predicate BecameFixed(a: Db, b: Db, f: nat) {
    && f < |b.findings| && b.findings[f].status == VerifiedFixed
    && (f < |a.findings| ==> a.findings[f].status != VerifiedFixed)
  }

  /** The evidence that the step from a to b must have had for moving f to verified_fixed. */
  ghost predicate Earned(a: Db, action: Action, b: Db, f: nat) {
    && f in a.remediations && f in b.remediations
    && b.remediations[f].source == Passed && b.remediations[f].final == Some(Fixed)
    && match action
       case RevalidateAction(_, g, reports, _) =>
         g == f && reports != [] && reports[0].verdict == Some(FalsePositive) && !EverConfirmed(a, f)
       case RetestAction(r, g, verdict, _) =>
         && g == f && verdict == NotExploited && a.remediations[f].source == Passed
         && b.remediations[f].runtime == Passed
         && r < |a.runs| && CommitMatchesBuild(a.remediations[f].fixCommit, a.runs[r].headSha)
       case _ => false
  }

  // ---------------------------------------------------------------- steps that have no part in it

  /** b has the same evidence and fixes as a, and no finding came under fix or was verified. */
  ghost predicate Bystander(a: Db, b: Db) {
    && a.validations == b.validations && a.remediations == b.remediations
    && (forall i | 0 <= i < |b.requests| :: b.requests[i].RetestJob? ==> b.requests[i] in a.requests)
    && |a.findings| <= |b.findings|
    && (forall f | 0 <= f < |b.findings| :: UnderFix(b.findings[f].status) || b.findings[f].status == VerifiedFixed ==>
          f < |a.findings| && a.findings[f].status == b.findings[f].status)
  }

  lemma BystanderTransitive(a: Db, b: Db, c: Db)
    requires Bystander(a, b) && Bystander(b, c)
    ensures Bystander(a, c)
  {}

  lemma BystanderKeepsFixRows(a: Db, b: Db)
    requires FixRows(a) && Bystander(a, b)
    ensures FixRows(b)
  {}

  /** What became fixed did so on the part of the way that is not a bystander. */
  lemma FixedBefore(a: Db, b: Db, c: Db)
    requires Bystander(b, c)
    ensures forall f | BecameFixed(a, c, f) :: BecameFixed(a, b, f)
    ensures b.remediations == c.remediations
  {}

  lemma FixedAfter(a: Db, b: Db, c: Db)
    requires Bystander(a, b)
    ensures forall f | BecameFixed(a, c, f) :: BecameFixed(b, c, f)
    ensures a.remediations == b.remediations && a.validations == b.validations
  {}

  lemma BystanderReflexive(a: Db)
    ensures Bystander(a, a)
  {}

  lemma CommitIsBystander(p: Progress, next: Option<Db>)
    requires next.Some? ==> Bystander(p.db, next.value)
    ensures Bystander(p.db, Commit(p, next).db)
  {
    hide Bystander;
    BystanderReflexive(p.db);
  }

  lemma MoveIsBystander(db: Db, f: nat, to: FindingStatus, cause: Option<nat>)
    requires TransitionFinding(db, f, to, cause).Some? && !UnderFix(to) && to != VerifiedFixed
    ensures Bystander(db, TransitionFinding(db, f, to, cause).value)
  {}

  lemma InsertIsBystander(db: Db, row: Finding, r: nat, places: seq<Location>)
    ensures Bystander(db, InsertFinding(db, row, r).(locations := db.locations + places))
  {}

  lemma UpsertIsBystander(db: Db, repo: nat, r: nat, head: string, report: Report)
    requires UpsertFinding(db, repo, r, head, report).Some?
    ensures Bystander(db, UpsertFinding(db, repo, r, head, report).value.db)
  {
    match FindByPrint(db.findings, repo, report.fingerprint)
    case None =>
      hide Bystander, FindByPrint, TransitionFinding;
      var id := |db.findings|;
      var row := Finding(repo, report.fingerprint, report.severity, report.confidence, report.category,
                         Suspected, head, head);
      InsertIsBystander(db, row, r, [Location(id, report.filePath, head)]);
      var db1 := InsertFinding(db, row, r).(locations := db.locations + [Location(id, report.filePath, head)]);
      if report.confidence == HighConfidence {
        MoveIsBystander(db1, id, SourceConfirmed, Some(r));
        BystanderTransitive(db, db1, UpsertFinding(db, repo, r, head, report).value.db);
      }
    case Some(_) =>
  }

  lemma {:induction false} UpsertAllIsBystander(db: Db, repo: nat, r: nat, head: string, reports: seq<Report>)
    requires UpsertAll(db, repo, r, head, reports).Some?
    ensures Bystander(db, UpsertAll(db, repo, r, head, reports).value.db)
  {
    if reports != [] {
      var n := |reports| - 1;
      hide Bystander, UpsertFinding;
      UpsertAllIsBystander(db, repo, r, head, reports[..n]);
      var rest := UpsertAll(db, repo, r, head, reports[..n]).value.db;
      UpsertIsBystander(rest, repo, r, head, reports[n]);
      BystanderTransitive(db, rest, UpsertFinding(rest, repo, r, head, reports[n]).value.db);
    }
  }

  lemma PersistDeepSecIsBystander(p: Progress, repo: nat, r: nat, head: string, reports: seq<Report>, cost: real)
    ensures Bystander(p.db, Commit(p, PersistedDb(PersistDeepSec(p.db, repo, r, head, reports, cost))).db)
  {
    var db := p.db.(executions := p.db.executions + [Execution(r, cost)]);
    if UpsertAll(db, repo, r, head, reports).Some? { UpsertAllIsBystander(db, repo, r, head, reports); }
  }

  lemma CommitRunIsBystander(p: Progress, r: nat, to: RunStatus)
    ensures Bystander(p.db, CommitRun(p, r, to).db)
  {}

  lemma CommitRequestIsBystander(p: Progress, q: Request)
    requires q.RetestJob? ==> q in p.db.requests
    ensures Bystander(p.db, CommitRequest(p, q).db)
  {}

  lemma FinalizeRunIsBystander(p: Progress, r: nat)
    ensures Bystander(p.db, FinalizeRun(p, r).db)
  {
    if p.live && r < |p.db.runs| && !IsRunTerminal(p.db.runs[r].status) {
      var d := Disposition(p.db, Touched(p.db.events, r));
      var p1 := CommitRun(p, r, d);
      CommitRunIsBystander(p, r, d);
      var p2 := CommitRequest(p1, ReceiptJob(r));
      CommitRequestIsBystander(p1, ReceiptJob(r));
      var p3 := CommitRequest(p2, CompletedWebhook(r, d));
      CommitRequestIsBystander(p2, CompletedWebhook(r, d));
      CommitRequestIsBystander(p3, BlockedWebhook(r));
      hide Bystander;
      BystanderTransitive(p.db, p1.db, p2.db);
      BystanderTransitive(p.db, p2.db, p3.db);
      BystanderTransitive(p.db, p3.db, CommitRequest(p3, BlockedWebhook(r)).db);
    }
  }

  lemma ReviewFixIsBystander(p: Progress, r: nat, reports: seq<Report>, cost: real)
    requires r < |p.db.runs|
    ensures Bystander(p.db, ReviewFix(p, r, reports, cost).db)
  {
    var run := p.db.runs[r];
    var p1 := CommitRun(p, r, SourceReviewRunning);
    CommitRunIsBystander(p, r, SourceReviewRunning);
    PersistDeepSecIsBystander(p1, run.repo, r, run.headSha, reports, cost);
    var p2 := Commit(p1, PersistedDb(PersistDeepSec(p1.db, run.repo, r, run.headSha, reports, cost)));
    CommitRunIsBystander(p2, r, SourceReviewCompleted);
    BystanderTransitive(p.db, p1.db, p2.db);
    BystanderTransitive(p.db, p2.db, CommitRun(p2, r, SourceReviewCompleted).db);
  }

  lemma {:induction false} RouteAllIsBystander(
    p: Progress, r: nat, candidates: seq<nat>, authorized: bool, budget: real)
    ensures Bystander(p.db, RouteAll(p, r, candidates, authorized, budget).db)
  {
    if candidates != [] {
      var n := |candidates| - 1;
      RouteAllIsBystander(p, r, candidates[..n], authorized, budget);
      var q := RouteAll(p, r, candidates[..n], authorized, budget);
      RouteOneIsBystander(q, r, candidates[n], authorized, budget);
      BystanderTransitive(p.db, q.db, RouteOne(q, r, candidates[n], authorized, budget).db);
    }
  }

  lemma RouteOneIsBystander(p: Progress, r: nat, f: nat, authorized: bool, budget: real)
    ensures Bystander(p.db, RouteOne(p, r, f, authorized, budget).db)
  {
    hide Bystander, EscalatesNow, ApplyRoutingPolicy, Commit, CommitRequest;
    BystanderReflexive(p.db);
    var escalate := EscalatesNow(p.db, r, f, authorized, budget);
    var next := ApplyRoutingPolicy(p.db, r, f, escalate);
    if next.Some? { RoutingPolicyIsBystander(p.db, r, f, escalate); }
    CommitIsBystander(p, next);
    var p1 := Commit(p, next);
    CommitRequestIsBystander(p1, StrixJob(r, f));
    BystanderTransitive(p.db, p1.db, CommitRequest(p1, StrixJob(r, f)).db);
  }

  lemma RoutingPolicyIsBystander(db: Db, r: nat, f: nat, escalate: bool)
    requires ApplyRoutingPolicy(db, r, f, escalate).Some?
    ensures Bystander(db, ApplyRoutingPolicy(db, r, f, escalate).value)
  {}

  /** The actions that neither submit, start nor judge a fix and add no runtime evidence. */
  predicate IsBystanding(action: Action) {
    !(action.SubmitFixAction? || action.VerifyFixAction? || action.StrixAction? || action.RevalidateAction?
      || action.RetestAction? || action.ExploreAction?)
  }

  lemma CreateReviewIsBystander(
    p: Progress, scan: bool, repo: nat, base: string, head: string, target: Option<nat>, key: string)
    ensures Bystander(p.db, CreateReview(p, scan, repo, base, head, target, key).db)
  {
    hide Bystander, Commit, CommitRequest, InsertRun, KeyTaken, IsSha;
    BystanderReflexive(p.db);
    var runType := if scan then RepositoryScan else ChangeReview;
    NewRunIsBystander(p, runType, repo, base, head, target, key, PrepareJob(|p.db.runs|));
  }

  lemma InsertRunIsBystander(
    db: Db, runType: RunType, repo: nat, base: string, head: string, target: Option<nat>, key: string)
    ensures var next := InsertRun(db, runType, repo, base, head, target, key);
            next.Some? ==> Bystander(db, next.value) && next.value.findings == db.findings
  {}

  /** A new run and its first job. */
  lemma NewRunIsBystander(
    p: Progress, runType: RunType, repo: nat, base: string, head: string, target: Option<nat>, key: string, q: Request)
    requires !q.RetestJob?
    ensures Bystander(p.db, CommitRequest(Commit(p, InsertRun(p.db, runType, repo, base, head, target, key)), q).db)
  {
    hide *;
    var next := InsertRun(p.db, runType, repo, base, head, target, key);
    InsertRunIsBystander(p.db, runType, repo, base, head, target, key);
    CommitIsBystander(p, next);
    CommitRequestIsBystander(Commit(p, next), q);
    BystanderTransitive(p.db, Commit(p, next).db, CommitRequest(Commit(p, next), q).db);
  }

  lemma ValidateFindingIsBystander(p: Progress, f: nat, target: nat, key: string)
    ensures Bystander(p.db, ValidateFinding(p, f, target, key).db)
  {
    hide Bystander, Commit, CommitRequest, InsertRun, TransitionFinding;
    BystanderReflexive(p.db);
    if f < |p.db.findings| {
      var finding := p.db.findings[f];
      var next := TransitionFinding(p.db, f, ValidationQueued, None);
      if next.Some? { MoveIsBystander(p.db, f, ValidationQueued, None); }
      CommitIsBystander(p, next);
      var p1 := if finding.status == SourceConfirmed then Commit(p, next) else p;
      NewRunIsBystander(p1, FindingValidation, finding.repo, finding.lastSeen, finding.lastSeen, Some(target), key,
                        StrixJob(|p.db.runs|, f));
      BystanderTransitive(p.db, p1.db, ValidateFinding(p, f, target, key).db);
    }
  }

  lemma PrepareIsBystander(p: Progress, r: nat)
    ensures Bystander(p.db, Prepare(p, r).db)
  {
    hide Bystander, Commit, CommitRun, CommitRequest, RetestingFinding;
    BystanderReflexive(p.db);
    var p1 := CommitRun(p, r, Classifying);
    CommitRunIsBystander(p, r, Classifying);
    SnapshotIsBystander(p1.db, r);
    var next := Some(p1.db.(snapshots := p1.db.snapshots + {r}));
    CommitIsBystander(p1, next);
    var p2 := Commit(p1, next);
    BystanderTransitive(p.db, p1.db, p2.db);
    var f := RetestingFinding(p2.db.events, r);
    var q := if r < |p.db.runs| && p.db.runs[r].runType == FixVerification && f.Some? then RevalidationJob(r, f.value)
             else ClassifyJob(r);
    CommitRequestIsBystander(p2, q);
    BystanderTransitive(p.db, p2.db, CommitRequest(p2, q).db);
  }

  lemma SnapshotIsBystander(db: Db, r: nat)
    ensures Bystander(db, db.(snapshots := db.snapshots + {r}))
  {}

  lemma ClassifyIsBystander(p: Progress, r: nat)
    ensures Bystander(p.db, Classify(p, r).db)
  {
    hide Commit, CommitRun, CommitRequest;
    var next := Some(p.db.(classified := p.db.classified + {r}));
    CommitIsBystander(p, next);
    var p1 := Commit(p, next);
    CommitRunIsBystander(p1, r, SourceReviewRunning);
    CommitRequestIsBystander(CommitRun(p1, r, SourceReviewRunning), DeepSecJob(r));
  }

  lemma DeepSecIsBystander(p: Progress, r: nat, reports: seq<Report>, cost: real)
    ensures Bystander(p.db, DeepSec(p, r, reports, cost).db)
  {
    if r < |p.db.runs| {
      var run := p.db.runs[r];
      PersistDeepSecIsBystander(p, run.repo, r, run.headSha, reports, cost);
    }
  }

  lemma RouteIsBystander(p: Progress, r: nat, candidates: seq<nat>, allowed: bool, maxBudget: real)
    ensures Bystander(p.db, Route(p, r, candidates, allowed, maxBudget).db)
  {
    if r < |p.db.runs| {
      RouteAllIsBystander(
        p, r, candidates, p.db.runs[r].target.Some? && allowed, maxBudget - Spent(p.db.executions, r));
      hide RouteAll, Bystander;
      var q := RoutingLoop(p, r, candidates, allowed, maxBudget);
      SettleRoutingIsBystander(q, r, Touched(p.db.events, r));
      BystanderTransitive(p.db, q.db, SettleRouting(q, r, Touched(p.db.events, r)).db);
    }
  }

  lemma SettleRoutingIsBystander(p: Progress, r: nat, ids: set<nat>)
    ensures Bystander(p.db, SettleRouting(p, r, ids).db)
  {
    CommitRunIsBystander(p, r, ValidationRunning);
    FinalizeRunIsBystander(p, r);
    hide FinalizeRun, CommitRun, Bystander;
  }

  lemma BystandingAction(p: Progress, action: Action)
    requires IsBystanding(action)
    ensures Bystander(p.db, Perform(p, action).db)
  {
    hide Bystander, Commit, CommitRun, CreateReview, ValidateFinding, Prepare, Classify, DeepSec, Route;
    match action
    case Tick => TickIsBystander(p);
    case CreateReviewAction(scan, repo, base, head, target, key) =>
      CreateReviewIsBystander(p, scan, repo, base, head, target, key);
    case ValidateFindingAction(f, target, key) => ValidateFindingIsBystander(p, f, target, key);
    case CancelAction(r) => CommitRunIsBystander(p, r, Cancelled);
    case PrepareAction(r) => PrepareIsBystander(p, r);
    case ClassifyAction(r) => ClassifyIsBystander(p, r);
    case DeepSecAction(r, reports, cost) => DeepSecIsBystander(p, r, reports, cost);
    case RouteAction(r, candidates, allowed, maxBudget) => RouteIsBystander(p, r, candidates, allowed, maxBudget);
  }

  lemma TickIsBystander(p: Progress)
    ensures Bystander(p.db, Commit(p, Some(p.db.(clock := p.db.clock + 1))).db)
  {}

  // ---------------------------------------------------------------- steps that do

  lemma MoreEvidence(a: Db, b: Db, f: nat)
    requires a.validations <= b.validations && EverConfirmed(a, f)
    ensures EverConfirmed(b, f)
  {
    var i :| 0 <= i < |a.validations| && a.validations[i].finding == f && a.validations[i].verdict == Exploited;
    assert b.validations[i] == a.validations[i];
  }

  /** A finding enters the fix stages with a fresh row, which asks for a retest iff it was confirmed. */
  lemma SubmitFixKeepsRows(db: Db, f: nat, sha: string)
    requires FixRows(db) && SubmitFix(db, f, sha).Some?
    ensures FixRows(SubmitFix(db, f, sha).value)
    ensures forall g :: !BecameFixed(db, SubmitFix(db, f, sha).value, g)
  {
    hide EverConfirmed, SubmitFix;
    SubmitFixMoves(db, f, sha);
    forall g: nat ensures EverConfirmed(db, g) <==> EverConfirmed(SubmitFix(db, f, sha).value, g) {
      SameEvidence(db, SubmitFix(db, f, sha).value, g);
    }
  }

  lemma SameEvidence(a: Db, b: Db, f: nat)
    requires a.validations == b.validations
    ensures EverConfirmed(a, f) <==> EverConfirmed(b, f)
  {}

  lemma SubmitFixMoves(db: Db, f: nat, sha: string)
    requires SubmitFix(db, f, sha).Some?
    ensures var b := SubmitFix(db, f, sha).value;
            && b.validations == db.validations && b.requests == db.requests
            && f < |db.findings| && |b.findings| == |db.findings| && b.findings[f].status == FixSubmitted
            && (forall g | 0 <= g < |db.findings| && g != f :: b.findings[g] == db.findings[g])
            && b.remediations == db.remediations[
                 f := Remediation(sha, Pending, if EverConfirmed(db, f) then Pending else NotApplicable, None)]
  {
    hide ConfirmedIn;
  }

  lemma StartFixVerificationKeepsRows(db: Db, f: nat, target: Option<nat>, key: string)
    requires FixRows(db) && StartFixVerification(db, f, target, key).Some?
    ensures FixRows(StartFixVerification(db, f, target, key).value)
    ensures forall g :: !BecameFixed(db, StartFixVerification(db, f, target, key).value, g)
  {
    hide FixRows, InsertRun, TransitionFinding, Bystander, FindingEdge, BecameFixed;
    var finding, fix := db.findings[f], db.remediations[f].fixCommit;
    InsertRunIsBystander(db, FixVerification, finding.repo, finding.lastSeen, fix, target, key);
    var db1 := InsertRun(db, FixVerification, finding.repo, finding.lastSeen, fix, target, key).value;
    BystanderKeepsFixRows(db, db1);
    RetestMoveKeepsRows(db1, f, Some(|db.runs|));
    FixedAfter(db, db1, StartFixVerification(db, f, target, key).value);
  }

  /** Retesting follows fix_submitted only, so the row that was right there stays right. */
  lemma RetestMoveKeepsRows(db: Db, f: nat, cause: Option<nat>)
    requires FixRows(db) && TransitionFinding(db, f, Retesting, cause).Some?
    ensures FixRows(TransitionFinding(db, f, Retesting, cause).value)
    ensures forall g :: !BecameFixed(db, TransitionFinding(db, f, Retesting, cause).value, g)
  {
    assert db.findings[f].status == FixSubmitted;
    hide ConfirmedIn, FindingEdge;
  }

  /** New evidence is harmless where it moves the finding on, or where the finding was confirmed before. */
  lemma PersistStrixKeepsRows(db: Db, r: nat, f: nat, build: string, verdict: Verdict, cost: real, override: Override)
    requires FixRows(db) && PersistStrix(db, r, f, build, verdict, cost, override).Some?
    requires override.Forced? && override.status in [None, Some(Confirmed), Some(NotReproduced), Some(Inconclusive)]
    requires override.status == None && verdict == Exploited ==> EverConfirmed(db, f)
    ensures FixRows(PersistStrix(db, r, f, build, verdict, cost, override).value)
    ensures forall g :: !BecameFixed(db, PersistStrix(db, r, f, build, verdict, cost, override).value, g)
  {
    var b := PersistStrix(db, r, f, build, verdict, cost, override).value;
    forall g: nat
      ensures EverConfirmed(db, g) ==> EverConfirmed(b, g)
      ensures EverConfirmed(b, g) ==> EverConfirmed(db, g) || (g == f && verdict == Exploited)
    {
      if EverConfirmed(db, g) { MoreEvidence(db, b, g); }
    }
  }

  lemma RowKeepsRows(db: Db, f: nat, row: Remediation)
    requires FixRows(db) && f in db.remediations
    requires if row.runtime == NotApplicable then db.remediations[f].runtime == NotApplicable else EverConfirmed(db, f)
    ensures FixRows(db.(remediations := db.remediations[f := row]))
  {
    hide ConfirmedIn;
  }

  lemma MoveKeepsRows(db: Db, f: nat, to: FindingStatus, cause: Option<nat>)
    requires FixRows(db) && !UnderFix(to) && TransitionFinding(db, f, to, cause).Some?
    ensures FixRows(TransitionFinding(db, f, to, cause).value)
  {
    hide ConfirmedIn;
  }

  /** What a verdict of `Fixed` was computed from. */
  lemma FixedNeeds(source: Option<bool>, required: bool, retest: Option<bool>, matches: bool, failure: bool)
    ensures ToFindingStatus(DetermineVerificationOutcome(source, required, retest, matches, failure))
            == Some(VerifiedFixed)
            <==> source == Some(true) && !failure && (required ==> retest == Some(true) && matches)
    ensures ToFindingStatus(DetermineVerificationOutcome(source, required, retest, matches, failure))
            in [None, Some(VerifiedFixed), Some(StillExploitable), Some(Inconclusive)]
  {}

  /** The verdict is applied to a finding under retest, so the rows say which evidence it needed. */
  lemma CompletionKeepsRows(
    db: Db, f: nat, r: nat, source: Option<bool>, required: bool, retest: Option<bool>, matches: bool, failure: bool)
    requires FixRows(db)
    requires CompleteFixVerification(db, f, r, source, required, retest, matches, failure).Some?
    requires if required then EverConfirmed(db, f) else db.remediations[f].runtime == NotApplicable
    ensures var b := CompleteFixVerification(db, f, r, source, required, retest, matches, failure).value;
            && FixRows(b)
            && forall g | BecameFixed(db, b, g) ::
                 && g == f && f in b.remediations && source == Some(true) && !failure
                 && b.remediations[f].source == Passed && b.remediations[f].final == Some(Fixed)
                 && (if required then retest == Some(true) && matches && b.remediations[f].runtime == Passed
                     else !EverConfirmed(db, f))
  {
    hide FixRows, EverConfirmed, DetermineVerificationOutcome, BecameFixed;
    var outcome := DetermineVerificationOutcome(source, required, retest, matches, failure);
    var row := db.remediations[f].(
      source := ToCheckOutcome(source),
      runtime := if required then ToCheckOutcome(retest) else NotApplicable,
      final := Some(outcome));
    var db1 := db.(remediations := db.remediations[f := row]);
    var b := CompleteFixVerification(db, f, r, source, required, retest, matches, failure).value;
    RowKeepsRows(db, f, row);
    FixedNeeds(source, required, retest, matches, failure);
    if ToFindingStatus(outcome).Some? { MoveKeepsRows(db1, f, ToFindingStatus(outcome).value, Some(r)); }
    forall g | BecameFixed(db, b, g)
      ensures g == f && ToFindingStatus(outcome) == Some(VerifiedFixed)
      ensures b.remediations == db1.remediations && (!required ==> !EverConfirmed(db, f))
    {
      CompletionFixes(db, f, r, row, outcome, g);
      if !required { NotConfirmedUnderFix(db, f); }
    }
  }

  lemma NotConfirmedUnderFix(db: Db, f: nat)
    requires FixRows(db) && f in db.remediations && f < |db.findings| && UnderFix(db.findings[f].status)
    requires db.remediations[f].runtime == NotApplicable
    ensures !EverConfirmed(db, f)
  {
    hide EverConfirmed;
  }

  /** Only the judged finding can become fixed, from retesting. */
  lemma CompletionFixes(db: Db, f: nat, r: nat, row: Remediation, outcome: VerificationOutcome, g: nat)
    requires f in db.remediations
    requires var db1 := db.(remediations := db.remediations[f := row]);
             match ToFindingStatus(outcome)
             case None => BecameFixed(db, db1, g)
             case Some(to) => TransitionFinding(db1, f, to, Some(r)).Some?
                              && BecameFixed(db, TransitionFinding(db1, f, to, Some(r)).value, g)
    ensures g == f && ToFindingStatus(outcome) == Some(VerifiedFixed)
    ensures f < |db.findings| && db.findings[f].status == Retesting
  {}

  /** The finding f became fixed by a verdict on its source alone. */
  ghost predicate FixedFromSource(a: Db, b: Db, f: nat) {
    && f in a.remediations && f in b.remediations && !EverConfirmed(a, f)
    && b.remediations[f].source == Passed && b.remediations[f].final == Some(Fixed)
  }

  lemma JudgeSource(p: Progress, r: nat, f: nat, passed: Option<bool>)
    requires FixRows(p.db) && f in p.db.remediations && p.db.remediations[f].runtime == NotApplicable
    ensures var next := CompleteFixVerification(p.db, f, r, passed, false, None, false, false);
            var b := FinalizeRun(Commit(p, next), r).db;
            && FixRows(b)
            && forall g | BecameFixed(p.db, b, g) :: g == f && passed == Some(true) && FixedFromSource(p.db, b, f)
  {
    var next := CompleteFixVerification(p.db, f, r, passed, false, None, false, false);
    if next.Some? { CompletionKeepsRows(p.db, f, r, passed, false, None, false, false); }
    var p1 := Commit(p, next);
    FinalizeRunIsBystander(p1, r);
    BystanderKeepsFixRows(p1.db, FinalizeRun(p1, r).db);
    FixedBefore(p.db, p1.db, FinalizeRun(p1, r).db);
    hide FinalizeRun, CompleteFixVerification, ConfirmedIn, FixRows, Bystander;
  }

  lemma ConcludeReviewStep(p: Progress, r: nat, f: nat, fix: Option<Remediation>, passed: Option<bool>)
    requires FixRows(p.db) && (fix.Some? ==> f in p.db.remediations && p.db.remediations[f] == fix.value)
    ensures var b := ConcludeReview(p, r, f, fix, passed).db;
            && FixRows(b)
            && forall g | BecameFixed(p.db, b, g) :: g == f && passed == Some(true) && FixedFromSource(p.db, b, f)
  {
    if fix.Some? && fix.value.runtime == NotApplicable {
      JudgeSource(p, r, f, passed);
    } else if fix.Some? {
      QueueRetestKeepsRows(p, r, f, ToCheckOutcome(passed));
    }
    hide FixRows, FixedFromSource, FinalizeRun, Commit;
  }

  lemma RevalidateStep(p: Progress, r: nat, f: nat, reports: seq<Report>, cost: real)
    requires FixRows(p.db)
    ensures var b := Revalidate(p, r, f, reports, cost).db;
            && FixRows(b)
            && forall g | BecameFixed(p.db, b, g) :: Earned(p.db, RevalidateAction(r, f, reports, cost), b, g)
  {
    if r < |p.db.runs| && f < |p.db.findings| && r in p.db.snapshots {
      var q := ReviewFix(p, r, reports, cost);
      ReviewFixIsBystander(p, r, reports, cost);
      BystanderKeepsFixRows(p.db, q.db);
      ConcludeReviewStep(q, r, f, FixOf(p.db, f), SourceVerdict(reports));
      FixedAfter(p.db, q.db, ConcludeReview(q, r, f, FixOf(p.db, f), SourceVerdict(reports)).db);
      PassedSource(reports);
      hide FixRows, ConfirmedIn, ReviewFix, ConcludeReview, Bystander, BecameFixed, SourceVerdict;
    }
  }

  /** The review passes a fix iff its first report calls the finding a false positive. */
  lemma PassedSource(reports: seq<Report>)
    ensures SourceVerdict(reports) == Some(true) <==> reports != [] && reports[0].verdict == Some(FalsePositive)
  {}

  lemma QueueRetestKeepsRows(p: Progress, r: nat, f: nat, source: CheckOutcome)
    requires FixRows(p.db) && f in p.db.remediations && p.db.remediations[f].runtime != NotApplicable
    ensures var p1 := Commit(p, StashSource(p.db, f, source));
            var b := CommitRequest(CommitRun(p1, r, ValidationRunning), RetestJob(r, f)).db;
            FixRows(b) && forall g :: !BecameFixed(p.db, b, g)
  {
    var p1 := Commit(p, StashSource(p.db, f, source));
    var p2 := CommitRun(p1, r, ValidationRunning);
    hide FixRows, Bystander, Commit, CommitRun, CommitRequest, EverConfirmed, BecameFixed;
    StashKeepsRows(p, f, source);
    CommitRunIsBystander(p1, r, ValidationRunning);
    BystanderKeepsFixRows(p1.db, p2.db);
    FixedBefore(p.db, p1.db, p2.db);
    SameEvidence(p.db, p2.db, f);
    RetestRequestKeepsRows(p.db, p2, r, f);
  }

  lemma StashKeepsRows(p: Progress, f: nat, source: CheckOutcome)
    requires FixRows(p.db) && f in p.db.remediations && p.db.remediations[f].runtime != NotApplicable
    ensures var p1 := Commit(p, StashSource(p.db, f, source));
            && FixRows(p1.db) && p1.db.validations == p.db.validations && EverConfirmed(p.db, f)
            && forall g :: !BecameFixed(p.db, p1.db, g)
  {
    hide ConfirmedIn;
    RowKeepsRows(p.db, f, p.db.remediations[f].(source := source));
  }

  lemma RetestRequestKeepsRows(a: Db, p: Progress, r: nat, f: nat)
    requires FixRows(p.db) && EverConfirmed(p.db, f)
    requires forall g :: !BecameFixed(a, p.db, g)
    ensures FixRows(CommitRequest(p, RetestJob(r, f)).db)
    ensures forall g :: !BecameFixed(a, CommitRequest(p, RetestJob(r, f)).db, g)
  {
    hide ConfirmedIn;
    var b := CommitRequest(p, RetestJob(r, f)).db;
    assert b.findings == p.db.findings && b.validations == p.db.validations && b.remediations == p.db.remediations;
    assert b.requests == p.db.requests || b.requests == p.db.requests + [RetestJob(r, f)];
    hide CommitRequest;
    forall g ensures !BecameFixed(a, b, g) {
      assert !BecameFixed(a, p.db, g);
    }
  }

  lemma JudgeRetest(
    p: Progress, f: nat, r: nat, source: Option<bool>, retest: Option<bool>, matches: bool, failure: bool)
    requires FixRows(p.db) && EverConfirmed(p.db, f)
    ensures var next := CompleteFixVerification(p.db, f, r, source, true, retest, matches, failure);
            var b := FinalizeRun(Commit(p, next), r).db;
            && FixRows(b)
            && forall g | BecameFixed(p.db, b, g) ::
                 && g == f && f in b.remediations && source == Some(true) && retest == Some(true) && matches
                 && b.remediations[f].source == Passed && b.remediations[f].runtime == Passed
                 && b.remediations[f].final == Some(Fixed)
  {
    var next := CompleteFixVerification(p.db, f, r, source, true, retest, matches, failure);
    if next.Some? { CompletionKeepsRows(p.db, f, r, source, true, retest, matches, failure); }
    var p1 := Commit(p, next);
    FinalizeRunIsBystander(p1, r);
    BystanderKeepsFixRows(p1.db, FinalizeRun(p1, r).db);
    FixedBefore(p.db, p1.db, FinalizeRun(p1, r).db);
    hide FinalizeRun, CompleteFixVerification, ConfirmedIn, FixRows, Bystander;
  }

  /** The replay's own evidence: it is recorded, and nothing else moves. */
  lemma ReplayIsRecorded(p: Progress, r: nat, f: nat, build: string, verdict: Verdict, cost: real)
    requires FixRows(p.db) && EverConfirmed(p.db, f)
    ensures var p1 := Commit(p, PersistStrix(p.db, r, f, build, verdict, cost, Forced(None)));
            && FixRows(p1.db) && EverConfirmed(p1.db, f)
            && p1.db.findings == p.db.findings && p1.db.remediations == p.db.remediations
  {
    var next := PersistStrix(p.db, r, f, build, verdict, cost, Forced(None));
    if next.Some? {
      PersistStrixKeepsRows(p.db, r, f, build, verdict, cost, Forced(None));
      MoreEvidence(p.db, next.value, f);
    }
    hide FixRows, ConfirmedIn;
  }

  lemma RetestStep(p: Progress, r: nat, f: nat, verdict: Verdict, cost: real)
    requires FixRows(p.db) && EverConfirmed(p.db, f)
    ensures var b := Retest(p, r, f, verdict, cost).db;
            && FixRows(b)
            && forall g | BecameFixed(p.db, b, g) :: Earned(p.db, RetestAction(r, f, verdict, cost), b, g)
  {
    var a := p.db;
    hide FixRows, ConfirmedIn, FinalizeRun, CompleteFixVerification, CommitMatchesBuild, Commit, PersistStrix;
    if r < |a.runs| && a.runs[r].target.Some? && f < |a.findings| && f in a.remediations {
      var fix, head := a.remediations[f], a.runs[r].headSha;
      ReplayIsRecorded(p, r, f, head, verdict, cost);
      var p1 := Commit(p, PersistStrix(a, r, f, head, verdict, cost, Forced(None)));
      JudgeRetest(p1, f, r, StoredVerdict(fix.source), RetestVerdict(verdict),
                  CommitMatchesBuild(fix.fixCommit, head), verdict == MissionFailed);
      var b := Retest(p, r, f, verdict, cost).db;
      forall g | BecameFixed(a, b, g) ensures Earned(a, RetestAction(r, f, verdict, cost), b, g) {
        assert BecameFixed(p1.db, b, g);
      }
    }
  }

  lemma MissionKeepsRows(p: Progress, r: nat, f: nat, head: string, verdict: Verdict, cost: real)
    requires FixRows(p.db)
    ensures var b := Commit(p, CorrelateKnown(p.db, r, f, head, head, true, verdict, cost)).db;
            FixRows(b) && forall g :: !BecameFixed(p.db, b, g)
  {
    hide FixRows, PersistStrix, CommitMatchesBuild;
    var override := Forced(ResolveFindingStatus(verdict, CommitMatchesBuild(head, head), true));
    if PersistStrix(p.db, r, f, head, verdict, cost, override).Some? {
      PersistStrixKeepsRows(p.db, r, f, head, verdict, cost, override);
    }
  }

  lemma ValidateStrixStep(p: Progress, r: nat, f: nat, verdict: Verdict, cost: real)
    requires FixRows(p.db)
    ensures var b := ValidateStrix(p, r, f, verdict, cost).db;
            FixRows(b) && forall g :: !BecameFixed(p.db, b, g)
  {
    hide FixRows, Bystander, Commit, CorrelateKnown, FinalizeRun;
    if r < |p.db.runs| && p.db.runs[r].target.Some? && f < |p.db.findings| {
      var head := p.db.runs[r].headSha;
      MissionKeepsRows(p, r, f, head, verdict, cost);
      var p1 := Commit(p, CorrelateKnown(p.db, r, f, head, head, true, verdict, cost));
      FinalizeRunIsBystander(p1, r);
      BystanderKeepsFixRows(p1.db, FinalizeRun(p1, r).db);
      FixedBefore(p.db, p1.db, FinalizeRun(p1, r).db);
    }
  }

  // ---------------------------------------------------------------- executions

  lemma SubmitOrStartStep(p: Progress, action: Action)
    requires FixRows(p.db) && (action.SubmitFixAction? || action.VerifyFixAction?)
    ensures var b := Perform(p, action).db;
            FixRows(b) && forall f :: !BecameFixed(p.db, b, f)
  {
    hide FixRows, SubmitFix, StartFixVerification, CommitRequest, Bystander;
    var a := p.db;
    match action
    case SubmitFixAction(f, sha) =>
      if SubmitFix(a, f, sha).Some? { SubmitFixKeepsRows(a, f, sha); }
    case VerifyFixAction(f, target, key) =>
      var next := StartFixVerification(a, f, target, key);
      if next.Some? { StartFixVerificationKeepsRows(a, f, target, key); }
      var p1 := Commit(p, next);
      CommitRequestIsBystander(p1, PrepareJob(|a.runs|));
      BystanderKeepsFixRows(p1.db, CommitRequest(p1, PrepareJob(|a.runs|)).db);
      FixedBefore(a, p1.db, CommitRequest(p1, PrepareJob(|a.runs|)).db);
  }

  lemma MissionStep(p: Progress, action: Action)
    requires FixRows(p.db) && Enabled(p.db, action)
    requires action.StrixAction? || action.RevalidateAction? || action.RetestAction?
    ensures var b := Perform(p, action).db;
            FixRows(b) && forall f | BecameFixed(p.db, b, f) :: Earned(p.db, action, b, f)
  {
    hide FixRows, ValidateStrix, Revalidate, Retest, BecameFixed, Earned;
    match action
    case StrixAction(r, f, verdict, cost) => ValidateStrixStep(p, r, f, verdict, cost);
    case RevalidateAction(r, f, reports, cost) => RevalidateStep(p, r, f, reports, cost);
    case RetestAction(r, f, verdict, cost) =>
      RetestWasQueued(p.db, r, f);
      RetestStep(p, r, f, verdict, cost);
  }

  lemma RetestWasQueued(db: Db, r: nat, f: nat)
    requires FixRows(db) && RetestJob(r, f) in db.requests
    ensures EverConfirmed(db, f)
  {
    hide EverConfirmed;
  }

  lemma FixStep(p: Progress, action: Action)
    requires FixRows(p.db) && Enabled(p.db, action) && !action.ExploreAction?
    ensures var b := Perform(p, action).db;
            FixRows(b) && forall f | BecameFixed(p.db, b, f) :: Earned(p.db, action, b, f)
  {
    hide *;
    var b := Perform(p, action).db;
    match action
    case SubmitFixAction(_, _) | VerifyFixAction(_, _, _) => SubmitOrStartStep(p, action);
    case StrixAction(_, _, _, _) | RevalidateAction(_, _, _, _) | RetestAction(_, _, _, _) => MissionStep(p, action);
    case _ => BystandingStep(p, action);
  }

  lemma BystandingStep(p: Progress, action: Action)
    requires FixRows(p.db)
    requires !action.SubmitFixAction? && !action.VerifyFixAction? && !action.StrixAction? && !action.RevalidateAction?
    requires !action.RetestAction? && !action.ExploreAction?
    ensures var b := Perform(p, action).db;
            FixRows(b) && forall f :: !BecameFixed(p.db, b, f)
  {
    hide FixRows, Perform;
    BystandingAction(p, action);
    BystanderKeepsFixRows(p.db, Perform(p, action).db);
  }

  /** No handler starts a mission without a finding. */
  ghost predicate NoExploration(steps: seq<Step>) {
    forall i | 0 <= i < |steps| :: !steps[i].action.ExploreAction?
  }

  lemma EmptyFixRows()
    ensures FixRows(EMPTY)
  {}

  lemma ExecutionFixStep(states: seq<Db>, steps: seq<Step>, k: nat)
    requires IsExecution(states, steps) && NoExploration(steps) && k < |steps| && |states| == |steps| + 1
    requires FixRows(states[k])
    ensures FixRows(states[k + 1])
    ensures var b := states[k + 1];
            forall f | BecameFixed(states[k], b, f) :: Earned(states[k], steps[k].action, b, f)
  {
    hide Take, Enabled, Earned, FixRows, BecameFixed, Perform;
    ExecutionStep(states, steps, k);
    TakePerforms(states[k], steps[k]);
    FixStep(Progress(states[k], steps[k].stop, true), steps[k].action);
  }

  lemma {:induction false} ExecutionKeepsFixRows(states: seq<Db>, steps: seq<Step>, k: nat)
    requires IsExecution(states, steps) && NoExploration(steps) && k < |states|
    ensures FixRows(states[k])
  {
    hide *;
    ExecutionStart(states, steps);
    if k == 0 {
      EmptyFixRows();
    } else {
      ExecutionKeepsFixRows(states, steps, k - 1);
      ExecutionFixStep(states, steps, k - 1);
    }
  }

  /**
   In every execution, a step that moves a finding to verified_fixed had its source revalidation pass;
   and if the finding had ever been confirmed at runtime, the step is a retest whose replay did not
   reproduce the exploit, on a run whose head is the fix commit.
   */
  lemma VerifiedFixedIsEarned(states: seq<Db>, steps: seq<Step>, k: nat, f: nat)
    requires IsExecution(states, steps) && NoExploration(steps) && k < |steps|
    requires BecameFixed(states[k], states[k + 1], f)
    ensures Earned(states[k], steps[k].action, states[k + 1], f)
    ensures EverConfirmed(states[k], f) ==> steps[k].action.RetestAction?
  {
    ExecutionStart(states, steps);
    ExecutionKeepsFixRows(states, steps, k);
    ExecutionFixStep(states, steps, k);
  }

  /**
   Why exploratory missions are set apart: rediscovering a finding whose source-only fix is under
   retest adds runtime evidence that nothing will ask to replay.
   */
  lemma ExplorationBreaksTheRows(
    db: Db, f: nat, r: nat, head: string, build: string, discovery: Report, located: bool, cost: real)
    requires FixRows(db) && f < |db.findings| && f in db.remediations
    requires UnderFix(db.findings[f].status) && db.remediations[f].runtime == NotApplicable
    requires FindByPrint(db.findings, db.findings[f].repo, discovery.fingerprint) == Some(f)
    ensures var next := CorrelateExploratory(
                          db, db.findings[f].repo, r, head, build, Exploited, Some(discovery), located, cost);
            next.Some? && EverConfirmed(next.value, f) && !FixRows(next.value)
  {
    var b := CorrelateExploratory(
      db, db.findings[f].repo, r, head, build, Exploited, Some(discovery), located, cost).value;
    assert b.validations[|db.validations|].finding == f;
  }
}
