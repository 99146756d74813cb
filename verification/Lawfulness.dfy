/** Every transaction, every handler and so every execution keeps the ledger and only extends the logs. */
module Lawfulness {
  import opened Options
  import opened Records
  import opened StateMachines
  import opened Transitions
  import opened Remediations
  import opened Engines
  import opened Handlers
  import opened AuditTrail

  // ---------------------------------------------------------------- transactions

  lemma LawfulTransitive(a: Db, b: Db, c: Db)
    requires Lawful(a, b) && Lawful(b, c)
    ensures Lawful(a, c)
  {
    forall f | 0 <= f < |a.findings| ensures FindingIdentity(a.findings[f]) == FindingIdentity(c.findings[f]) {
      assert FindingIdentity(a.findings[f]) == FindingIdentity(b.findings[f]);
    }
    forall r | 0 <= r < |a.runs|
      ensures RunIdentity(a.runs[r]) == RunIdentity(c.runs[r])
      ensures a.runs[r].startedAt.Some? ==> c.runs[r].startedAt == a.runs[r].startedAt
      ensures a.runs[r].completedAt.Some? ==> c.runs[r].completedAt == a.runs[r].completedAt
    {
      assert RunIdentity(a.runs[r]) == RunIdentity(b.runs[r]);
    }
  }

  lemma LawfulReflexive(a: Db)
    requires Ledger(a)
    ensures Lawful(a, a)
  {}

  lemma LawfulKeepsLedger(a: Db, b: Db)
    requires Lawful(a, b)
    ensures Ledger(b)
  {
    hide Ledger, Grows;
  }

  lemma SubmitFixIsLawful(db: Db, f: nat, sha: string)
    requires Ledger(db) && SubmitFix(db, f, sha).Some?
    ensures Lawful(db, SubmitFix(db, f, sha).value)
  {
    var db1 := if db.findings[f].status in HOP_TO_FIX_PENDING_FROM
               then TransitionFinding(db, f, FixPending, None).value else db;
    if db1 != db { FindingMoveIsLawful(db, f, FixPending, None); }
    FindingMoveIsLawful(db1, f, FixSubmitted, None);
    var db2 := TransitionFinding(db1, f, FixSubmitted, None).value;
    LawfulTransitive(db, db1, db2);
    OtherColumnsAreLawful(db2, SubmitFix(db, f, sha).value);
    LawfulTransitive(db, db2, SubmitFix(db, f, sha).value);
  }

  lemma StartFixVerificationIsLawful(db: Db, f: nat, target: Option<nat>, key: string)
    requires Ledger(db) && StartFixVerification(db, f, target, key).Some?
    ensures Lawful(db, StartFixVerification(db, f, target, key).value)
  {
    var finding, fix := db.findings[f], db.remediations[f].fixCommit;
    RunInsertIsLawful(db, FixVerification, finding.repo, finding.lastSeen, fix, target, key);
    var db1 := InsertRun(db, FixVerification, finding.repo, finding.lastSeen, fix, target, key).value;
    FindingMoveIsLawful(db1, f, Retesting, Some(|db.runs|));
    LawfulTransitive(db, db1, StartFixVerification(db, f, target, key).value);
  }

  lemma CompleteFixVerificationIsLawful(
    db: Db, f: nat, r: nat, source: Option<bool>, required: bool, retest: Option<bool>, matches: bool, failure: bool)
    requires Ledger(db) && CompleteFixVerification(db, f, r, source, required, retest, matches, failure).Some?
    ensures Lawful(db, CompleteFixVerification(db, f, r, source, required, retest, matches, failure).value)
  {
    var outcome := DetermineVerificationOutcome(source, required, retest, matches, failure);
    var row := db.remediations[f].(
      source := ToCheckOutcome(source),
      runtime := if required then ToCheckOutcome(retest) else NotApplicable,
      final := Some(outcome));
    var db1 := db.(remediations := db.remediations[f := row]);
    OtherColumnsAreLawful(db, db1);
    if ToFindingStatus(outcome).Some? {
      FindingMoveIsLawful(db1, f, ToFindingStatus(outcome).value, Some(r));
      LawfulTransitive(db, db1, CompleteFixVerification(db, f, r, source, required, retest, matches, failure).value);
    }
  }

  /** A new finding, with the places where it was seen. */
  lemma PlacedInsertIsLawful(db: Db, row: Finding, r: nat, places: seq<Location>)
    requires Ledger(db) && FindByPrint(db.findings, row.repo, row.fingerprint).None?
    ensures Lawful(db, InsertFinding(db, row, r).(locations := db.locations + places))
  {
    FindingInsertIsLawful(db, row, r);
    var db0 := InsertFinding(db, row, r);
    var db1 := db0.(locations := db.locations + places);
    OtherColumnsAreLawful(db0, db1);
    LawfulTransitive(db, db0, db1);
  }

  /** Storing a report never throws: a new finding may always be confirmed from source. */
  lemma UpsertFindingIsLawful(db: Db, repo: nat, r: nat, head: string, report: Report)
    requires Ledger(db)
    ensures UpsertFinding(db, repo, r, head, report).Some?
    ensures Lawful(db, UpsertFinding(db, repo, r, head, report).value.db)
  {
    match FindByPrint(db.findings, repo, report.fingerprint)
    case None =>
      hide Lawful, Ledger, Grows, FindByPrint;
      var id := |db.findings|;
      var row := Finding(repo, report.fingerprint, report.severity, report.confidence, report.category,
                         Suspected, head, head);
      var db1 := InsertFinding(db, row, r).(locations := db.locations + [Location(id, report.filePath, head)]);
      PlacedInsertIsLawful(db, row, r, [Location(id, report.filePath, head)]);
      if report.confidence == HighConfidence {
        LawfulKeepsLedger(db, db1);
        FindingMoveIsLawful(db1, id, SourceConfirmed, Some(r));
        LawfulTransitive(db, db1, UpsertFinding(db, repo, r, head, report).value.db);
      }
    case Some(id) =>
      OtherColumnsAreLawful(db, UpsertFinding(db, repo, r, head, report).value.db);
  }

  lemma {:induction false} UpsertAllIsLawful(db: Db, repo: nat, r: nat, head: string, reports: seq<Report>)
    requires Ledger(db)
    ensures UpsertAll(db, repo, r, head, reports).Some?
    ensures Lawful(db, UpsertAll(db, repo, r, head, reports).value.db)
  {
    if reports != [] {
      var n := |reports| - 1;
      UpsertAllIsLawful(db, repo, r, head, reports[..n]);
      var rest := UpsertAll(db, repo, r, head, reports[..n]).value;
      UpsertFindingIsLawful(rest.db, repo, r, head, reports[n]);
      LawfulTransitive(db, rest.db, UpsertFinding(rest.db, repo, r, head, reports[n]).value.db);
    }
  }

  lemma PersistDeepSecIsLawful(db: Db, repo: nat, r: nat, head: string, reports: seq<Report>, cost: real)
    requires Ledger(db)
    ensures PersistDeepSec(db, repo, r, head, reports, cost).Some?
    ensures Lawful(db, PersistDeepSec(db, repo, r, head, reports, cost).value.db)
  {
    var db1 := db.(executions := db.executions + [Execution(r, cost)]);
    OtherColumnsAreLawful(db, db1);
    UpsertAllIsLawful(db1, repo, r, head, reports);
    LawfulTransitive(db, db1, UpsertAll(db1, repo, r, head, reports).value.db);
  }

  lemma PersistStrixIsLawful(db: Db, r: nat, f: nat, build: string, verdict: Verdict, cost: real, override: Override)
    requires Ledger(db) && PersistStrix(db, r, f, build, verdict, cost, override).Some?
    ensures Lawful(db, PersistStrix(db, r, f, build, verdict, cost, override).value)
  {
    var db1 := db.(executions := db.executions + [Execution(r, cost)],
                   validations := db.validations + [Validation(f, verdict, build)]);
    OtherColumnsAreLawful(db, db1);
    hide Ledger, Grows, VerdictToFindingStatus;
    var next := if override.Forced? then override.status else VerdictToFindingStatus(verdict);
    if next.Some? {
      FindingMoveIsLawful(db1, f, next.value, Some(r));
      LawfulTransitive(db, db1, PersistStrix(db, r, f, build, verdict, cost, override).value);
    }
  }

  /** A dynamic discovery walks the same legal path, so it never throws once it is accepted. */
  lemma WalkToConfirmedIsLawful(db: Db, f: nat, r: nat)
    requires Ledger(db) && f < |db.findings| && db.findings[f].status == Suspected
    ensures WalkToConfirmed(db, f, r).Some? && Lawful(db, WalkToConfirmed(db, f, r).value)
  {
    hide Lawful, Ledger, Grows;
    FindingMoveIsLawful(db, f, SourceConfirmed, Some(r));
    var db1 := TransitionFinding(db, f, SourceConfirmed, Some(r)).value;
    LawfulKeepsLedger(db, db1);
    FindingMoveIsLawful(db1, f, ValidationQueued, Some(r));
    var db2 := TransitionFinding(db1, f, ValidationQueued, Some(r)).value;
    LawfulTransitive(db, db1, db2);
    LawfulKeepsLedger(db, db2);
    FindingMoveIsLawful(db2, f, Confirmed, Some(r));
    LawfulTransitive(db, db2, WalkToConfirmed(db, f, r).value);
  }

  lemma CorrelateExploratoryIsLawful(
    db: Db, repo: nat, r: nat, head: string, build: string, verdict: Verdict, discovery: Option<Report>,
    located: bool, cost: real)
    requires Ledger(db)
    ensures var next := CorrelateExploratory(db, repo, r, head, build, verdict, discovery, located, cost);
            && (next.Some? <==> verdict == Exploited && discovery.Some?)
            && (next.Some? ==> Lawful(db, next.value))
  {
    if verdict == Exploited && discovery.Some? {
      var report := discovery.value;
      if FindByPrint(db.findings, repo, report.fingerprint).Some? {
        hide FindByPrint, FindingEdge;
        OtherColumnsAreLawful(
          db, CorrelateExploratory(db, repo, r, head, build, verdict, discovery, located, cost).value);
      } else {
        NewDiscoveryIsLawful(db, repo, r, head, build, report, located, cost);
      }
    }
  }

  lemma NewDiscoveryIsLawful(
    db: Db, repo: nat, r: nat, head: string, build: string, report: Report, located: bool, cost: real)
    requires Ledger(db) && FindByPrint(db.findings, repo, report.fingerprint).None?
    ensures var next := CorrelateExploratory(db, repo, r, head, build, Exploited, Some(report), located, cost);
            next.Some? && Lawful(db, next.value)
  {
    hide Lawful, Ledger, Grows, FindByPrint, WalkToConfirmed;
    var db1 := db.(executions := db.executions + [Execution(r, cost)]);
    ExecutedIsLawful(db, Execution(r, cost));
    LawfulKeepsLedger(db, db1);
    var id := |db.findings|;
    var row := Finding(repo, report.fingerprint, report.severity, report.confidence, report.category,
                       Suspected, head, head);
    var places := if located then [Location(id, report.filePath, head)] else [];
    PlacedInsertIsLawful(db1, row, r, places);
    var db2 := InsertFinding(db1, row, r).(locations := db.locations + places);
    LawfulTransitive(db, db1, db2);
    LawfulKeepsLedger(db, db2);
    WalkToConfirmedIsLawful(db2, id, r);
    var db3 := WalkToConfirmed(db2, id, r).value;
    LawfulTransitive(db, db2, db3);
    LawfulKeepsLedger(db, db3);
    ValidatedIsLawful(db3, Validation(id, Exploited, build));
    LawfulTransitive(db, db3, db3.(validations := db3.validations + [Validation(id, Exploited, build)]));
  }

  lemma ExecutedIsLawful(db: Db, execution: Execution)
    requires Ledger(db)
    ensures Lawful(db, db.(executions := db.executions + [execution]))
  {
    OtherColumnsAreLawful(db, db.(executions := db.executions + [execution]));
  }

  lemma ValidatedIsLawful(db: Db, validation: Validation)
    requires Ledger(db)
    ensures Lawful(db, db.(validations := db.validations + [validation]))
  {
    OtherColumnsAreLawful(db, db.(validations := db.validations + [validation]));
  }

  // ---------------------------------------------------------------- handlers

  lemma CommitIsLawful(a: Db, p: Progress, next: Option<Db>)
    requires Lawful(a, p.db) && (p.live && next.Some? ==> Lawful(p.db, next.value))
    ensures Lawful(a, Commit(p, next).db)
  {
    if p.live && next.Some? { LawfulTransitive(a, p.db, next.value); }
  }

  lemma CommitRunIsLawful(a: Db, p: Progress, r: nat, to: RunStatus)
    requires Lawful(a, p.db) && to != FixVerificationRunning
    ensures Lawful(a, CommitRun(p, r, to).db)
  {
    if TransitionRun(p.db, r, to).Some? { RunMoveIsLawful(p.db, r, to); }
    CommitIsLawful(a, p, TransitionRun(p.db, r, to));
  }

  lemma EnqueueFinals(db: Db, request: Request, r: nat)
    ensures Finals(Enqueue(db, request).requests, r)
            == Finals(db.requests, r) + if IsFinal(request) && request.run == r then [request] else []
  {
    assert Enqueue(db, request).requests[..|db.requests|] == db.requests;
  }

  lemma CommitRequestIsLawful(a: Db, p: Progress, request: Request)
    requires Lawful(a, p.db)
    requires p.live && IsFinal(request) ==>
               Finals(p.db.requests, request.run) + [request]
               <= Package(request.run, DispositionOf(p.db.events, request.run))
    ensures Lawful(a, CommitRequest(p, request).db)
  {
    if p.live {
      var next := Enqueue(p.db, request);
      forall r: nat ensures Finals(next.requests, r) <= Package(r, DispositionOf(next.events, r)) {
        EnqueueFinals(p.db, request, r);
      }
      OtherColumnsAreLawful(p.db, next);
      CommitIsLawful(a, p, Some(next));
    }
  }

  lemma FinalizeRunIsLawful(a: Db, p: Progress, r: nat)
    requires Lawful(a, p.db)
    ensures Lawful(a, FinalizeRun(p, r).db)
  {
    if p.live && r < |p.db.runs| && !IsRunTerminal(p.db.runs[r].status) {
      var next := Disposition(p.db, Touched(p.db.events, r));
      if TransitionRun(p.db, r, next).Some? { DispositionIsFirst(p.db, r, next); }
      CommitRunIsLawful(a, p, r, next);
      SendOutIsLawful(a, CommitRun(p, r, next), r, next);
    }
  }

  lemma SendOutIsLawful(a: Db, p: Progress, r: nat, d: RunStatus)
    requires Lawful(a, p.db)
    requires p.live ==> DispositionOf(p.db.events, r) == Some(d) && Finals(p.db.requests, r) == []
    ensures Lawful(a, SendOut(p, r, d).db)
  {
    hide Lawful, Ledger, Grows, Finals, DispositionOf;
    EnqueueFinals(p.db, ReceiptJob(r), r);
    CommitRequestIsLawful(a, p, ReceiptJob(r));
    var p1 := CommitRequest(p, ReceiptJob(r));
    EnqueueFinals(p1.db, CompletedWebhook(r, d), r);
    CommitRequestIsLawful(a, p1, CompletedWebhook(r, d));
    if d == Blocked { CommitRequestIsLawful(a, CommitRequest(p1, CompletedWebhook(r, d)), BlockedWebhook(r)); }
  }

  lemma SnapshotIsLawful(a: Db, p: Progress, r: nat)
    requires Lawful(a, p.db)
    ensures Lawful(a, Commit(p, Some(p.db.(snapshots := p.db.snapshots + {r}))).db)
  {
    var next := p.db.(snapshots := p.db.snapshots + {r});
    OtherColumnsAreLawful(p.db, next);
    hide Lawful, Ledger, Grows;
    CommitIsLawful(a, p, Some(next));
  }

  lemma PrepareIsLawful(a: Db, p: Progress, r: nat)
    requires Lawful(a, p.db)
    ensures Lawful(a, Prepare(p, r).db)
  {
    hide Lawful, CommitRun, RetestingFinding, CommitRequest, Commit;
    if r < |p.db.runs| {
      var p1 := CommitRun(p, r, Classifying);
      CommitRunIsLawful(a, p, r, Classifying);
      SnapshotIsLawful(a, p1, r);
      var p2 := Commit(p1, Some(p1.db.(snapshots := p1.db.snapshots + {r})));
      CommitRequestIsLawful(a, p2, ClassifyJob(r));
      var f := RetestingFinding(p2.db.events, r);
      if f.Some? { CommitRequestIsLawful(a, p2, RevalidationJob(r, f.value)); }
    }
  }

  lemma ClassifiedIsLawful(a: Db, p: Progress, r: nat)
    requires Lawful(a, p.db)
    ensures Lawful(a, Commit(p, Some(p.db.(classified := p.db.classified + {r}))).db)
  {
    var next := p.db.(classified := p.db.classified + {r});
    OtherColumnsAreLawful(p.db, next);
    hide Lawful, Ledger, Grows;
    CommitIsLawful(a, p, Some(next));
  }

  lemma ClassifyIsLawful(a: Db, p: Progress, r: nat)
    requires Lawful(a, p.db)
    ensures Lawful(a, Classify(p, r).db)
  {
    hide Lawful, Ledger, Grows, Commit, CommitRun, CommitRequest;
    ClassifiedIsLawful(a, p, r);
    var p1 := Commit(p, Some(p.db.(classified := p.db.classified + {r})));
    CommitRunIsLawful(a, p1, r, SourceReviewRunning);
    CommitRequestIsLawful(a, CommitRun(p1, r, SourceReviewRunning), DeepSecJob(r));
  }

  lemma CommitDeepSecIsLawful(a: Db, p: Progress, repo: nat, r: nat, head: string, reports: seq<Report>, cost: real)
    requires Lawful(a, p.db)
    ensures Lawful(a, Commit(p, PersistedDb(PersistDeepSec(p.db, repo, r, head, reports, cost))).db)
  {
    hide Lawful, Ledger, Grows, PersistDeepSec;
    LawfulKeepsLedger(a, p.db);
    PersistDeepSecIsLawful(p.db, repo, r, head, reports, cost);
    CommitIsLawful(a, p, PersistedDb(PersistDeepSec(p.db, repo, r, head, reports, cost)));
  }

  lemma DeepSecIsLawful(a: Db, p: Progress, r: nat, reports: seq<Report>, cost: real)
    requires Lawful(a, p.db)
    ensures Lawful(a, DeepSec(p, r, reports, cost).db)
  {
    hide Lawful, Ledger, Grows, PersistDeepSec, PersistedDb, Commit, CommitRun, CommitRequest;
    if r < |p.db.runs| {
      var run := p.db.runs[r];
      CommitDeepSecIsLawful(a, p, run.repo, r, run.headSha, reports, cost);
      var p1 := Commit(p, PersistedDb(PersistDeepSec(p.db, run.repo, r, run.headSha, reports, cost)));
      CommitRunIsLawful(a, p1, r, SourceReviewCompleted);
      CommitRequestIsLawful(a, CommitRun(p1, r, SourceReviewCompleted), RoutingJob(r));
    }
  }

  lemma ApplyRoutingPolicyIsLawful(db: Db, r: nat, f: nat, escalate: bool)
    requires Ledger(db) && ApplyRoutingPolicy(db, r, f, escalate).Some?
    ensures Lawful(db, ApplyRoutingPolicy(db, r, f, escalate).value)
  {
    var db1 := db.(decisions := db.decisions + [Decision(r, f, escalate)]);
    OtherColumnsAreLawful(db, db1);
    if escalate {
      FindingMoveIsLawful(db1, f, ValidationQueued, Some(r));
      LawfulTransitive(db, db1, ApplyRoutingPolicy(db, r, f, escalate).value);
    }
  }

  lemma RouteOneIsLawful(a: Db, p: Progress, r: nat, f: nat, authorized: bool, budget: real)
    requires Lawful(a, p.db)
    ensures Lawful(a, RouteOne(p, r, f, authorized, budget).db)
  {
    hide Lawful, Ledger, Grows, EscalatesNow, ApplyRoutingPolicy, Commit, CommitRequest;
    LawfulKeepsLedger(a, p.db);
    var escalate := EscalatesNow(p.db, r, f, authorized, budget);
    var next := ApplyRoutingPolicy(p.db, r, f, escalate);
    if next.Some? { ApplyRoutingPolicyIsLawful(p.db, r, f, escalate); }
    CommitIsLawful(a, p, next);
    CommitRequestIsLawful(a, Commit(p, next), StrixJob(r, f));
  }

  lemma {:induction false} RouteAllIsLawful(
    a: Db, p: Progress, r: nat, candidates: seq<nat>, authorized: bool, budget: real)
    requires Lawful(a, p.db)
    ensures Lawful(a, RouteAll(p, r, candidates, authorized, budget).db)
  {
    hide Lawful, RouteOne;
    if candidates != [] {
      var n := |candidates| - 1;
      RouteAllIsLawful(a, p, r, candidates[..n], authorized, budget);
      RouteOneIsLawful(
        a, RouteAll(p, r, candidates[..n], authorized, budget), r, candidates[n], authorized, budget);
    }
  }

  lemma RouteIsLawful(a: Db, p: Progress, r: nat, candidates: seq<nat>, allowed: bool, maxBudget: real)
    requires Lawful(a, p.db)
    ensures Lawful(a, Route(p, r, candidates, allowed, maxBudget).db)
  {
    hide Lawful, Ledger, Grows;
    if r < |p.db.runs| {
      RouteAllIsLawful(
        a, p, r, candidates, p.db.runs[r].target.Some? && allowed, maxBudget - Spent(p.db.executions, r));
      hide RouteAll;
      SettleRoutingIsLawful(a, RoutingLoop(p, r, candidates, allowed, maxBudget), r, Touched(p.db.events, r));
    }
  }

  lemma SettleRoutingIsLawful(a: Db, p: Progress, r: nat, ids: set<nat>)
    requires Lawful(a, p.db)
    ensures Lawful(a, SettleRouting(p, r, ids).db)
  {
    CommitRunIsLawful(a, p, r, ValidationRunning);
    FinalizeRunIsLawful(a, p, r);
  }

  lemma CommitStrixIsLawful(
    a: Db, p: Progress, r: nat, f: nat, build: string, verdict: Verdict, cost: real, override: Override)
    requires Lawful(a, p.db)
    ensures Lawful(a, Commit(p, PersistStrix(p.db, r, f, build, verdict, cost, override)).db)
  {
    var next := PersistStrix(p.db, r, f, build, verdict, cost, override);
    if next.Some? { PersistStrixIsLawful(p.db, r, f, build, verdict, cost, override); }
    CommitIsLawful(a, p, next);
  }

  lemma CommitCompletionIsLawful(
    a: Db, p: Progress, f: nat, r: nat, source: Option<bool>, required: bool, retest: Option<bool>, matches: bool,
    failure: bool)
    requires Lawful(a, p.db)
    ensures Lawful(a, Commit(p, CompleteFixVerification(p.db, f, r, source, required, retest, matches, failure)).db)
  {
    var next := CompleteFixVerification(p.db, f, r, source, required, retest, matches, failure);
    if next.Some? { CompleteFixVerificationIsLawful(p.db, f, r, source, required, retest, matches, failure); }
    CommitIsLawful(a, p, next);
  }

  lemma ValidateStrixIsLawful(a: Db, p: Progress, r: nat, f: nat, verdict: Verdict, cost: real)
    requires Lawful(a, p.db)
    ensures Lawful(a, ValidateStrix(p, r, f, verdict, cost).db)
  {
    if r < |p.db.runs| {
      var head := p.db.runs[r].headSha;
      var override := Forced(ResolveFindingStatus(verdict, CommitMatchesBuild(head, head), true));
      CommitStrixIsLawful(a, p, r, f, head, verdict, cost, override);
      FinalizeRunIsLawful(a, Commit(p, PersistStrix(p.db, r, f, head, verdict, cost, override)), r);
    }
  }

  lemma ReviewFixIsLawful(a: Db, p: Progress, r: nat, reports: seq<Report>, cost: real)
    requires Lawful(a, p.db) && r < |p.db.runs|
    ensures Lawful(a, ReviewFix(p, r, reports, cost).db)
  {
    hide Lawful, Ledger, Grows, PersistDeepSec, PersistedDb, Commit, CommitRun;
    var run := p.db.runs[r];
    var p1 := CommitRun(p, r, SourceReviewRunning);
    CommitRunIsLawful(a, p, r, SourceReviewRunning);
    CommitDeepSecIsLawful(a, p1, run.repo, r, run.headSha, reports, cost);
    var p2 := Commit(p1, PersistedDb(PersistDeepSec(p1.db, run.repo, r, run.headSha, reports, cost)));
    CommitRunIsLawful(a, p2, r, SourceReviewCompleted);
  }

  lemma ConcludeReviewIsLawful(
    a: Db, p: Progress, r: nat, f: nat, fix: Option<Remediation>, passed: Option<bool>)
    requires Lawful(a, p.db)
    ensures Lawful(a, ConcludeReview(p, r, f, fix, passed).db)
  {
    hide Lawful, FinalizeRun, CompleteFixVerification, StashSource, CommitRun, CommitRequest, Commit;
    CommitCompletionIsLawful(a, p, f, r, passed, false, None, false, false);
    FinalizeRunIsLawful(a, Commit(p, CompleteFixVerification(p.db, f, r, passed, false, None, false, false)), r);
    StashIsLawful(a, p, f, ToCheckOutcome(passed));
    var p1 := Commit(p, StashSource(p.db, f, ToCheckOutcome(passed)));
    CommitRunIsLawful(a, p1, r, ValidationRunning);
    CommitRequestIsLawful(a, CommitRun(p1, r, ValidationRunning), RetestJob(r, f));
  }

  lemma StashIsLawful(a: Db, p: Progress, f: nat, source: CheckOutcome)
    requires Lawful(a, p.db)
    ensures Lawful(a, Commit(p, StashSource(p.db, f, source)).db)
  {
    var stash := StashSource(p.db, f, source);
    if stash.Some? { OtherColumnsAreLawful(p.db, stash.value); }
    hide Lawful, Ledger, Grows;
    CommitIsLawful(a, p, stash);
  }

  lemma RevalidateIsLawful(a: Db, p: Progress, r: nat, f: nat, reports: seq<Report>, cost: real)
    requires Lawful(a, p.db)
    ensures Lawful(a, Revalidate(p, r, f, reports, cost).db)
  {
    if r < |p.db.runs| && f < |p.db.findings| && r in p.db.snapshots {
      ReviewFixIsLawful(a, p, r, reports, cost);
      ConcludeReviewIsLawful(a, ReviewFix(p, r, reports, cost), r, f, FixOf(p.db, f), SourceVerdict(reports));
    }
  }

  lemma RetestIsLawful(a: Db, p: Progress, r: nat, f: nat, verdict: Verdict, cost: real)
    requires Lawful(a, p.db)
    ensures Lawful(a, Retest(p, r, f, verdict, cost).db)
  {
    if r < |p.db.runs| && f in p.db.remediations {
      var fix, head := p.db.remediations[f], p.db.runs[r].headSha;
      CommitStrixIsLawful(a, p, r, f, head, verdict, cost, Forced(None));
      var p1 := Commit(p, PersistStrix(p.db, r, f, head, verdict, cost, Forced(None)));
      var source, retest := StoredVerdict(fix.source), RetestVerdict(verdict);
      var matches, failure := CommitMatchesBuild(fix.fixCommit, head), verdict == MissionFailed;
      CommitCompletionIsLawful(a, p1, f, r, source, true, retest, matches, failure);
      FinalizeRunIsLawful(
        a, Commit(p1, CompleteFixVerification(p1.db, f, r, source, true, retest, matches, failure)), r);
    }
  }

  lemma CommitInsertRunIsLawful(
    a: Db, p: Progress, runType: RunType, repo: nat, base: string, head: string, target: Option<nat>, key: string)
    requires Lawful(a, p.db)
    ensures Lawful(a, Commit(p, InsertRun(p.db, runType, repo, base, head, target, key)).db)
  {
    var next := InsertRun(p.db, runType, repo, base, head, target, key);
    if next.Some? { RunInsertIsLawful(p.db, runType, repo, base, head, target, key); }
    CommitIsLawful(a, p, next);
  }

  lemma CommitFindingMoveIsLawful(a: Db, p: Progress, f: nat, to: FindingStatus, cause: Option<nat>)
    requires Lawful(a, p.db)
    ensures Lawful(a, Commit(p, TransitionFinding(p.db, f, to, cause)).db)
  {
    if TransitionFinding(p.db, f, to, cause).Some? { FindingMoveIsLawful(p.db, f, to, cause); }
    CommitIsLawful(a, p, TransitionFinding(p.db, f, to, cause));
  }

  lemma CreateReviewIsLawful(
    a: Db, p: Progress, scan: bool, repo: nat, base: string, head: string, target: Option<nat>, key: string)
    requires Lawful(a, p.db)
    ensures Lawful(a, CreateReview(p, scan, repo, base, head, target, key).db)
  {
    hide Lawful;
    var runType := if scan then RepositoryScan else ChangeReview;
    CommitInsertRunIsLawful(a, p, runType, repo, base, head, target, key);
    CommitRequestIsLawful(
      a, Commit(p, InsertRun(p.db, runType, repo, base, head, target, key)), PrepareJob(|p.db.runs|));
  }

  lemma ValidateFindingIsLawful(a: Db, p: Progress, f: nat, target: nat, key: string)
    requires Lawful(a, p.db)
    ensures Lawful(a, ValidateFinding(p, f, target, key).db)
  {
    hide Lawful;
    if f < |p.db.findings| {
      var repo, seen := p.db.findings[f].repo, p.db.findings[f].lastSeen;
      CommitFindingMoveIsLawful(a, p, f, ValidationQueued, None);
      var p1 := if p.db.findings[f].status == SourceConfirmed
                then Commit(p, TransitionFinding(p.db, f, ValidationQueued, None)) else p;
      CommitInsertRunIsLawful(a, p1, FindingValidation, repo, seen, seen, Some(target), key);
      var p2 := Commit(p1, InsertRun(p1.db, FindingValidation, repo, seen, seen, Some(target), key));
      CommitRequestIsLawful(a, p2, StrixJob(|p.db.runs|, f));
    }
  }

  lemma VerifyFixIsLawful(a: Db, p: Progress, f: nat, target: Option<nat>, key: string)
    requires Lawful(a, p.db)
    ensures Lawful(a, VerifyFix(p, f, target, key).db)
  {
    hide Lawful, Ledger, StartFixVerification, Commit, CommitRequest;
    LawfulKeepsLedger(a, p.db);
    var next := StartFixVerification(p.db, f, target, key);
    if next.Some? { StartFixVerificationIsLawful(p.db, f, target, key); }
    CommitIsLawful(a, p, next);
    CommitRequestIsLawful(a, Commit(p, next), PrepareJob(|p.db.runs|));
  }

  lemma ReviewJobIsLawful(p: Progress, action: Action)
    requires Ledger(p.db)
    requires action.PrepareAction? || action.ClassifyAction? || action.DeepSecAction? || action.RouteAction?
    ensures Lawful(p.db, Perform(p, action).db)
  {
    hide Lawful, Ledger, Prepare, Classify, DeepSec, Route;
    var a := p.db;
    LawfulReflexive(a);
    match action
    case PrepareAction(r) => PrepareIsLawful(a, p, r);
    case ClassifyAction(r) => ClassifyIsLawful(a, p, r);
    case DeepSecAction(r, reports, cost) => DeepSecIsLawful(a, p, r, reports, cost);
    case RouteAction(r, candidates, allowed, budget) => RouteIsLawful(a, p, r, candidates, allowed, budget);
  }

  lemma MissionIsLawful(p: Progress, action: Action)
    requires Ledger(p.db)
    requires action.StrixAction? || action.RevalidateAction? || action.RetestAction?
    ensures Lawful(p.db, Perform(p, action).db)
  {
    hide Lawful, Ledger, ValidateStrix, Revalidate, Retest;
    var a := p.db;
    LawfulReflexive(a);
    match action
    case StrixAction(r, f, verdict, cost) => ValidateStrixIsLawful(a, p, r, f, verdict, cost);
    case RevalidateAction(r, f, reports, cost) => RevalidateIsLawful(a, p, r, f, reports, cost);
    case RetestAction(r, f, verdict, cost) => RetestIsLawful(a, p, r, f, verdict, cost);
  }

  lemma ExploreIsLawful(p: Progress, action: Action)
    requires Ledger(p.db) && action.ExploreAction?
    ensures Lawful(p.db, Perform(p, action).db)
  {
    hide Lawful, Ledger, CorrelateExploratory;
    LawfulReflexive(p.db);
    match action
    case ExploreAction(r, verdict, discovery, located, build, cost) =>
      if r < |p.db.runs| {
        var run := p.db.runs[r];
        CorrelateExploratoryIsLawful(p.db, run.repo, r, run.headSha, build, verdict, discovery, located, cost);
      }
  }

  lemma TickIsLawful(p: Progress)
    requires Ledger(p.db)
    ensures Lawful(p.db, Perform(p, Tick).db)
  {
    OtherColumnsAreLawful(p.db, p.db.(clock := p.db.clock + 1));
    LawfulReflexive(p.db);
    hide Lawful, Ledger;
  }

  lemma CallIsLawful(p: Progress, action: Action)
    requires Ledger(p.db)
    requires action.CreateReviewAction? || action.ValidateFindingAction? || action.SubmitFixAction?
             || action.VerifyFixAction? || action.CancelAction?
    ensures Lawful(p.db, Perform(p, action).db)
  {
    hide Lawful, Ledger, CreateReview, ValidateFinding, VerifyFix, SubmitFix, Commit, CommitRun;
    var a := p.db;
    LawfulReflexive(a);
    match action
    case CreateReviewAction(scan, repo, base, head, target, key) =>
      CreateReviewIsLawful(a, p, scan, repo, base, head, target, key);
    case ValidateFindingAction(f, target, key) => ValidateFindingIsLawful(a, p, f, target, key);
    case SubmitFixAction(f, sha) =>
      if SubmitFix(a, f, sha).Some? { SubmitFixIsLawful(a, f, sha); }
      CommitIsLawful(a, p, SubmitFix(a, f, sha));
    case VerifyFixAction(f, target, key) => VerifyFixIsLawful(a, p, f, target, key);
    case CancelAction(r) => CommitRunIsLawful(a, p, r, Cancelled);
  }

  /** One step: any handler or service call, stopped after any number of commits. */
  lemma PerformIsLawful(p: Progress, action: Action)
    requires Ledger(p.db)
    ensures Lawful(p.db, Perform(p, action).db)
  {
    hide *;
    match action
    case PrepareAction(_) | ClassifyAction(_) | DeepSecAction(_, _, _) | RouteAction(_, _, _, _) =>
      ReviewJobIsLawful(p, action);
    case StrixAction(_, _, _, _) | RevalidateAction(_, _, _, _) | RetestAction(_, _, _, _) =>
      MissionIsLawful(p, action);
    case ExploreAction(_, _, _, _, _, _) => ExploreIsLawful(p, action);
    case Tick => TickIsLawful(p);
    case _ => CallIsLawful(p, action);
  }

  // ---------------------------------------------------------------- executions

  lemma EmptyLedger()
    ensures Ledger(EMPTY)
  {}

  lemma {:induction false} ExecutionKeepsLedger(states: seq<Db>, steps: seq<Step>, k: nat)
    requires IsExecution(states, steps) && k < |states|
    ensures Ledger(states[k])
  {
    hide *;
    ExecutionStart(states, steps);
    if k == 0 {
      EmptyLedger();
    } else {
      ExecutionKeepsLedger(states, steps, k - 1);
      ExecutionStepIsLawful(states, steps, k - 1);
      LawfulKeepsLedger(states[k - 1], states[k]);
    }
  }

  lemma ExecutionStepIsLawful(states: seq<Db>, steps: seq<Step>, k: nat)
    requires IsExecution(states, steps) && k < |steps| && |states| == |steps| + 1 && Ledger(states[k])
    ensures Lawful(states[k], states[k + 1])
  {
    hide *;
    ExecutionStep(states, steps, k);
    TakePerforms(states[k], steps[k]);
    PerformIsLawful(Progress(states[k], steps[k].stop, true), steps[k].action);
  }

  lemma {:induction false} ExecutionIsLawful(states: seq<Db>, steps: seq<Step>, i: nat, k: nat)
    requires IsExecution(states, steps) && i <= k < |states|
    ensures Lawful(states[i], states[k])
    decreases k
  {
    hide *;
    ExecutionStart(states, steps);
    ExecutionKeepsLedger(states, steps, i);
    if i == k {
      LawfulReflexive(states[i]);
    } else {
      ExecutionIsLawful(states, steps, i, k - 1);
      ExecutionKeepsLedger(states, steps, k - 1);
      ExecutionStepIsLawful(states, steps, k - 1);
      LawfulTransitive(states[i], states[k - 1], states[k]);
    }
  }

  /** Nothing an execution has written is ever taken back: logs, identities and timestamps. */
  lemma ExecutionOnlyGrows(states: seq<Db>, steps: seq<Step>, i: nat, k: nat)
    requires IsExecution(states, steps) && i <= k < |states|
    ensures Grows(states[i], states[k])
  {
    ExecutionIsLawful(states, steps, i, k);
  }

  /** In every reachable state a finding's events form one unbroken legal history ending at its status. */
  lemma FindingAuditTrail(states: seq<Db>, steps: seq<Step>, k: nat, f: nat)
    requires IsExecution(states, steps) && k < |states|
    ensures var db := states[k]; var h := FindingTrail(db.events, f);
            if f < |db.findings| then FindingHistory(h) && h[|h| - 1] == db.findings[f].status else h == []
    ensures forall i, j | Successive(states[k].events, f, i, j) ::
              && states[k].events[j].before == Some(states[k].events[i].after)
              && FindingEdge(states[k].events[i].after, states[k].events[j].after)
  {
    var db := states[k];
    ExecutionKeepsLedger(states, steps, k);
    assert FindingChain(db.events, f, StatusOf(db, f));
    FindingChainHistory(db.events, f, StatusOf(db, f));
    forall i, j | Successive(db.events, f, i, j)
      ensures db.events[j].before == Some(db.events[i].after) && FindingEdge(db.events[i].after, db.events[j].after)
    {
      FindingChainLinks(db.events, f, StatusOf(db, f), i, j);
    }
  }

  lemma {:induction false} NoFixVerificationVisits(events: seq<Event>, r: nat)
    requires forall i | 0 <= i < |events| :: events[i].RunMoved? ==> events[i].to != FixVerificationRunning
    ensures Visits(RunTrail(events, r), FixVerificationRunning) == 0
  {
    if events != [] {
      var earlier := RunTrail(events[..|events| - 1], r);
      NoFixVerificationVisits(events[..|events| - 1], r);
      var h := RunTrail(events, r);
      assert |h| > |earlier| ==> h[..|h| - 1] == earlier;
      assert |h| == |earlier| ==> h == earlier;
    }
  }

  /** The same for a run, which moreover never moves more than seven times. */
  lemma RunAuditTrail(states: seq<Db>, steps: seq<Step>, k: nat, r: nat)
    requires IsExecution(states, steps) && k < |states| && r < |states[k].runs|
    ensures var h := RunTrail(states[k].events, r);
            RunHistory(h) && h[|h| - 1] == states[k].runs[r].status && |h| <= 8
  {
    var db := states[k];
    ExecutionKeepsLedger(states, steps, k);
    assert RunChain(db.events, r, RunStatusOf(db, r));
    RunChainHistory(db.events, r, RunStatusOf(db, r));
    NoFixVerificationVisits(db.events, r);
    RunHistoryBound(RunTrail(db.events, r));
  }

  /**
   In every reachable state a run has started iff its history entered `classifying`, has completed iff
   its status is terminal, and a receipt's duration is never negative.
   */
  lemma RunTimestamps(states: seq<Db>, steps: seq<Step>, k: nat, r: nat)
    requires IsExecution(states, steps) && k < |states| && r < |states[k].runs|
    ensures var run := states[k].runs[r];
            && (run.startedAt.Some? <==> Classifying in RunTrail(states[k].events, r))
            && (run.completedAt.Some? <==> IsRunTerminal(run.status))
            && (run.startedAt.Some? && run.completedAt.Some? ==> run.completedAt.value - run.startedAt.value >= 0)
  {
    ExecutionKeepsLedger(states, steps, k);
    TrailHasClassifying(states[k].events, r);
  }

  lemma {:induction false} TrailHasClassifying(events: seq<Event>, r: nat)
    ensures Classifying in RunTrail(events, r) <==> EverClassifying(events, r)
  {
    if events != [] {
      var n := |events| - 1;
      TrailHasClassifying(events[..n], r);
      if EverClassifying(events[..n], r) {
        var i :| 0 <= i < n && OfRun(events[..n][i], r) && events[..n][i].to == Classifying;
        assert OfRun(events[i], r) && events[i].to == Classifying;
      }
      if EverClassifying(events, r) {
        var i :| 0 <= i < |events| && OfRun(events[i], r) && events[i].to == Classifying;
        if i < n {
          assert OfRun(events[..n][i], r) && events[..n][i].to == Classifying;
        }
      }
    }
  }

  /** Deduplication holds in every reachable state: one finding per fingerprint, one run per key. */
  lemma ExecutionKeepsRowsUnique(states: seq<Db>, steps: seq<Step>, k: nat)
    requires IsExecution(states, steps) && k < |states|
    ensures UniqueRows(states[k])
  {
    ExecutionKeepsLedger(states, steps, k);
  }
}
