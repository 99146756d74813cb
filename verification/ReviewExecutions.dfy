/** The disposition of a review, over whole executions: which commits and verdicts it can depend on. */
module ReviewExecutions {
  import opened Collections
  import opened Options
  import opened Records
  import opened StateMachines
  import opened Transitions
  import opened Remediations
  import opened Engines
  import opened Handlers
  import opened AuditTrail
  import opened Lawfulness
  import opened ReviewRuns

  // ---------------------------------------------------------------- which jobs a run can have

  predicate IsReview(t: RunType) { t == ChangeReview || t == RepositoryScan }

  /** Every job was enqueued for a run of the kind whose pipeline has such a job. */
  predicate Fits(runs: seq<Run>, q: Request) {
    match q
    case PrepareJob(r) => r < |runs| && runs[r].runType != FindingValidation
    case ClassifyJob(r) => r < |runs| && IsReview(runs[r].runType)
    case DeepSecJob(r) => r < |runs| && IsReview(runs[r].runType)
    case RoutingJob(r) => r < |runs| && IsReview(runs[r].runType)
    case StrixJob(r, _) => r < |runs| && runs[r].runType != FixVerification
    case RevalidationJob(r, _) => r < |runs| && runs[r].runType == FixVerification
    case RetestJob(r, _) => r < |runs| && runs[r].runType == FixVerification
    case _ => true
  }

  /** A review names two commits, and a run that only validates one finding is never advanced. */
  predicate WellFormed(run: Run) {
    && (IsReview(run.runType) ==> IsSha(run.headSha))
    && (run.runType == FindingValidation ==> run.status == Queued || run.status == Cancelled)
  }

  ghost predicate Piped(runs: seq<Run>, requests: seq<Request>) {
    && (forall r | 0 <= r < |runs| :: WellFormed(runs[r]))
    && (forall i | 0 <= i < |requests| :: Fits(runs, requests[i]))
  }

  /** The runs of a are still there, and of the same type. */
  ghost predicate SameTypes(a: seq<Run>, b: seq<Run>) {
    |a| <= |b| && forall r | 0 <= r < |a| :: a[r].runType == b[r].runType
  }

  /** b is as well piped as a was. */
  ghost predicate Flows(a: Db, b: Db) {
    SameTypes(a.runs, b.runs) && (Piped(a.runs, a.requests) ==> Piped(b.runs, b.requests))
  }

  lemma FlowsTransitive(a: Db, b: Db, c: Db)
    requires Flows(a, b) && Flows(b, c)
    ensures Flows(a, c)
  {
    hide Piped;
  }

  /** Whatever leaves runs and requests alone. */
  lemma OthersFlow(a: Db, b: Db)
    requires a.runs == b.runs && a.requests == b.requests
    ensures Flows(a, b)
  {
    hide Piped;
  }

  lemma FitsLonger(a: seq<Run>, b: seq<Run>, q: Request)
    requires SameTypes(a, b) && Fits(a, q)
    ensures Fits(b, q)
  {
    hide IsReview;
  }

  lemma CommitFlows(p: Progress, next: Option<Db>)
    requires next.Some? ==> Flows(p.db, next.value)
    ensures Flows(p.db, Commit(p, next).db)
  {
    OthersFlow(p.db, p.db);
    hide Flows;
  }

  lemma RequestFlows(p: Progress, q: Request)
    requires Piped(p.db.runs, p.db.requests) ==> Fits(p.db.runs, q)
    ensures Flows(p.db, CommitRequest(p, q).db)
  {
    hide Fits, WellFormed;
    CommitFlows(p, Some(Enqueue(p.db, q)));
  }

  /** A validation-only run stays where it is unless it is cancelled. */
  lemma RunMoveFlows(p: Progress, r: nat, to: RunStatus)
    requires to != Failed
    requires to == Classifying ==> r < |p.db.runs| && p.db.runs[r].runType != FindingValidation
    ensures Flows(p.db, CommitRun(p, r, to).db)
  {
    var next := TransitionRun(p.db, r, to);
    if next.Some? {
      var b := next.value;
      MovedRun(p.db, r, to);
      hide TransitionRun;
      assert SameTypes(p.db.runs, b.runs);
      if Piped(p.db.runs, p.db.requests) {
        forall i | 0 <= i < |b.requests| ensures Fits(b.runs, b.requests[i]) {
          FitsLonger(p.db.runs, b.runs, p.db.requests[i]);
        }
        forall x | 0 <= x < |b.runs| ensures WellFormed(b.runs[x]) {
          assert WellFormed(p.db.runs[x]);
        }
      }
    }
    hide Flows, TransitionRun;
    CommitFlows(p, next);
  }

  lemma MovedRun(db: Db, r: nat, to: RunStatus)
    requires TransitionRun(db, r, to).Some?
    ensures var b := TransitionRun(db, r, to).value;
            && r < |db.runs| && |b.runs| == |db.runs| && b.requests == db.requests
            && (forall x | 0 <= x < |db.runs| && x != r :: b.runs[x] == db.runs[x])
            && b.runs[r].runType == db.runs[r].runType && b.runs[r].headSha == db.runs[r].headSha
            && b.runs[r].status == to
    ensures db.runs[r].status == Queued ==> to in [Classifying, Failed, Cancelled]
    ensures db.runs[r].status != Cancelled
  {}

  lemma NewRunFlows(
    p: Progress, runType: RunType, repo: nat, base: string, head: string, target: Option<nat>, key: string)
    requires IsReview(runType) ==> IsSha(head)
    ensures var next := InsertRun(p.db, runType, repo, base, head, target, key);
            && Flows(p.db, Commit(p, next).db)
            && (next.Some? ==> Flows(p.db, next.value) && |next.value.runs| == |p.db.runs| + 1
                               && next.value.runs[|p.db.runs|].runType == runType)
  {
    var next := InsertRun(p.db, runType, repo, base, head, target, key);
    if next.Some? {
      var b := next.value;
      assert SameTypes(p.db.runs, b.runs);
      if Piped(p.db.runs, p.db.requests) {
        forall i | 0 <= i < |b.requests| ensures Fits(b.runs, b.requests[i]) {
          FitsLonger(p.db.runs, b.runs, p.db.requests[i]);
        }
        hide Fits, IsSha, IsReview;
        forall x | 0 <= x < |b.runs| ensures WellFormed(b.runs[x]) {
          if x < |p.db.runs| { assert WellFormed(p.db.runs[x]); }
        }
      }
    }
    hide Flows, InsertRun;
    CommitFlows(p, next);
  }

  // ---------------------------------------------------------------- the transactions touch neither runs nor jobs

  ghost predicate Apart(a: Db, next: Option<Db>) {
    next.Some? ==> next.value.runs == a.runs && next.value.requests == a.requests
  }

  lemma ApartFlows(p: Progress, next: Option<Db>)
    requires Apart(p.db, next)
    ensures Flows(p.db, Commit(p, next).db)
  {
    if next.Some? { OthersFlow(p.db, next.value); }
    hide Flows;
    CommitFlows(p, next);
  }

  lemma {:induction false} UpsertAllApart(db: Db, repo: nat, r: nat, head: string, reports: seq<Report>)
    ensures Apart(db, PersistedDb(UpsertAll(db, repo, r, head, reports)))
  {
    if reports != [] {
      var n := |reports| - 1;
      UpsertAllApart(db, repo, r, head, reports[..n]);
      var rest := UpsertAll(db, repo, r, head, reports[..n]);
      if rest.Some? { UpsertApart(rest.value.db, repo, r, head, reports[n]); }
      hide UpsertFinding;
    }
  }

  lemma UpsertApart(db: Db, repo: nat, r: nat, head: string, report: Report)
    ensures var u := UpsertFinding(db, repo, r, head, report);
            u.Some? ==> u.value.db.runs == db.runs && u.value.db.requests == db.requests
  {
    hide FindByPrint;
  }

  lemma PersistDeepSecApart(db: Db, repo: nat, r: nat, head: string, reports: seq<Report>, cost: real)
    ensures Apart(db, PersistedDb(PersistDeepSec(db, repo, r, head, reports, cost)))
  {
    UpsertAllApart(db.(executions := db.executions + [Execution(r, cost)]), repo, r, head, reports);
    hide UpsertAll;
  }

  lemma PersistStrixApart(db: Db, r: nat, f: nat, build: string, verdict: Verdict, cost: real, override: Override)
    ensures Apart(db, PersistStrix(db, r, f, build, verdict, cost, override))
  {}

  lemma CompletionApart(
    db: Db, f: nat, r: nat, sourcePassed: Option<bool>, retestRequired: bool, retestPassed: Option<bool>,
    buildMatches: bool, operationalFailure: bool)
    ensures Apart(db, CompleteFixVerification(
                        db, f, r, sourcePassed, retestRequired, retestPassed, buildMatches, operationalFailure))
  {
    hide DetermineVerificationOutcome;
  }

  lemma SubmitFixApart(db: Db, f: nat, sha: string)
    ensures Apart(db, SubmitFix(db, f, sha))
  {}

  lemma RoutingPolicyApart(db: Db, r: nat, f: nat, escalate: bool)
    ensures Apart(db, ApplyRoutingPolicy(db, r, f, escalate))
  {}

  lemma ExploratoryApart(
    db: Db, repo: nat, r: nat, expected: string, build: string, verdict: Verdict, discovery: Option<Report>,
    located: bool, cost: real)
    ensures Apart(db, CorrelateExploratory(db, repo, r, expected, build, verdict, discovery, located, cost))
  {
    hide FindByPrint, FindingEdge;
  }

  // ---------------------------------------------------------------- handlers and services

  lemma FinalizeRunFlows(p: Progress, r: nat)
    ensures Flows(p.db, FinalizeRun(p, r).db)
  {
    hide Flows, CommitRun, CommitRequest, AnyWith, Touched;
    OthersFlow(p.db, p.db);
    if r < |p.db.runs| {
      var to := Disposition(p.db, Touched(p.db.events, r));
      assert to != Failed && to != Classifying;
      var p1 := CommitRun(p, r, to);
      var p2 := CommitRequest(p1, ReceiptJob(r));
      var p3 := CommitRequest(p2, CompletedWebhook(r, to));
      RunMoveFlows(p, r, to);
      RequestFlows(p1, ReceiptJob(r));
      RequestFlows(p2, CompletedWebhook(r, to));
      RequestFlows(p3, BlockedWebhook(r));
      hide Disposition;
      FlowsTransitive(p.db, p1.db, p2.db);
      FlowsTransitive(p.db, p2.db, p3.db);
      FlowsTransitive(p.db, p3.db, CommitRequest(p3, BlockedWebhook(r)).db);
    }
  }

  lemma PrepareFlows(p: Progress, r: nat)
    requires Piped(p.db.runs, p.db.requests) && Fits(p.db.runs, PrepareJob(r))
    ensures Flows(p.db, Prepare(p, r).db)
  {
    var p1 := CommitRun(p, r, Classifying);
    RunMoveFlows(p, r, Classifying);
    var next := Some(p1.db.(snapshots := p1.db.snapshots + {r}));
    ApartFlows(p1, next);
    var p2 := Commit(p1, next);
    hide CommitRun, Commit;
    FlowsTransitive(p.db, p1.db, p2.db);
    var f := RetestingFinding(p2.db.events, r);
    hide RetestingFinding;
    assert p2.db.runs[r].runType == p.db.runs[r].runType;
    var q := if p.db.runs[r].runType == FixVerification then RevalidationJob(r, if f.Some? then f.value else 0)
             else ClassifyJob(r);
    assert Fits(p2.db.runs, q);
    RequestFlows(p2, q);
    hide Flows, CommitRequest, Fits;
    FlowsTransitive(p.db, p2.db, CommitRequest(p2, q).db);
  }

  lemma ClassifyFlows(p: Progress, r: nat)
    requires Piped(p.db.runs, p.db.requests) && Fits(p.db.runs, ClassifyJob(r))
    ensures Flows(p.db, Classify(p, r).db)
  {
    var next := Some(p.db.(classified := p.db.classified + {r}));
    ApartFlows(p, next);
    OthersFlow(p.db, p.db);
    var p1 := Commit(p, next);
    var p2 := CommitRun(p1, r, SourceReviewRunning);
    RunMoveFlows(p1, r, SourceReviewRunning);
    hide CommitRun, Commit;
    FlowsTransitive(p.db, p1.db, p2.db);
    assert Fits(p2.db.runs, DeepSecJob(r));
    RequestFlows(p2, DeepSecJob(r));
    hide Flows, CommitRequest, Fits;
    FlowsTransitive(p.db, p2.db, CommitRequest(p2, DeepSecJob(r)).db);
  }

  lemma DeepSecFlows(p: Progress, r: nat, reports: seq<Report>, cost: real)
    requires Piped(p.db.runs, p.db.requests) && Fits(p.db.runs, DeepSecJob(r))
    ensures Flows(p.db, DeepSec(p, r, reports, cost).db)
  {
    var run := p.db.runs[r];
    var next := PersistedDb(PersistDeepSec(p.db, run.repo, r, run.headSha, reports, cost));
    PersistDeepSecApart(p.db, run.repo, r, run.headSha, reports, cost);
    hide PersistDeepSec;
    ApartFlows(p, next);
    OthersFlow(p.db, p.db);
    var p1 := Commit(p, next);
    var p2 := CommitRun(p1, r, SourceReviewCompleted);
    RunMoveFlows(p1, r, SourceReviewCompleted);
    hide CommitRun, Commit;
    FlowsTransitive(p.db, p1.db, p2.db);
    assert Fits(p2.db.runs, RoutingJob(r));
    RequestFlows(p2, RoutingJob(r));
    hide Flows, CommitRequest, Fits;
    FlowsTransitive(p.db, p2.db, CommitRequest(p2, RoutingJob(r)).db);
  }

  lemma RouteOneFlows(p: Progress, r: nat, f: nat, authorized: bool, budget: real)
    requires r < |p.db.runs| ==> IsReview(p.db.runs[r].runType)
    ensures Flows(p.db, RouteOne(p, r, f, authorized, budget).db)
  {
    OthersFlow(p.db, p.db);
    if r < |p.db.runs| {
      var escalate := EscalatesNow(p.db, r, f, authorized, budget);
      hide EscalatesNow;
      RoutingPolicyApart(p.db, r, f, escalate);
      ApartFlows(p, ApplyRoutingPolicy(p.db, r, f, escalate));
      hide ApplyRoutingPolicy;
      var p1 := Commit(p, ApplyRoutingPolicy(p.db, r, f, escalate));
      hide Commit;
      assert Fits(p1.db.runs, StrixJob(r, f));
      RequestFlows(p1, StrixJob(r, f));
      hide Flows, CommitRequest, Fits;
      FlowsTransitive(p.db, p1.db, CommitRequest(p1, StrixJob(r, f)).db);
    }
  }

  lemma {:induction false} RouteAllFlows(p: Progress, r: nat, candidates: seq<nat>, authorized: bool, budget: real)
    requires r < |p.db.runs| && IsReview(p.db.runs[r].runType)
    ensures Flows(p.db, RouteAll(p, r, candidates, authorized, budget).db)
  {
    if candidates == [] {
      OthersFlow(p.db, p.db);
    } else {
      hide RouteOne;
      var n := |candidates| - 1;
      RouteAllFlows(p, r, candidates[..n], authorized, budget);
      var q := RouteAll(p, r, candidates[..n], authorized, budget);
      assert q.db.runs[r].runType == p.db.runs[r].runType;
      RouteOneFlows(q, r, candidates[n], authorized, budget);
      hide Flows;
      FlowsTransitive(p.db, q.db, RouteOne(q, r, candidates[n], authorized, budget).db);
    }
  }

  lemma RouteFlows(p: Progress, r: nat, candidates: seq<nat>, allowed: bool, maxBudget: real)
    requires Piped(p.db.runs, p.db.requests) && Fits(p.db.runs, RoutingJob(r))
    ensures Flows(p.db, Route(p, r, candidates, allowed, maxBudget).db)
  {
    hide RouteAll, Spent, Touched;
    var q := RoutingLoop(p, r, candidates, allowed, maxBudget);
    RouteAllFlows(p, r, candidates, p.db.runs[r].target.Some? && allowed, maxBudget - Spent(p.db.executions, r));
    hide RoutingLoop, CommitRun, FinalizeRun, AnyWith;
    RunMoveFlows(q, r, ValidationRunning);
    FinalizeRunFlows(q, r);
    hide Flows;
    FlowsTransitive(p.db, q.db, SettleRouting(q, r, Touched(p.db.events, r)).db);
  }

  lemma ValidateStrixFlows(p: Progress, r: nat, f: nat, verdict: Verdict, cost: real)
    ensures Flows(p.db, ValidateStrix(p, r, f, verdict, cost).db)
  {
    OthersFlow(p.db, p.db);
    if r < |p.db.runs| {
      var head := p.db.runs[r].headSha;
      var override := Forced(ResolveFindingStatus(verdict, CommitMatchesBuild(head, head), true));
      PersistStrixApart(p.db, r, f, head, verdict, cost, override);
      var next := CorrelateKnown(p.db, r, f, head, AssumedTargetBuild(head), true, verdict, cost);
      hide PersistStrix, CommitMatchesBuild, ResolveFindingStatus, Touched, AnyWith;
      ApartFlows(p, next);
      var p1 := Commit(p, next);
      hide CorrelateKnown, Commit, FinalizeRun;
      FinalizeRunFlows(p1, r);
      hide Flows;
      FlowsTransitive(p.db, p1.db, FinalizeRun(p1, r).db);
    }
  }

  lemma ReviewFixFlows(p: Progress, r: nat, reports: seq<Report>, cost: real)
    requires r < |p.db.runs|
    ensures Flows(p.db, ReviewFix(p, r, reports, cost).db)
  {
    var run := p.db.runs[r];
    var p1 := CommitRun(p, r, SourceReviewRunning);
    RunMoveFlows(p, r, SourceReviewRunning);
    PersistDeepSecApart(p1.db, run.repo, r, run.headSha, reports, cost);
    var next := PersistedDb(PersistDeepSec(p1.db, run.repo, r, run.headSha, reports, cost));
    hide PersistDeepSec;
    ApartFlows(p1, next);
    var p2 := Commit(p1, next);
    RunMoveFlows(p2, r, SourceReviewCompleted);
    hide Flows, CommitRun, Commit;
    FlowsTransitive(p.db, p1.db, p2.db);
    FlowsTransitive(p.db, p2.db, CommitRun(p2, r, SourceReviewCompleted).db);
  }

  lemma ConcludeReviewFlows(p: Progress, r: nat, f: nat, fix: Option<Remediation>, passed: Option<bool>)
    requires r < |p.db.runs| && p.db.runs[r].runType == FixVerification
    ensures Flows(p.db, ConcludeReview(p, r, f, fix, passed).db)
  {
    OthersFlow(p.db, p.db);
    JudgeFlows(p, r, f, passed);
    QueueRetestFlows(p, r, f, ToCheckOutcome(passed));
    hide Flows, FinalizeRun, Commit, CommitRun, CommitRequest, CompleteFixVerification, StashSource;
  }

  lemma JudgeFlows(p: Progress, r: nat, f: nat, passed: Option<bool>)
    ensures var next := CompleteFixVerification(p.db, f, r, passed, false, None, false, false);
            Flows(p.db, FinalizeRun(Commit(p, next), r).db)
  {
    CompletionApart(p.db, f, r, passed, false, None, false, false);
    var next := CompleteFixVerification(p.db, f, r, passed, false, None, false, false);
    hide CompleteFixVerification;
    ApartFlows(p, next);
    var p1 := Commit(p, next);
    hide Flows, Commit, FinalizeRun;
    FinalizeRunFlows(p1, r);
    FlowsTransitive(p.db, p1.db, FinalizeRun(p1, r).db);
  }

  lemma QueueRetestFlows(p: Progress, r: nat, f: nat, source: CheckOutcome)
    requires r < |p.db.runs| && p.db.runs[r].runType == FixVerification
    ensures var p1 := Commit(p, StashSource(p.db, f, source));
            Flows(p.db, CommitRequest(CommitRun(p1, r, ValidationRunning), RetestJob(r, f)).db)
  {
    var next := StashSource(p.db, f, source);
    ApartFlows(p, next);
    var p1 := Commit(p, next);
    var p2 := CommitRun(p1, r, ValidationRunning);
    RunMoveFlows(p1, r, ValidationRunning);
    hide StashSource, Commit, CommitRun;
    FlowsTransitive(p.db, p1.db, p2.db);
    assert Fits(p2.db.runs, RetestJob(r, f));
    RequestFlows(p2, RetestJob(r, f));
    hide Flows, CommitRequest, Fits;
    FlowsTransitive(p.db, p2.db, CommitRequest(p2, RetestJob(r, f)).db);
  }

  lemma RevalidateFlows(p: Progress, r: nat, f: nat, reports: seq<Report>, cost: real)
    requires Piped(p.db.runs, p.db.requests) && Fits(p.db.runs, RevalidationJob(r, f))
    ensures Flows(p.db, Revalidate(p, r, f, reports, cost).db)
  {
    OthersFlow(p.db, p.db);
    var q := ReviewFix(p, r, reports, cost);
    ReviewFixFlows(p, r, reports, cost);
    hide ReviewFix;
    assert q.db.runs[r].runType == FixVerification;
    ConcludeReviewFlows(q, r, f, FixOf(p.db, f), SourceVerdict(reports));
    hide Flows, ConcludeReview, FixOf, SourceVerdict;
    FlowsTransitive(p.db, q.db, ConcludeReview(q, r, f, FixOf(p.db, f), SourceVerdict(reports)).db);
  }

  lemma RetestFlows(p: Progress, r: nat, f: nat, verdict: Verdict, cost: real)
    ensures Flows(p.db, Retest(p, r, f, verdict, cost).db)
  {
    OthersFlow(p.db, p.db);
    if r < |p.db.runs| && f in p.db.remediations {
      var fix, head := p.db.remediations[f], p.db.runs[r].headSha;
      PersistStrixApart(p.db, r, f, head, verdict, cost, Forced(None));
      var next := PersistStrix(p.db, r, f, head, verdict, cost, Forced(None));
      hide PersistStrix, CommitMatchesBuild;
      ApartFlows(p, next);
      var p1 := Commit(p, next);
      var matches := CommitMatchesBuild(fix.fixCommit, head);
      CompletionApart(p1.db, f, r, StoredVerdict(fix.source), true, RetestVerdict(verdict), matches,
                      verdict == MissionFailed);
      var last := CompleteFixVerification(p1.db, f, r, StoredVerdict(fix.source), true, RetestVerdict(verdict), matches,
                                          verdict == MissionFailed);
      hide CompleteFixVerification, StoredVerdict, RetestVerdict;
      ApartFlows(p1, last);
      var p2 := Commit(p1, last);
      hide Commit, Flows, FinalizeRun;
      FinalizeRunFlows(p2, r);
      FlowsTransitive(p.db, p1.db, p2.db);
      FlowsTransitive(p.db, p2.db, FinalizeRun(p2, r).db);
    }
  }

  lemma CreateReviewFlows(
    p: Progress, scan: bool, repo: nat, base: string, head: string, target: Option<nat>, key: string)
    ensures Flows(p.db, CreateReview(p, scan, repo, base, head, target, key).db)
  {
    OthersFlow(p.db, p.db);
    if IsSha(head) {
      var runType := if scan then RepositoryScan else ChangeReview;
      NewRunRequested(p, runType, repo, base, head, target, key, PrepareJob(|p.db.runs|));
      hide InsertRun, Commit, CommitRequest, KeyTaken, IsSha, Flows;
    }
  }

  /** A new run and the job that starts its pipeline. */
  lemma NewRunRequested(
    p: Progress, runType: RunType, repo: nat, base: string, head: string, target: Option<nat>, key: string, q: Request)
    requires IsReview(runType) ==> IsSha(head)
    requires (q == PrepareJob(|p.db.runs|) && runType != FindingValidation)
             || (q.StrixJob? && q.run == |p.db.runs| && runType == FindingValidation)
    ensures Flows(p.db, CommitRequest(Commit(p, InsertRun(p.db, runType, repo, base, head, target, key)), q).db)
  {
    NewRunFlows(p, runType, repo, base, head, target, key);
    var next := InsertRun(p.db, runType, repo, base, head, target, key);
    var p1 := Commit(p, next);
    if p1.live {
      assert Fits(p1.db.runs, q);
      RequestFlows(p1, q);
      hide InsertRun, Flows, CommitRequest, Commit, IsSha;
      FlowsTransitive(p.db, p1.db, CommitRequest(p1, q).db);
    }
  }

  lemma ValidateFindingFlows(p: Progress, f: nat, target: nat, key: string)
    ensures Flows(p.db, ValidateFinding(p, f, target, key).db)
  {
    OthersFlow(p.db, p.db);
    if f < |p.db.findings| {
      var finding := p.db.findings[f];
      var next := TransitionFinding(p.db, f, ValidationQueued, None);
      ApartFlows(p, next);
      var p1 := if finding.status == SourceConfirmed then Commit(p, next) else p;
      assert p1.db.runs == p.db.runs;
      hide TransitionFinding, IsSha;
      NewRunRequested(p1, FindingValidation, finding.repo, finding.lastSeen, finding.lastSeen, Some(target), key,
                      StrixJob(|p.db.runs|, f));
      hide InsertRun, Flows, CommitRequest, Commit;
      FlowsTransitive(p.db, p1.db, ValidateFinding(p, f, target, key).db);
    }
  }

  lemma VerifyFixFlows(p: Progress, f: nat, target: Option<nat>, key: string)
    ensures Flows(p.db, VerifyFix(p, f, target, key).db)
  {
    OthersFlow(p.db, p.db);
    StartFlows(p, f, target, key);
    var next := StartFixVerification(p.db, f, target, key);
    var p1 := Commit(p, next);
    hide StartFixVerification;
    CommitFlows(p, next);
    if p1.live {
      assert Fits(p1.db.runs, PrepareJob(|p.db.runs|));
      RequestFlows(p1, PrepareJob(|p.db.runs|));
      hide Flows, CommitRequest, Commit;
      FlowsTransitive(p.db, p1.db, CommitRequest(p1, PrepareJob(|p.db.runs|)).db);
    }
  }

  lemma StartFlows(p: Progress, f: nat, target: Option<nat>, key: string)
    ensures var next := StartFixVerification(p.db, f, target, key);
            next.Some? ==>
              && Flows(p.db, next.value) && |next.value.runs| == |p.db.runs| + 1
              && next.value.runs[|p.db.runs|].runType == FixVerification
  {
    var next := StartFixVerification(p.db, f, target, key);
    if next.Some? {
      var finding := p.db.findings[f];
      var fix := p.db.remediations[f].fixCommit;
      NewRunFlows(p, FixVerification, finding.repo, finding.lastSeen, fix, target, key);
      var inserted := InsertRun(p.db, FixVerification, finding.repo, finding.lastSeen, fix, target, key);
      hide InsertRun, IsSha;
      OthersFlow(inserted.value, next.value);
      hide Flows;
      FlowsTransitive(p.db, inserted.value, next.value);
    }
  }

  // ---------------------------------------------------------------- executions

  lemma JobFlows(p: Progress, action: Action)
    requires Piped(p.db.runs, p.db.requests) && Enabled(p.db, action)
    requires action.PrepareAction? || action.ClassifyAction? || action.DeepSecAction? || action.RouteAction?
             || action.RevalidateAction?
    ensures Flows(p.db, Perform(p, action).db)
  {
    hide Flows, Fits, WellFormed, Prepare, Classify, DeepSec, Route, Revalidate;
    match action
    case PrepareAction(r) => PrepareFlows(p, r);
    case ClassifyAction(r) => ClassifyFlows(p, r);
    case DeepSecAction(r, reports, cost) => DeepSecFlows(p, r, reports, cost);
    case RouteAction(r, candidates, allowed, budget) => RouteFlows(p, r, candidates, allowed, budget);
    case RevalidateAction(r, f, reports, cost) => RevalidateFlows(p, r, f, reports, cost);
  }

  lemma CallFlows(p: Progress, action: Action)
    requires !action.PrepareAction? && !action.ClassifyAction? && !action.DeepSecAction? && !action.RouteAction?
    requires !action.RevalidateAction?
    ensures Flows(p.db, Perform(p, action).db)
  {
    hide Flows, CreateReview, ValidateFinding, VerifyFix, Commit, CommitRun, ValidateStrix, Retest, SubmitFix,
         CorrelateExploratory;
    OthersFlow(p.db, p.db);
    match action
    case Tick => ApartFlows(p, Some(p.db.(clock := p.db.clock + 1)));
    case CreateReviewAction(scan, repo, base, head, target, key) =>
      CreateReviewFlows(p, scan, repo, base, head, target, key);
    case ValidateFindingAction(f, target, key) => ValidateFindingFlows(p, f, target, key);
    case SubmitFixAction(f, sha) =>
      SubmitFixApart(p.db, f, sha);
      ApartFlows(p, SubmitFix(p.db, f, sha));
    case VerifyFixAction(f, target, key) => VerifyFixFlows(p, f, target, key);
    case CancelAction(r) => RunMoveFlows(p, r, Cancelled);
    case StrixAction(r, f, verdict, cost) => ValidateStrixFlows(p, r, f, verdict, cost);
    case RetestAction(r, f, verdict, cost) => RetestFlows(p, r, f, verdict, cost);
    case ExploreAction(r, verdict, discovery, located, build, cost) =>
      if r < |p.db.runs| {
        var run := p.db.runs[r];
        ExploratoryApart(p.db, run.repo, r, run.headSha, build, verdict, discovery, located, cost);
        ApartFlows(p, CorrelateExploratory(
                        p.db, run.repo, r, run.headSha, build, verdict, discovery, located, cost));
      }
  }

  lemma PerformFlows(p: Progress, action: Action)
    requires Piped(p.db.runs, p.db.requests) && Enabled(p.db, action)
    ensures Flows(p.db, Perform(p, action).db)
  {
    hide Flows, Piped, Enabled, Perform;
    if action.PrepareAction? || action.ClassifyAction? || action.DeepSecAction? || action.RouteAction?
       || action.RevalidateAction?
    {
      JobFlows(p, action);
    } else {
      CallFlows(p, action);
    }
  }

  lemma {:induction false} ExecutionIsPiped(states: seq<Db>, steps: seq<Step>, k: nat)
    requires IsExecution(states, steps) && k < |states|
    ensures Piped(states[k].runs, states[k].requests)
  {
    if k > 0 {
      ExecutionIsPiped(states, steps, k - 1);
      hide Enabled, Perform, Piped;
      PerformFlows(Progress(states[k - 1], steps[k - 1].stop, true), steps[k - 1].action);
    }
  }

  /**
   A run that has a validation job and is being validated is a review of a commit: its head SHA is
   never empty, so a confirmed exploit is never set aside as evidence about another build.
   */
  lemma ValidatedRunsHaveHeads(states: seq<Db>, steps: seq<Step>, k: nat, r: nat, f: nat)
    requires IsExecution(states, steps) && k < |states| && r < |states[k].runs|
    requires StrixJob(r, f) in states[k].requests && states[k].runs[r].status == ValidationRunning
    ensures IsReview(states[k].runs[r].runType) && IsSha(states[k].runs[r].headSha)
    ensures CommitMatchesBuild(states[k].runs[r].headSha, AssumedTargetBuild(states[k].runs[r].headSha))
  {
    ExecutionIsPiped(states, steps, k);
    assert Fits(states[k].runs, StrixJob(r, f)) && WellFormed(states[k].runs[r]);
  }

  /** The run that routing works for, and its head. */
  lemma RoutedRunsHaveHeads(states: seq<Db>, steps: seq<Step>, k: nat, r: nat)
    requires IsExecution(states, steps) && k < |states| && RoutingJob(r) in states[k].requests
    ensures r < |states[k].runs| && IsSha(states[k].runs[r].headSha)
  {
    ExecutionIsPiped(states, steps, k);
    assert Fits(states[k].runs, RoutingJob(r)) && WellFormed(states[k].runs[r]);
  }

  // ---------------------------------------------------------------- what the source review leaves

  /** All that the run has touched is suspected or confirmed from source. */
  ghost predicate OnlySource(db: Db, r: nat) {
    forall f | f in Touched(db.events, r) ::
      f < |db.findings| && db.findings[f].status in [Suspected, SourceConfirmed]
  }

  lemma OneUpsertReviewed(db: Db, repo: nat, r: nat, head: string, report: Report)
    requires OnlySource(db, r)
    ensures var u := UpsertFinding(db, repo, r, head, report); u.Some? ==> OnlySource(u.value.db, r)
  {
    var found := FindByPrint(db.findings, repo, report.fingerprint);
    hide FindByPrint;
    if found.None? {
      var created := FindingMoved(|db.findings|, Some(r), None, Suspected);
      TouchedExtends(db.events, created, r);
      TouchedExtends(db.events + [created],
                     FindingMoved(|db.findings|, Some(r), Some(Suspected), SourceConfirmed), r);
    }
    hide Touched;
  }

  lemma {:induction false} UpsertsReviewed(db: Db, repo: nat, r: nat, head: string, reports: seq<Report>)
    requires OnlySource(db, r)
    ensures var u := UpsertAll(db, repo, r, head, reports); u.Some? ==> OnlySource(u.value.db, r)
  {
    hide OnlySource, UpsertFinding;
    if reports != [] {
      var n := |reports| - 1;
      UpsertsReviewed(db, repo, r, head, reports[..n]);
      var rest := UpsertAll(db, repo, r, head, reports[..n]);
      if rest.Some? { OneUpsertReviewed(rest.value.db, repo, r, head, reports[n]); }
    }
  }

  /** The source review, left to finish, hands the run over to routing as just reviewed. */
  lemma DeepSecReviews(p: Progress, r: nat, reports: seq<Report>, cost: real)
    requires Ledger(p.db) && p.live && p.left >= 3 && r < |p.db.runs| && r in p.db.snapshots
    requires p.db.runs[r].status == SourceReviewRunning && OnlySource(p.db, r)
    ensures var q := DeepSec(p, r, reports, cost);
            q.live && JustReviewed(q.db, r) && RoutingJob(r) in q.db.requests
  {
    var run := p.db.runs[r];
    var started := p.db.(executions := p.db.executions + [Execution(r, cost)]);
    PersistDeepSecIsLawful(p.db, run.repo, r, run.headSha, reports, cost);
    PersistDeepSecApart(p.db, run.repo, r, run.headSha, reports, cost);
    assert OnlySource(started, r);
    UpsertsReviewed(started, run.repo, r, run.headSha, reports);
    var saved := PersistDeepSec(p.db, run.repo, r, run.headSha, reports, cost).value.db;
    hide Ledger, Lawful, Grows, UpsertAll, PersistDeepSec;
    TouchedExtends(saved.events, RunMoved(r, SourceReviewRunning, SourceReviewCompleted), r);
    hide Touched;
    var q := DeepSec(p, r, reports, cost);
    assert q.db.requests[|q.db.requests| - 1] == RoutingJob(r);
  }

  // ---------------------------------------------------------------- from the review to the disposition

  /** The jobs of one review in an execution: when it was reviewed, routed and each finding validated. */
  datatype Schedule = Schedule(reviewed: nat, routed: nat, validated: seq<nat>)

  ghost predicate Validates(steps: seq<Step>, k: nat, r: nat, f: nat) {
    k < |steps| && steps[k].action.StrixAction? && steps[k].action.run == r && steps[k].action.finding == f
    && steps[k].stop >= 5
  }

  /** The state after the i-th job, the routing being the 0-th. */
  function Behind(s: Schedule, i: nat): nat
    requires i <= |s.validated|
  {
    if i == 0 then s.routed + 1 else s.validated[i - 1] + 1
  }

  /**
   Each job is left to finish and is in its turn; what else happens in between, in any number of steps,
   leaves the run and the findings it touched alone.
   */
  ghost predicate Follows(
    states: seq<Db>, steps: seq<Step>, r: nat, s: Schedule, order: seq<nat>, candidates: seq<nat>, allowed: bool,
    maxBudget: real)
  {
    && IsExecution(states, steps)
    && |order| == |s.validated| && Distinct(order)
    && s.reviewed < s.routed < |steps| && (forall i | 0 <= i < |s.validated| :: s.validated[i] < |steps|)
    && steps[s.reviewed].action.DeepSecAction? && steps[s.reviewed].action.run == r && steps[s.reviewed].stop >= 3
    && steps[s.routed].action == RouteAction(r, candidates, allowed, maxBudget)
    && steps[s.routed].stop >= 2 * |candidates| + 4
    && Undisturbed(states[s.reviewed + 1], states[s.routed], r)
    && (forall i | 0 <= i < |order| :: Validates(steps, s.validated[i], r, order[i]))
    && (forall i | 0 <= i < |order| ::
          Behind(s, i) <= s.validated[i] && Undisturbed(states[Behind(s, i)], states[s.validated[i]], r))
  }

  function VerdictAt(steps: seq<Step>, s: Schedule, i: nat): Verdict
    requires i < |s.validated| && s.validated[i] < |steps| && steps[s.validated[i]].action.StrixAction?
  {
    steps[s.validated[i]].action.verdict
  }

  /** The verdict of each finding's job among the first n. */
  function Verdicts(steps: seq<Step>, s: Schedule, order: seq<nat>, n: nat): map<nat, Verdict>
    requires n <= |order| == |s.validated|
    requires forall i | 0 <= i < |order| :: s.validated[i] < |steps| && steps[s.validated[i]].action.StrixAction?
  {
    if n == 0 then map[] else Verdicts(steps, s, order, n - 1)[order[n - 1] := VerdictAt(steps, s, n - 1)]
  }

  lemma {:induction false} VerdictsAre(steps: seq<Step>, s: Schedule, order: seq<nat>, n: nat, i: nat)
    requires i < n <= |order| == |s.validated| && Distinct(order)
    requires forall i | 0 <= i < |order| :: s.validated[i] < |steps| && steps[s.validated[i]].action.StrixAction?
    ensures order[i] in Verdicts(steps, s, order, n) && Verdicts(steps, s, order, n)[order[i]] == VerdictAt(steps, s, i)
  {
    if i < n - 1 { VerdictsAre(steps, s, order, n - 1, i); }
  }

  /** In a reachable state, the findings that a run touched exist. */
  lemma TouchedExist(db: Db, r: nat, f: nat)
    requires Ledger(db) && f in Touched(db.events, r)
    ensures f < |db.findings|
  {
    assert FindingChain(db.events, f, StatusOf(db, f));
    var i :| 0 <= i < |db.events| && db.events[i].FindingMoved? && db.events[i].cause == Some(r)
             && db.events[i].finding == f;
    hide Ledger;
    ChainOfNobody(db.events, f, StatusOf(db, f), i);
  }

  lemma {:induction false} ChainOfNobody(events: seq<Event>, f: nat, status: Option<FindingStatus>, i: nat)
    requires FindingChain(events, f, status) && i < |events| && OfFinding(events[i], f)
    ensures status.Some?
  {
    if i < |events| - 1 && !OfFinding(events[|events| - 1], f) {
      ChainOfNobody(events[..|events| - 1], f, status, i);
    }
  }

  lemma SelfUndisturbed(states: seq<Db>, steps: seq<Step>, k: nat, r: nat)
    requires IsExecution(states, steps) && k < |states| && r < |states[k].runs|
    ensures Undisturbed(states[k], states[k], r)
  {
    ExecutionKeepsLedger(states, steps, k);
    hide IsExecution;
    forall f | f in Touched(states[k].events, r) ensures f < |states[k].findings| {
      TouchedExist(states[k], r, f);
    }
  }

  lemma RunsStay(states: seq<Db>, steps: seq<Step>, i: nat, k: nat)
    requires IsExecution(states, steps) && i <= k < |states|
    ensures |states[i].runs| <= |states[k].runs|
  {
    ExecutionOnlyGrows(states, steps, i, k);
    hide IsExecution;
  }

  /** The states in which the jobs begin, and the one after the last. */
  function Beginnings(states: seq<Db>, s: Schedule): (r: seq<Db>)
    requires Behind(s, |s.validated|) < |states|
    requires forall i | 0 <= i < |s.validated| :: s.validated[i] < |states|
    ensures |r| == |s.validated| + 1
  {
    seq(|s.validated|, i requires 0 <= i < |s.validated| => states[s.validated[i]])
    + [states[Behind(s, |s.validated|)]]
  }

  /** The jobs of the schedule are validations, left to finish, and all in the execution. */
  ghost predicate Jobs(states: seq<Db>, steps: seq<Step>, r: nat, s: Schedule, order: seq<nat>) {
    && |order| == |s.validated| && |states| == |steps| + 1 && Behind(s, |order|) < |states|
    && (forall i | 0 <= i < |order| ::
          s.validated[i] < |steps| && steps[s.validated[i]].action.StrixAction? && steps[s.validated[i]].stop >= 5)
  }

  lemma FollowsJobs(
    states: seq<Db>, steps: seq<Step>, r: nat, s: Schedule, order: seq<nat>, candidates: seq<nat>, allowed: bool,
    maxBudget: real)
    requires Follows(states, steps, r, s, order, candidates, allowed, maxBudget)
    ensures Jobs(states, steps, r, s, order) && Distinct(order)
  {
    hide Undisturbed, Distinct;
    forall i | 0 <= i < |order|
      ensures s.validated[i] < |steps| && steps[s.validated[i]].action.StrixAction? && steps[s.validated[i]].stop >= 5
    {
      assert Validates(steps, s.validated[i], r, order[i]);
    }
  }

  /** The costs and the room of the jobs. */
  function Costs(steps: seq<Step>, s: Schedule): (r: seq<real>)
    requires forall i | 0 <= i < |s.validated| :: s.validated[i] < |steps| && steps[s.validated[i]].action.StrixAction?
    ensures |r| == |s.validated| && forall i | 0 <= i < |r| :: r[i] == steps[s.validated[i]].action.cost
  {
    seq(|s.validated|, i requires 0 <= i < |s.validated| => steps[s.validated[i]].action.cost)
  }

  function Rooms(steps: seq<Step>, s: Schedule): (r: seq<nat>)
    requires forall i | 0 <= i < |s.validated| :: s.validated[i] < |steps|
    ensures |r| == |s.validated| && forall i | 0 <= i < |r| :: r[i] == steps[s.validated[i]].stop
  {
    seq(|s.validated|, i requires 0 <= i < |s.validated| => steps[s.validated[i]].stop)
  }

  lemma StepsValidate(
    states: seq<Db>, steps: seq<Step>, r: nat, s: Schedule, order: seq<nat>, candidates: seq<nat>, allowed: bool,
    maxBudget: real) returns (verdicts: map<nat, Verdict>, costs: seq<real>, rooms: seq<nat>)
    requires Follows(states, steps, r, s, order, candidates, allowed, maxBudget)
    requires r < |states[s.routed].runs|
    ensures Jobs(states, steps, r, s, order)
    ensures ValidatesInOrder(Beginnings(states, s), r, order, verdicts, costs, rooms)
    ensures forall i | 0 <= i < |order| :: order[i] in verdicts && verdicts[order[i]] == VerdictAt(steps, s, i)
  {
    hide *;
    FollowsJobs(states, steps, r, s, order, candidates, allowed, maxBudget);
    JobsShape(states, steps, r, s, order);
    verdicts := Verdicts(steps, s, order, |order|);
    costs, rooms := Costs(steps, s), Rooms(steps, s);
    forall i | 0 <= i < |order|
      ensures order[i] in verdicts && verdicts[order[i]] == VerdictAt(steps, s, i)
      ensures Undisturbed(JobAt(states, steps, r, s, order, i), Beginnings(states, s)[i + 1], r)
    {
      VerdictsAre(steps, s, order, |order|, i);
      StepValidates(states, steps, r, s, order, candidates, allowed, maxBudget, i);
    }
    InOrder(states, steps, r, s, order, verdicts);
  }

  lemma JobsShape(states: seq<Db>, steps: seq<Step>, r: nat, s: Schedule, order: seq<nat>)
    requires Jobs(states, steps, r, s, order)
    ensures |order| == |s.validated| && |states| == |steps| + 1 && Behind(s, |order|) < |states|
    ensures forall i | 0 <= i < |order| ::
              s.validated[i] < |steps| && steps[s.validated[i]].action.StrixAction? && steps[s.validated[i]].stop >= 5
  {
    hide Behind;
  }

  lemma InOrder(
    states: seq<Db>, steps: seq<Step>, r: nat, s: Schedule, order: seq<nat>, verdicts: map<nat, Verdict>)
    requires Jobs(states, steps, r, s, order)
    requires forall i | 0 <= i < |order| :: order[i] in verdicts && verdicts[order[i]] == VerdictAt(steps, s, i)
    requires forall i | 0 <= i < |order| ::
               Undisturbed(JobAt(states, steps, r, s, order, i), Beginnings(states, s)[i + 1], r)
    ensures ValidatesInOrder(Beginnings(states, s), r, order, verdicts, Costs(steps, s), Rooms(steps, s))
  {
    hide Undisturbed, ValidateStrix, VerdictAt, Behind;
    var begins, costs, rooms := Beginnings(states, s), Costs(steps, s), Rooms(steps, s);
    forall i | 0 <= i < |order|
      ensures ValidateStrix(Progress(begins[i], rooms[i], true), r, order[i], verdicts[order[i]], costs[i]).db
           == JobAt(states, steps, r, s, order, i)
    {
      assert begins[i] == states[s.validated[i]];
    }
    hide Beginnings, JobAt, Costs, Rooms;
  }

  /** Where the i-th validation job leaves the database. */
  function JobAt(states: seq<Db>, steps: seq<Step>, r: nat, s: Schedule, order: seq<nat>, i: nat): Db
    requires Jobs(states, steps, r, s, order) && i < |order|
  {
    var k := s.validated[i];
    var p := Progress(states[k], steps[k].stop, true);
    ValidateStrix(p, r, order[i], VerdictAt(steps, s, i), steps[k].action.cost).db
  }

  /** That is the next state of the execution. */
  lemma JobIsStep(
    states: seq<Db>, steps: seq<Step>, r: nat, s: Schedule, order: seq<nat>, candidates: seq<nat>, allowed: bool,
    maxBudget: real, i: nat)
    requires Follows(states, steps, r, s, order, candidates, allowed, maxBudget) && i < |order|
    requires Jobs(states, steps, r, s, order)
    ensures JobAt(states, steps, r, s, order, i) == states[s.validated[i] + 1]
  {
    hide *;
    FollowsAt(states, steps, r, s, order, candidates, allowed, maxBudget, i);
    JobsShape(states, steps, r, s, order);
    var k := s.validated[i];
    ExecutionStep(states, steps, k);
    StrixTaken(states[k], steps[k], r, order[i]);
    JobAtIs(states, steps, r, s, order, i);
  }

  lemma JobAtIs(states: seq<Db>, steps: seq<Step>, r: nat, s: Schedule, order: seq<nat>, i: nat)
    requires Jobs(states, steps, r, s, order) && i < |order|
    ensures var k := s.validated[i];
            k < |steps| && steps[k].action.StrixAction?
            && JobAt(states, steps, r, s, order, i)
            == ValidateStrix(Progress(states[k], steps[k].stop, true), r, order[i], steps[k].action.verdict,
                             steps[k].action.cost).db
  {
    hide ValidateStrix;
  }

  lemma StrixTaken(db: Db, step: Step, r: nat, f: nat)
    requires step.action.StrixAction? && step.action.run == r && step.action.finding == f
    ensures Take(db, step)
         == ValidateStrix(Progress(db, step.stop, true), r, f, step.action.verdict, step.action.cost).db
  {
    hide ValidateStrix;
  }

  /** What a schedule says about its i-th validation. */
  lemma FollowsAt(
    states: seq<Db>, steps: seq<Step>, r: nat, s: Schedule, order: seq<nat>, candidates: seq<nat>, allowed: bool,
    maxBudget: real, i: nat)
    requires Follows(states, steps, r, s, order, candidates, allowed, maxBudget) && i < |order|
    ensures IsExecution(states, steps) && |order| == |s.validated| && s.validated[i] < |steps|
    ensures Validates(steps, s.validated[i], r, order[i]) && s.routed < |steps|
    ensures steps[s.validated[i]].action.StrixAction? && steps[s.validated[i]].action.run == r
            && steps[s.validated[i]].action.finding == order[i]
    ensures Behind(s, i) <= s.validated[i] && Behind(s, i) < |states|
    ensures Undisturbed(states[Behind(s, i)], states[s.validated[i]], r)
  {
    hide Undisturbed, Distinct, Behind, Take, Enabled;
    assert Validates(steps, s.validated[i], r, order[i]);
  }

  lemma StepValidates(
    states: seq<Db>, steps: seq<Step>, r: nat, s: Schedule, order: seq<nat>, candidates: seq<nat>, allowed: bool,
    maxBudget: real, i: nat)
    requires Follows(states, steps, r, s, order, candidates, allowed, maxBudget) && i < |order|
    requires r < |states[s.routed].runs| && Jobs(states, steps, r, s, order)
    ensures Undisturbed(JobAt(states, steps, r, s, order, i), Beginnings(states, s)[i + 1], r)
  {
    hide *;
    JobIsStep(states, steps, r, s, order, candidates, allowed, maxBudget, i);
    JobsShape(states, steps, r, s, order);
    var k := s.validated[i];
    FollowsAt(states, steps, r, s, order, candidates, allowed, maxBudget, i);
    BehindIs(s, i + 1);
    BeginningIs(states, s, i + 1);
    if i + 1 == |order| {
      RoutedBefore(states, steps, r, s, order, candidates, allowed, maxBudget, i);
      RunsStay(states, steps, s.routed, k + 1);
      SelfUndisturbed(states, steps, k + 1, r);
    } else {
      FollowsAt(states, steps, r, s, order, candidates, allowed, maxBudget, i + 1);
    }
  }

  lemma BehindIs(s: Schedule, i: nat)
    requires i <= |s.validated|
    ensures Behind(s, i) == if i == 0 then s.routed + 1 else s.validated[i - 1] + 1
  {}

  lemma BeginningIs(states: seq<Db>, s: Schedule, i: nat)
    requires Behind(s, |s.validated|) < |states| && i <= |s.validated|
    requires forall i | 0 <= i < |s.validated| :: s.validated[i] < |states|
    ensures Beginnings(states, s)[i]
         == if i < |s.validated| then states[s.validated[i]] else states[Behind(s, |s.validated|)]
  {
    hide Behind;
  }

  /** Every job of the schedule comes after the routing. */
  lemma {:induction false} RoutedBefore(
    states: seq<Db>, steps: seq<Step>, r: nat, s: Schedule, order: seq<nat>, candidates: seq<nat>, allowed: bool,
    maxBudget: real, i: nat)
    requires Follows(states, steps, r, s, order, candidates, allowed, maxBudget) && i < |order|
    ensures s.routed < s.validated[i]
  {
    hide *;
    FollowsAt(states, steps, r, s, order, candidates, allowed, maxBudget, i);
    BehindIs(s, i);
    if i > 0 { RoutedBefore(states, steps, r, s, order, candidates, allowed, maxBudget, i - 1); }
  }

  /** What routing starts from. */
  lemma RoutingStarts(
    states: seq<Db>, steps: seq<Step>, r: nat, s: Schedule, order: seq<nat>, candidates: seq<nat>, allowed: bool,
    maxBudget: real)
    requires Follows(states, steps, r, s, order, candidates, allowed, maxBudget)
    requires ReadyForReview(states[s.reviewed], r)
    ensures var db := states[s.routed];
            && JustReviewed(db, r) && LoadsCandidates(db, r, candidates)
            && states[s.routed + 1]
            == Route(Progress(db, steps[s.routed].stop, true), r, candidates, allowed, maxBudget).db
            && db.runs[r].headSha != ""
  {
    hide *;
    FollowsStart(states, steps, r, s, order, candidates, allowed, maxBudget);
    var k := s.reviewed;
    ExecutionKeepsLedger(states, steps, k);
    ExecutionStep(states, steps, k);
    ExecutionStep(states, steps, s.routed);
    DeepSecTaken(states[k], steps[k], r);
    RouteTaken(states[s.routed], steps[s.routed].stop, r, candidates, allowed, maxBudget);
    RoutedRunsHaveHeads(states, steps, s.routed, r);
    ReviewedUndisturbed(states[k + 1], states[s.routed], r);
    ShaIsNotEmpty(states[s.routed].runs[r].headSha);
  }

  lemma ShaIsNotEmpty(s: string)
    requires IsSha(s)
    ensures s != ""
  {}

  lemma FollowsStart(
    states: seq<Db>, steps: seq<Step>, r: nat, s: Schedule, order: seq<nat>, candidates: seq<nat>, allowed: bool,
    maxBudget: real)
    requires Follows(states, steps, r, s, order, candidates, allowed, maxBudget)
    ensures IsExecution(states, steps) && |states| == |steps| + 1 && s.reviewed < s.routed < |steps|
    ensures steps[s.reviewed].action.DeepSecAction? && steps[s.reviewed].action.run == r && steps[s.reviewed].stop >= 3
    ensures steps[s.routed] == Step(RouteAction(r, candidates, allowed, maxBudget), steps[s.routed].stop)
    ensures steps[s.routed].stop >= 2 * |candidates| + 4 && |order| == |s.validated| && Distinct(order)
    ensures Undisturbed(states[s.reviewed + 1], states[s.routed], r)
  {
    hide Undisturbed, Distinct, Behind, Take, Enabled, Validates;
  }

  lemma DeepSecTaken(db: Db, step: Step, r: nat)
    requires Ledger(db) && ReadyForReview(db, r)
    requires step.action.DeepSecAction? && step.action.run == r && step.stop >= 3
    ensures JustReviewed(Take(db, step), r)
  {
    hide Ledger, OnlySource, JustReviewed, DeepSec;
    DeepSecReviews(Progress(db, step.stop, true), r, step.action.reports, step.action.cost);
  }

  lemma RouteTaken(db: Db, stop: nat, r: nat, candidates: seq<nat>, allowed: bool, maxBudget: real)
    requires Enabled(db, RouteAction(r, candidates, allowed, maxBudget))
    ensures RoutingJob(r) in db.requests && LoadsCandidates(db, r, candidates)
    ensures Take(db, Step(RouteAction(r, candidates, allowed, maxBudget), stop))
         == Route(Progress(db, stop, true), r, candidates, allowed, maxBudget).db
  {
    hide Route, LoadsCandidates;
  }

  lemma ReviewedUndisturbed(a: Db, b: Db, r: nat)
    requires JustReviewed(a, r) && Undisturbed(a, b, r)
    ensures JustReviewed(b, r)
  {
    hide Touched;
  }

  /** The run is under source review, and has touched nothing but what source reviews leave. */
  ghost predicate ReadyForReview(db: Db, r: nat) {
    && r < |db.runs| && r in db.snapshots && db.runs[r].status == SourceReviewRunning
    && OnlySource(db, r)
  }

  /**
   The disposition of a review, for every execution and any number of findings: whatever the order of
   the validation jobs, the run is blocked iff some verdict is a confirmed exploit, else it awaits a fix
   iff some candidate was not escalated, else it is completed; a failed mission leaves it in validation.
   */
  lemma DispositionOfReview(
    states: seq<Db>, steps: seq<Step>, r: nat, s: Schedule, order: seq<nat>, candidates: seq<nat>, allowed: bool,
    maxBudget: real)
    requires Follows(states, steps, r, s, order, candidates, allowed, maxBudget)
    requires ReadyForReview(states[s.reviewed], r)
    requires forall f :: f in Queue(states[s.routed], r, candidates, allowed, maxBudget) <==> f in order
    ensures var last := states[Behind(s, |order|)];
            && r < |last.runs|
            && last.runs[r].status ==
               if exists i | 0 <= i < |order| :: VerdictAt(steps, s, i) == MissionFailed then ValidationRunning
               else if exists i | 0 <= i < |order| :: VerdictAt(steps, s, i) == Exploited then Blocked
               else if exists f | f in candidates :: f !in order then AwaitingFix
               else Completed
  {
    hide *;
    RoutingStarts(states, steps, r, s, order, candidates, allowed, maxBudget);
    FollowsStart(states, steps, r, s, order, candidates, allowed, maxBudget);
    ReviewedRunExists(states[s.routed], r);
    var p := Progress(states[s.routed], steps[s.routed].stop, true);
    var verdicts, costs, rooms := StepsValidate(states, steps, r, s, order, candidates, allowed, maxBudget);
    JobsShape(states, steps, r, s, order);
    RoutingLeads(states, steps, r, s, order, candidates, allowed, maxBudget);
    VerdictsByJob(steps, s, order, verdicts, MissionFailed);
    VerdictsByJob(steps, s, order, verdicts, Exploited);
    StallsIs(order, verdicts);
    BeginningIs(states, s, |order|);
    ReviewOutcome(
      p, r, candidates, allowed, maxBudget, Beginnings(states, s), order, verdicts, costs, rooms);
  }

  lemma ReviewedRunExists(db: Db, r: nat)
    requires JustReviewed(db, r)
    ensures r < |db.runs|
  {}

  lemma StallsIs(order: seq<nat>, verdicts: map<nat, Verdict>)
    requires forall f | f in order :: f in verdicts
    ensures Stalls(order, verdicts) <==> exists f | f in order :: verdicts[f] == MissionFailed
  {}

  /** The first validation, or the end, follows the routing undisturbed. */
  lemma RoutingLeads(
    states: seq<Db>, steps: seq<Step>, r: nat, s: Schedule, order: seq<nat>, candidates: seq<nat>, allowed: bool,
    maxBudget: real)
    requires Follows(states, steps, r, s, order, candidates, allowed, maxBudget)
    requires Jobs(states, steps, r, s, order) && r < |states[s.routed].runs|
    ensures Undisturbed(states[s.routed + 1], Beginnings(states, s)[0], r)
  {
    hide *;
    FollowsStart(states, steps, r, s, order, candidates, allowed, maxBudget);
    JobsShape(states, steps, r, s, order);
    BehindIs(s, 0);
    BeginningIs(states, s, 0);
    if order == [] {
      RunsStay(states, steps, s.routed, s.routed + 1);
      SelfUndisturbed(states, steps, s.routed + 1, r);
    } else {
      FollowsAt(states, steps, r, s, order, candidates, allowed, maxBudget, 0);
    }
  }

  lemma VerdictsByJob(steps: seq<Step>, s: Schedule, order: seq<nat>, verdicts: map<nat, Verdict>, v: Verdict)
    requires |order| == |s.validated|
    requires forall i | 0 <= i < |order| :: s.validated[i] < |steps| && steps[s.validated[i]].action.StrixAction?
    requires forall i | 0 <= i < |order| :: order[i] in verdicts && verdicts[order[i]] == VerdictAt(steps, s, i)
    ensures (forall f | f in order :: f in verdicts)
    ensures (exists f | f in order :: verdicts[f] == v)
       <==> exists i | 0 <= i < |order| :: VerdictAt(steps, s, i) == v
  {
    hide VerdictAt;
    if i :| 0 <= i < |order| && VerdictAt(steps, s, i) == v { assert order[i] in order; }
  }
}
