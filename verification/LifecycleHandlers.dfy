/**
 The job handlers and services as they run: one committed effect after another on the store, ending
 early when one throws. Each is proved to leave the store exactly where its specification does.
 */
module LifecycleHandlers {
  import opened Options
  import opened Records
  import opened StateMachines
  import opened Remediations
  import opened Engines
  import opened Handlers
  import opened Stores
  import Transactions = LifecycleTransactions
  import Transitions

  // ---------------------------------------------------------------- disposition

  ghost function RequestAll(p: Progress, requests: seq<Request>): Progress {
    if requests == [] then p
    else CommitRequest(RequestAll(p, requests[..|requests| - 1]), requests[|requests| - 1])
  }

  /** After the process stopped nothing more is enqueued. */
  lemma {:induction false} StoppedEnqueues(p: Progress, requests: seq<Request>, i: nat)
    requires i <= |requests| && !RequestAll(p, requests[..i]).live
    ensures RequestAll(p, requests) == RequestAll(p, requests[..i])
    decreases |requests|
  {
    if i < |requests| {
      assert requests[..|requests| - 1][..i] == requests[..i];
      StoppedEnqueues(p, requests[..|requests| - 1], i);
    } else {
      assert requests[..i] == requests;
    }
  }

  method EnqueueAll(store: Store, requests: seq<Request>) returns (o: Outcome)
    modifies store
    ensures store.After(o) == RequestAll(old(store.Now()), requests)
  {
    ghost var start := store.Now();
    for i := 0 to |requests|
      invariant store.Now() == RequestAll(start, requests[..i])
    {
      assert requests[..i + 1][..i] == requests[..i];
      hide CommitRequest;
      o := store.Enqueue(requests[i]);
      if o.Threw? {
        assert !store.After(o).live;
        StoppedEnqueues(start, requests, i + 1);
        return;
      }
    }
    assert requests[..|requests|] == requests;
    return Done;
  }

  lemma SendOutEnqueues(p: Progress, r: nat, disposition: RunStatus)
    ensures var webhooks := [CompletedWebhook(r, disposition)]
              + if disposition == Blocked then [BlockedWebhook(r)] else [];
            SendOut(p, r, disposition) == RequestAll(CommitRequest(p, ReceiptJob(r)), webhooks)
  {
    var p1, first := CommitRequest(p, ReceiptJob(r)), [CompletedWebhook(r, disposition)];
    assert first[..0] == [];
    assert RequestAll(p1, first) == CommitRequest(RequestAll(p1, []), first[0]);
    if disposition == Blocked {
      var both := first + [BlockedWebhook(r)];
      assert both[..1] == first;
    } else {
      assert first + [] == first;
    }
  }

  method FinalizeRun(store: Store, r: nat) returns (o: Outcome)
    modifies store
    ensures store.After(o) == Handlers.FinalizeRun(old(store.Now()), r)
  {
    hide CommitRequest, RequestAll, SendOut, CommitRun;
    if r >= |store.runs| { return Threw; }
    if IsRunTerminal(store.runs[r].status) { return Done; }
    var findingIds, rows := Touched(store.events, r), store.Rows();
    var hasBlocking := AnyWith(rows, findingIds, {Confirmed, StillExploitable});
    var hasAwaitingFix := AnyWith(rows, findingIds, {SourceConfirmed, FixPending});
    var next := if hasBlocking then Blocked else if hasAwaitingFix then AwaitingFix else Completed;
    assert next == Disposition(rows, findingIds);
    hide AnyWith, Disposition, IsRunTerminal;
    ghost var start := store.Now();
    o := store.MoveRun(r, next);
    SendOutEnqueues(store.After(o), r, next);
    if o.Threw? { StoppedSendsNothing(store.After(o), r, next); return; }
    ghost var moved := store.Now();
    o := store.Enqueue(ReceiptJob(r));
    var webhooks := [CompletedWebhook(r, next)];
    if next == Blocked { webhooks := webhooks + [BlockedWebhook(r)]; } else { assert webhooks + [] == webhooks; }
    if o.Threw? { StoppedSendsNothing(store.After(o), r, next); StoppedAll(store.After(o), webhooks); return; }
    o := EnqueueAll(store, webhooks);
  }

  lemma StoppedSendsNothing(p: Progress, r: nat, disposition: RunStatus)
    requires !p.live
    ensures SendOut(p, r, disposition) == p
  {}

  lemma StoppedAll(p: Progress, requests: seq<Request>)
    requires !p.live
    ensures RequestAll(p, requests) == p
  {
    assert requests[..0] == [];
    StoppedEnqueues(p, requests, 0);
  }

  // ---------------------------------------------------------------- preparation and source review

  method PrepareRepository(store: Store, r: nat) returns (o: Outcome)
    modifies store
    ensures store.After(o) == Prepare(old(store.Now()), r)
  {
    if r >= |store.runs| { return Threw; }
    var runType := store.runs[r].runType;
    hide Transitions.TransitionRun, RetestingFinding;
    :- store.MoveRun(r, Classifying);
    :- StoreSnapshot(store, r);
    if runType == FixVerification {
      var f := RetestingFinding(store.events, r);
      if f.None? { return Threw; }
      o := store.Enqueue(RevalidationJob(r, f.value));
      return;
    }
    o := store.Enqueue(ClassifyJob(r));
  }

  method StoreSnapshot(store: Store, r: nat) returns (o: Outcome)
    modifies store
    ensures store.After(o)
         == Commit(old(store.Now()), Some(old(store.Rows()).(snapshots := old(store.snapshots) + {r})))
  {
    var saved := store.Rows();
    store.snapshots := store.snapshots + {r};
    o := store.EndTransaction(saved, Done);
  }

  method StoreClassification(store: Store, r: nat) returns (o: Outcome)
    modifies store
    ensures store.After(o)
         == Commit(old(store.Now()), Some(old(store.Rows()).(classified := old(store.classified) + {r})))
  {
    var saved := store.Rows();
    store.classified := store.classified + {r};
    o := store.EndTransaction(saved, Done);
  }

  method ClassifyChange(store: Store, r: nat) returns (o: Outcome)
    modifies store
    ensures store.After(o) == Classify(old(store.Now()), r)
  {
    hide Transitions.TransitionRun;
    if r >= |store.runs| || r !in store.snapshots || r in store.classified { return Threw; }
    :- StoreClassification(store, r);
    :- store.MoveRun(r, SourceReviewRunning);
    o := store.Enqueue(DeepSecJob(r));
  }

  method RunDeepSec(store: Store, r: nat, reports: seq<Report>, cost: real) returns (o: Outcome)
    modifies store
    ensures store.After(o) == DeepSec(old(store.Now()), r, reports, cost)
  {
    hide Transitions.TransitionRun, PersistDeepSec;
    if r >= |store.runs| || r !in store.snapshots { return Threw; }
    var run := store.runs[r];
    var ids;
    o, ids := Transactions.PersistDeepSec(store, run.repo, r, run.headSha, reports, cost);
    if o.Threw? { return; }
    :- store.MoveRun(r, SourceReviewCompleted);
    o := store.Enqueue(RoutingJob(r));
  }

  // ---------------------------------------------------------------- routing

  /** After the process stopped no further candidate is routed. */
  lemma {:induction false} StoppedRoutes(
      p: Progress, r: nat, candidates: seq<nat>, authorized: bool, budget: real, i: nat)
    requires i <= |candidates| && !RouteAll(p, r, candidates[..i], authorized, budget).live
    ensures RouteAll(p, r, candidates, authorized, budget) == RouteAll(p, r, candidates[..i], authorized, budget)
    decreases |candidates|
  {
    if i < |candidates| {
      assert candidates[..|candidates| - 1][..i] == candidates[..i];
      StoppedRoutes(p, r, candidates[..|candidates| - 1], authorized, budget, i);
      hide ApplyRoutingPolicy, EscalatesNow;
    } else {
      assert candidates[..i] == candidates;
    }
  }

  method RouteCandidate(store: Store, r: nat, f: nat, targetAuthorized: bool, remainingBudget: real)
    returns (o: Outcome)
    modifies store
    ensures store.After(o) == RouteOne(old(store.Now()), r, f, targetAuthorized, remainingBudget)
  {
    if r >= |store.runs| || f >= |store.findings| { return Threw; }
    var run, finding := store.runs[r], store.findings[f];
    var alreadyTested := run.target.Some? && TestedAgainst(store.Rows(), f, run.headSha);
    var escalate := Escalates(finding, targetAuthorized, alreadyTested, remainingBudget);
    assert escalate == EscalatesNow(store.Rows(), r, f, targetAuthorized, remainingBudget);
    hide ApplyRoutingPolicy, EscalatesNow, Escalates, TestedAgainst;
    :- Transactions.ApplyRoutingPolicy(store, r, f, escalate);
    if escalate {
      :- store.Enqueue(StrixJob(r, f));
    }
    return Done;
  }

  method RouteCandidates(store: Store, r: nat, candidates: seq<nat>, targetAuthorized: bool, remainingBudget: real)
    returns (o: Outcome)
    modifies store
    ensures store.After(o) == RouteAll(old(store.Now()), r, candidates, targetAuthorized, remainingBudget)
  {
    ghost var start := store.Now();
    for i := 0 to |candidates|
      invariant store.Now() == RouteAll(start, r, candidates[..i], targetAuthorized, remainingBudget)
    {
      assert candidates[..i + 1][..i] == candidates[..i];
      hide RouteOne;
      o := RouteCandidate(store, r, candidates[i], targetAuthorized, remainingBudget);
      if o.Threw? {
        assert !store.After(o).live;
        StoppedRoutes(start, r, candidates, targetAuthorized, remainingBudget, i + 1);
        return;
      }
    }
    assert candidates[..|candidates|] == candidates;
    return Done;
  }

  /** `candidates` is what the query for the run's source-confirmed findings returned. */
  method ApplyRouting(store: Store, r: nat, candidates: seq<nat>, targetAllowed: bool, maxBudget: real)
    returns (o: Outcome)
    modifies store
    ensures store.After(o) == Route(old(store.Now()), r, candidates, targetAllowed, maxBudget)
  {
    hide RouteAll, AnyWith, Spent, CommitRun;
    if r >= |store.runs| { return Threw; }
    var findingIds := Touched(store.events, r);
    var remainingBudget := maxBudget - Spent(store.executions, r);
    var targetAuthorized := false;
    if store.runs[r].target.Some? { targetAuthorized := targetAllowed; }
    o := RouteCandidates(store, r, candidates, targetAuthorized, remainingBudget);
    if o.Threw? { StoppedSettles(store.After(o), r, findingIds); return; }
    if AnyWith(store.Rows(), findingIds, {ValidationQueued}) {
      o := store.MoveRun(r, ValidationRunning);
    } else {
      hide Handlers.FinalizeRun;
      o := FinalizeRun(store, r);
    }
  }

  lemma StoppedSettles(p: Progress, r: nat, ids: set<nat>)
    requires !p.live
    ensures SettleRouting(p, r, ids) == p
  {}

  // ---------------------------------------------------------------- runtime validation

  method RunStrixValidation(store: Store, r: nat, f: nat, verdict: Verdict, cost: real) returns (o: Outcome)
    modifies store
    ensures store.After(o) == ValidateStrix(old(store.Now()), r, f, verdict, cost)
  {
    hide CorrelateKnown, Handlers.FinalizeRun, AnyWith;
    if r >= |store.runs| || store.runs[r].target.None? || f >= |store.findings| { return Threw; }
    var head := store.runs[r].headSha;
    :- Transactions.CorrelateWithFinding(store, r, f, head, AssumedTargetBuild(head), true, verdict, cost);
    if !AnyWith(store.Rows(), Touched(store.events, r), {ValidationQueued}) {
      o := FinalizeRun(store, r);
      return;
    }
    return Done;
  }

  // ---------------------------------------------------------------- fix verification

  method ReviewFixCommit(store: Store, r: nat, reports: seq<Report>, cost: real) returns (o: Outcome)
    requires r < |store.runs|
    modifies store
    ensures store.After(o) == ReviewFix(old(store.Now()), r, reports, cost)
  {
    hide Transitions.TransitionRun, PersistDeepSec;
    var run := store.runs[r];
    :- store.MoveRun(r, SourceReviewRunning);
    var ids;
    o, ids := Transactions.PersistDeepSec(store, run.repo, r, run.headSha, reports, cost);
    if o.Threw? { return; }
    o := store.MoveRun(r, SourceReviewCompleted);
  }

  method StashSourceResult(store: Store, f: nat, source: CheckOutcome) returns (o: Outcome)
    modifies store
    ensures store.After(o) == Commit(old(store.Now()), StashSource(old(store.Rows()), f, source))
  {
    if f !in store.remediations { return Threw; }
    var saved := store.Rows();
    store.remediations := store.remediations[f := store.remediations[f].(source := source)];
    o := store.EndTransaction(saved, Done);
  }

  method Conclude(store: Store, r: nat, f: nat, fix: Option<Remediation>, passed: Option<bool>) returns (o: Outcome)
    modifies store
    ensures store.After(o) == ConcludeReview(old(store.Now()), r, f, fix, passed)
  {
    hide Transitions.TransitionRun, CompleteFixVerification, StashSource;
    if fix.None? { return Threw; }
    if fix.value.runtime == NotApplicable {
      o := Transactions.CompleteFixVerification(store, f, r, passed, false, None, false, false);
      if o.Threw? { StoppedFinalizes(store.After(o), r); return; }
      hide Handlers.FinalizeRun;
      o := FinalizeRun(store, r);
      return;
    }
    :- StashSourceResult(store, f, ToCheckOutcome(passed));
    :- store.MoveRun(r, ValidationRunning);
    o := store.Enqueue(RetestJob(r, f));
  }

  lemma StoppedFinalizes(p: Progress, r: nat)
    requires !p.live
    ensures Handlers.FinalizeRun(p, r) == p
  {}

  lemma StoppedConcludes(p: Progress, r: nat, f: nat, fix: Option<Remediation>, passed: Option<bool>)
    requires !p.live
    ensures ConcludeReview(p, r, f, fix, passed) == p
  {}

  method RunRevalidation(store: Store, r: nat, f: nat, reports: seq<Report>, cost: real) returns (o: Outcome)
    modifies store
    ensures store.After(o) == Revalidate(old(store.Now()), r, f, reports, cost)
  {
    hide ReviewFix, ConcludeReview;
    if r >= |store.runs| || f >= |store.findings| || r !in store.snapshots { return Threw; }
    var fix := FixOf(store.Rows(), f);
    var passed := SourceVerdict(reports);
    o := ReviewFixCommit(store, r, reports, cost);
    if o.Threw? { StoppedConcludes(store.After(o), r, f, fix, passed); return; }
    o := Conclude(store, r, f, fix, passed);
  }

  method RunStrixRetest(store: Store, r: nat, f: nat, verdict: Verdict, cost: real) returns (o: Outcome)
    modifies store
    ensures store.After(o) == Retest(old(store.Now()), r, f, verdict, cost)
  {
    hide PersistStrix, CompleteFixVerification, Handlers.FinalizeRun, CommitMatchesBuild;
    if r >= |store.runs| || store.runs[r].target.None? || f >= |store.findings| || f !in store.remediations {
      return Threw;
    }
    var fix := store.remediations[f];
    var build := AssumedTargetBuild(store.runs[r].headSha);
    o := Transactions.PersistStrix(store, r, f, build, verdict, cost, Forced(None));
    if o.Threw? { StoppedFinalizes(store.After(o), r); return; }
    o := Transactions.CompleteFixVerification(
      store, f, r, StoredVerdict(fix.source), true, RetestVerdict(verdict),
      CommitMatchesBuild(fix.fixCommit, build), verdict == MissionFailed);
    if o.Threw? { StoppedFinalizes(store.After(o), r); return; }
    o := FinalizeRun(store, r);
  }

  // ---------------------------------------------------------------- services

  method CreateRunRow(
      store: Store, runType: RunType, repo: nat, baseSha: string, headSha: string, target: Option<nat>, key: string)
    returns (o: Outcome)
    modifies store
    ensures store.After(o)
         == Commit(old(store.Now()),
                   Transitions.InsertRun(old(store.Rows()), runType, repo, baseSha, headSha, target, key))
  {
    var saved := store.Rows();
    o := store.CreateRun(runType, repo, baseSha, headSha, target, key);
    hide Transitions.InsertRun;
    o := store.EndTransaction(saved, o);
  }

  /** A second request with the same idempotency key is answered without doing anything. */
  method CreateReviewRun(
      store: Store, scan: bool, repo: nat, baseSha: string, headSha: string, target: Option<nat>, key: string)
    returns (o: Outcome)
    modifies store
    ensures store.After(o) == CreateReview(old(store.Now()), scan, repo, baseSha, headSha, target, key)
  {
    hide Transitions.InsertRun, IsSha, Transitions.KeyTaken;
    if !IsSha(baseSha) || !IsSha(headSha) { return Threw; }
    if Transitions.KeyTaken(store.Rows(), key) { return Done; }
    var r := |store.runs|;
    :- CreateRunRow(store, if scan then RepositoryScan else ChangeReview, repo, baseSha, headSha, target, key);
    o := store.Enqueue(PrepareJob(r));
  }

  method QueueValidation(store: Store, f: nat) returns (o: Outcome)
    modifies store
    ensures store.After(o)
         == Commit(old(store.Now()), Transitions.TransitionFinding(old(store.Rows()), f, ValidationQueued, None))
  {
    var saved := store.Rows();
    o := store.TransitionFindingStatus(f, ValidationQueued, None);
    hide Transitions.TransitionFinding;
    o := store.EndTransaction(saved, o);
  }

  lemma TransitionKeepsRuns(db: Db, f: nat, to: FindingStatus)
    ensures var next := Transitions.TransitionFinding(db, f, to, None); next.Some? ==> next.value.runs == db.runs
  {}

  method CreateValidationRun(store: Store, f: nat, target: nat, key: string) returns (o: Outcome)
    modifies store
    ensures store.After(o) == ValidateFinding(old(store.Now()), f, target, key)
  {
    hide Transitions.InsertRun, Transitions.TransitionFinding;
    if f >= |store.findings| { return Threw; }
    var finding, r := store.findings[f], |store.runs|;
    TransitionKeepsRuns(store.Rows(), f, ValidationQueued);
    if finding.status == SourceConfirmed {
      :- QueueValidation(store, f);
    }
    :- CreateRunRow(store, FindingValidation, finding.repo, finding.lastSeen, finding.lastSeen, Some(target), key);
    o := store.Enqueue(StrixJob(r, f));
  }

  method VerifySubmittedFix(store: Store, f: nat, target: Option<nat>, key: string) returns (o: Outcome)
    modifies store
    ensures store.After(o) == VerifyFix(old(store.Now()), f, target, key)
  {
    hide StartFixVerification;
    var r := |store.runs|;
    :- Transactions.StartFixVerification(store, f, target, key);
    o := store.Enqueue(PrepareJob(r));
  }

  // ---------------------------------------------------------------- any action

  method Tick(store: Store) returns (o: Outcome)
    modifies store
    ensures store.After(o) == Commit(old(store.Now()), Some(old(store.Rows()).(clock := old(store.clock) + 1)))
  {
    var saved := store.Rows();
    store.clock := store.clock + 1;
    o := store.EndTransaction(saved, Done);
  }

  /** What a mission without a finding reports is stored for the run it belongs to. */
  method Explore(
      store: Store, r: nat, verdict: Verdict, discovery: Option<Report>, located: bool, build: string, cost: real)
    returns (o: Outcome)
    modifies store
    ensures store.After(o) == Perform(old(store.Now()), ExploreAction(r, verdict, discovery, located, build, cost))
  {
    hide CorrelateExploratory;
    if r >= |store.runs| { return Threw; }
    var run := store.runs[r];
    o := Transactions.CorrelateDiscovery(store, run.repo, r, run.headSha, build, verdict, discovery, located, cost);
  }

  /** Whatever is called or run next, the store ends up where the step relation says. */
  method Act(store: Store, a: Action) returns (o: Outcome)
    modifies store
    ensures store.After(o) == Perform(old(store.Now()), a)
    ensures store.Rows() == Take(old(store.Rows()), Step(a, old(store.left)))
  {
    hide CreateReview, ValidateFinding, VerifyFix, Prepare, Classify, DeepSec, Route, ValidateStrix, Revalidate, Retest;
    hide SubmitFix, CorrelateExploratory, Commit, CommitRun, Take;
    TakePerforms(store.Rows(), Step(a, store.left));
    match a {
      case Tick => o := Tick(store);
      case CreateReviewAction(scan, repo, base, head, target, key) =>
        o := CreateReviewRun(store, scan, repo, base, head, target, key);
      case ValidateFindingAction(f, target, key) => o := CreateValidationRun(store, f, target, key);
      case SubmitFixAction(f, sha) => o := Transactions.SubmitFix(store, f, sha);
      case VerifyFixAction(f, target, key) => o := VerifySubmittedFix(store, f, target, key);
      case CancelAction(r) => o := store.MoveRun(r, Cancelled);
      case PrepareAction(r) => o := PrepareRepository(store, r);
      case ClassifyAction(r) => o := ClassifyChange(store, r);
      case DeepSecAction(r, reports, cost) => o := RunDeepSec(store, r, reports, cost);
      case RouteAction(r, candidates, allowed, budget) => o := ApplyRouting(store, r, candidates, allowed, budget);
      case StrixAction(r, f, verdict, cost) => o := RunStrixValidation(store, r, f, verdict, cost);
      case RevalidateAction(r, f, reports, cost) => o := RunRevalidation(store, r, f, reports, cost);
      case RetestAction(r, f, verdict, cost) => o := RunStrixRetest(store, r, f, verdict, cost);
      case ExploreAction(r, verdict, discovery, located, build, cost) =>
        o := Explore(store, r, verdict, discovery, located, build, cost);
    }
  }
}
