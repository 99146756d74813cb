/**
 The job handlers and the services that drive a finding and a run from discovery to disposition.
 A handler is a sequence of committed effects. `Progress` carries the database, how many more
 effects the process commits before it stops, and whether it is still running: a handler that
 throws, or whose process stops, keeps what it has committed and does nothing more.
 */
module Handlers {
  import opened Options
  import opened Records
  import opened Text
  import opened StateMachines
  import opened Transitions
  import opened Remediations
  import opened Engines

  datatype Progress = Progress(db: Db, left: nat, live: bool)

  function Throw(p: Progress): Progress { p.(live := false) }

  /** Commits one transaction, unless it throws (None) or the process has stopped. */
  function Commit(p: Progress, next: Option<Db>): Progress {
    if p.live && next.Some? && p.left > 0 then Progress(next.value, p.left - 1, true) else Throw(p)
  }

  function CommitRequest(p: Progress, request: Request): Progress { Commit(p, Some(Enqueue(p.db, request))) }

  function CommitRun(p: Progress, r: nat, to: RunStatus): Progress { Commit(p, TransitionRun(p.db, r, to)) }

  // ---------------------------------------------------------------- disposition

  predicate AnyWith(db: Db, ids: set<nat>, statuses: set<FindingStatus>) {
    exists f | f in ids :: f < |db.findings| && db.findings[f].status in statuses
  }

  function Disposition(db: Db, ids: set<nat>): RunStatus {
    if AnyWith(db, ids, {Confirmed, StillExploitable}) then Blocked
    else if AnyWith(db, ids, {SourceConfirmed, FixPending}) then AwaitingFix
    else Completed
  }

  function FinalizeRun(p: Progress, r: nat): Progress {
    if !p.live || r >= |p.db.runs| then Throw(p)
    else if IsRunTerminal(p.db.runs[r].status) then p
    else
      var next := Disposition(p.db, Touched(p.db.events, r));
      SendOut(CommitRun(p, r, next), r, next)
  }

  /** The receipt job, then the webhooks: every run completes, a blocked one also raises the alert. */
  function SendOut(p: Progress, r: nat, disposition: RunStatus): Progress {
    var p1 := CommitRequest(p, ReceiptJob(r));
    var p2 := CommitRequest(p1, CompletedWebhook(r, disposition));
    if disposition == Blocked then CommitRequest(p2, BlockedWebhook(r)) else p2
  }

  // ---------------------------------------------------------------- preparation and source review

  /** The finding of the run's first finding.retesting event. */
  function RetestingFinding(events: seq<Event>, r: nat): Option<nat> {
    if events == [] then None else
    var earlier := RetestingFinding(events[..|events| - 1], r);
    var e := events[|events| - 1];
    if earlier.None? && e.FindingMoved? && e.cause == Some(r) && e.after == Retesting then Some(e.finding)
    else earlier
  }

  function Prepare(p: Progress, r: nat): Progress {
    if r >= |p.db.runs| then Throw(p) else
    var p1 := CommitRun(p, r, Classifying);
    var p2 := Commit(p1, Some(p1.db.(snapshots := p1.db.snapshots + {r})));
    if p.db.runs[r].runType == FixVerification then
      match RetestingFinding(p2.db.events, r)
      case None => Throw(p2)
      case Some(f) => CommitRequest(p2, RevalidationJob(r, f))
    else
      CommitRequest(p2, ClassifyJob(r))
  }

  function Classify(p: Progress, r: nat): Progress {
    if r >= |p.db.runs| || r !in p.db.snapshots || r in p.db.classified then Throw(p) else
    var p1 := Commit(p, Some(p.db.(classified := p.db.classified + {r})));
    var p2 := CommitRun(p1, r, SourceReviewRunning);
    CommitRequest(p2, DeepSecJob(r))
  }

  function PersistedDb(persisted: Option<Persisted>): Option<Db> {
    var saved :- persisted;
    Some(saved.db)
  }

  function DeepSec(p: Progress, r: nat, reports: seq<Report>, cost: real): Progress {
    if r >= |p.db.runs| || r !in p.db.snapshots then Throw(p) else
    var run := p.db.runs[r];
    var p1 := Commit(p, PersistedDb(PersistDeepSec(p.db, run.repo, r, run.headSha, reports, cost)));
    var p2 := CommitRun(p1, r, SourceReviewCompleted);
    CommitRequest(p2, RoutingJob(r))
  }

  // ---------------------------------------------------------------- routing

  const AUTO_ESCALATE_CATEGORIES :=
    ["authentication", "authorization", "tenant-isolation", "payment-manipulation", "business-logic"]
  const ESTIMATED_STRIX_VALIDATION_COST := 0.5

  predicate Escalates(finding: Finding, authorized: bool, alreadyTested: bool, budget: real) {
    && authorized
    && finding.severity !in [Low, Info]
    && !alreadyTested
    && budget >= ESTIMATED_STRIX_VALIDATION_COST
    && (|| finding.severity == Critical
        || (finding.severity == High && finding.confidence == HighConfidence)
        || Lower(Trim(finding.category)) in AUTO_ESCALATE_CATEGORIES)
  }

  predicate TestedAgainst(db: Db, f: nat, build: string) {
    exists i | 0 <= i < |db.validations| :: db.validations[i].finding == f && db.validations[i].build == build
  }

  function ApplyRoutingPolicy(db: Db, r: nat, f: nat, escalate: bool): Option<Db> {
    var db1 := db.(decisions := db.decisions + [Decision(r, f, escalate)]);
    if escalate then TransitionFinding(db1, f, ValidationQueued, Some(r)) else Some(db1)
  }

  function Spent(executions: seq<Execution>, r: nat): real {
    if executions == [] then 0.0 else
    var last := executions[|executions| - 1];
    Spent(executions[..|executions| - 1], r) + if last.run == r then last.cost else 0.0
  }

  /** Whether routing escalates the finding, given what the database says at that moment. */
  predicate EscalatesNow(db: Db, r: nat, f: nat, authorized: bool, budget: real) {
    && r < |db.runs| && f < |db.findings|
    && var run := db.runs[r];
       Escalates(db.findings[f], authorized, run.target.Some? && TestedAgainst(db, f, run.headSha), budget)
  }

  function RouteOne(p: Progress, r: nat, f: nat, authorized: bool, budget: real): Progress {
    if r >= |p.db.runs| || f >= |p.db.findings| then Throw(p) else
    var escalate := EscalatesNow(p.db, r, f, authorized, budget);
    var p1 := Commit(p, ApplyRoutingPolicy(p.db, r, f, escalate));
    if escalate then CommitRequest(p1, StrixJob(r, f)) else p1
  }

  function RouteAll(p: Progress, r: nat, candidates: seq<nat>, authorized: bool, budget: real): Progress {
    if candidates == [] then p
    else RouteOne(RouteAll(p, r, candidates[..|candidates| - 1], authorized, budget), r,
                  candidates[|candidates| - 1], authorized, budget)
  }

  /** The findings of the run that the routing handler loads, in whatever order the database returns. */
  ghost predicate LoadsCandidates(db: Db, r: nat, candidates: seq<nat>) {
    && (forall i, j | 0 <= i < j < |candidates| :: candidates[i] != candidates[j])
    && (forall f :: f in candidates <==>
          f in Touched(db.events, r) && f < |db.findings| && db.findings[f].status == SourceConfirmed)
  }

  /** The budget is read once: escalating does not lower it. */
  function RoutingLoop(p: Progress, r: nat, candidates: seq<nat>, targetAllowed: bool, maxBudget: real): Progress
    requires r < |p.db.runs|
  {
    RouteAll(p, r, candidates, p.db.runs[r].target.Some? && targetAllowed, maxBudget - Spent(p.db.executions, r))
  }

  /** `targetAllowed` is what the target authorization service answers for the run's target, if any. */
  function Route(p: Progress, r: nat, candidates: seq<nat>, targetAllowed: bool, maxBudget: real): Progress {
    if r >= |p.db.runs| then Throw(p) else
    SettleRouting(RoutingLoop(p, r, candidates, targetAllowed, maxBudget), r, Touched(p.db.events, r))
  }

  function SettleRouting(p: Progress, r: nat, ids: set<nat>): Progress {
    if AnyWith(p.db, ids, {ValidationQueued}) then CommitRun(p, r, ValidationRunning) else FinalizeRun(p, r)
  }

  // ---------------------------------------------------------------- runtime validation and fix verification

  /** The target is assumed to run the commit under test. */
  function AssumedTargetBuild(headSha: string): string { headSha }

  function ValidateStrix(p: Progress, r: nat, f: nat, verdict: Verdict, cost: real): Progress {
    if r >= |p.db.runs| || p.db.runs[r].target.None? || f >= |p.db.findings| then Throw(p) else
    var head := p.db.runs[r].headSha;
    var p1 := Commit(p, CorrelateKnown(p.db, r, f, head, AssumedTargetBuild(head), true, verdict, cost));
    if p1.live && !AnyWith(p1.db, Touched(p1.db.events, r), {ValidationQueued}) then FinalizeRun(p1, r) else p1
  }

  function SourceVerdict(reports: seq<Report>): Option<bool> {
    if reports == [] || reports[0].verdict.None? || reports[0].verdict == Some(Unknown) then None
    else Some(reports[0].verdict == Some(FalsePositive))
  }

  /** The fix commit is reviewed and what the review reports is stored like any other review. */
  function ReviewFix(p: Progress, r: nat, reports: seq<Report>, cost: real): Progress
    requires r < |p.db.runs|
  {
    var run := p.db.runs[r];
    var p1 := CommitRun(p, r, SourceReviewRunning);
    var p2 := Commit(p1, PersistedDb(PersistDeepSec(p1.db, run.repo, r, run.headSha, reports, cost)));
    CommitRun(p2, r, SourceReviewCompleted)
  }

  /** A source-only finding is concluded here; any other waits for the replay of its exploit. */
  function ConcludeReview(p: Progress, r: nat, f: nat, fix: Option<Remediation>, passed: Option<bool>): Progress {
    if fix.None? then Throw(p)
    else if fix.value.runtime == NotApplicable then
      FinalizeRun(Commit(p, CompleteFixVerification(p.db, f, r, passed, false, None, false, false)), r)
    else
      var p1 := Commit(p, StashSource(p.db, f, ToCheckOutcome(passed)));
      CommitRequest(CommitRun(p1, r, ValidationRunning), RetestJob(r, f))
  }

  function FixOf(db: Db, f: nat): Option<Remediation> {
    if f in db.remediations then Some(db.remediations[f]) else None
  }

  /** The remediation row is the one loaded when the job started. */
  function Revalidate(p: Progress, r: nat, f: nat, reports: seq<Report>, cost: real): Progress {
    if r >= |p.db.runs| || f >= |p.db.findings| || r !in p.db.snapshots then Throw(p) else
    ConcludeReview(ReviewFix(p, r, reports, cost), r, f, FixOf(p.db, f), SourceVerdict(reports))
  }

  function StashSource(db: Db, f: nat, source: CheckOutcome): Option<Db> {
    if f !in db.remediations then None
    else Some(db.(remediations := db.remediations[f := db.remediations[f].(source := source)]))
  }

  function RetestVerdict(verdict: Verdict): Option<bool> {
    match verdict
    case NotExploited => Some(true)
    case Exploited => Some(false)
    case NoConclusion | MissionFailed => None
  }

  function StoredVerdict(source: CheckOutcome): Option<bool> {
    match source
    case Passed => Some(true)
    case NotPassed => Some(false)
    case Pending | NotApplicable | Undecided => None
  }

  function Retest(p: Progress, r: nat, f: nat, verdict: Verdict, cost: real): Progress {
    if r >= |p.db.runs| || p.db.runs[r].target.None? || f >= |p.db.findings| || f !in p.db.remediations then
      Throw(p)
    else
      var fix := p.db.remediations[f];
      var build := AssumedTargetBuild(p.db.runs[r].headSha);
      var p1 := Commit(p, PersistStrix(p.db, r, f, build, verdict, cost, Forced(None)));
      var p2 := Commit(p1, CompleteFixVerification(
                             p1.db, f, r, StoredVerdict(fix.source), true, RetestVerdict(verdict),
                             CommitMatchesBuild(fix.fixCommit, build), verdict == MissionFailed));
      FinalizeRun(p2, r)
  }

  // ---------------------------------------------------------------- services

  predicate IsSha(s: string) {
    7 <= |s| <= 40
    && forall i | 0 <= i < |s| :: '0' <= s[i] <= '9' || 'a' <= s[i] <= 'f' || 'A' <= s[i] <= 'F'
  }

  function CreateReview(
    p: Progress, scan: bool, repo: nat, baseSha: string, headSha: string, target: Option<nat>, key: string)
    : Progress
  {
    if !IsSha(baseSha) || !IsSha(headSha) then Throw(p)
    else if KeyTaken(p.db, key) then p
    else
      var runType := if scan then RepositoryScan else ChangeReview;
      var p1 := Commit(p, InsertRun(p.db, runType, repo, baseSha, headSha, target, key));
      CommitRequest(p1, PrepareJob(|p.db.runs|))
  }

  function ValidateFinding(p: Progress, f: nat, target: nat, key: string): Progress {
    if f >= |p.db.findings| then Throw(p) else
    var finding := p.db.findings[f];
    var p1 := if finding.status == SourceConfirmed
              then Commit(p, TransitionFinding(p.db, f, ValidationQueued, None)) else p;
    var p2 := Commit(p1, InsertRun(p1.db, FindingValidation, finding.repo, finding.lastSeen, finding.lastSeen,
                                   Some(target), key));
    CommitRequest(p2, StrixJob(|p.db.runs|, f))
  }

  function VerifyFix(p: Progress, f: nat, target: Option<nat>, key: string): Progress {
    CommitRequest(Commit(p, StartFixVerification(p.db, f, target, key)), PrepareJob(|p.db.runs|))
  }

  // ---------------------------------------------------------------- steps and executions

  datatype Action =
    | Tick
    | CreateReviewAction(scan: bool, repo: nat, baseSha: string, headSha: string, target: Option<nat>, key: string)
    | ValidateFindingAction(finding: nat, validationTarget: nat, key: string)
    | SubmitFixAction(finding: nat, sha: string)
    | VerifyFixAction(finding: nat, target: Option<nat>, key: string)
    | CancelAction(run: nat)
    | PrepareAction(run: nat)
    | ClassifyAction(run: nat)
    | DeepSecAction(run: nat, reports: seq<Report>, cost: real)
    | RouteAction(run: nat, candidates: seq<nat>, targetAllowed: bool, maxBudget: real)
    | StrixAction(run: nat, finding: nat, verdict: Verdict, cost: real)
    | RevalidateAction(run: nat, finding: nat, reports: seq<Report>, cost: real)
    | RetestAction(run: nat, finding: nat, verdict: Verdict, cost: real)
    | ExploreAction(run: nat, verdict: Verdict, discovery: Option<Report>, located: bool, build: string, cost: real)

  /** A job runs, for the first or any later time, only if it was enqueued. */
  ghost predicate Enabled(db: Db, a: Action) {
    match a
    case PrepareAction(r) => PrepareJob(r) in db.requests
    case ClassifyAction(r) => ClassifyJob(r) in db.requests
    case DeepSecAction(r, _, _) => DeepSecJob(r) in db.requests
    case RouteAction(r, candidates, _, _) => RoutingJob(r) in db.requests && LoadsCandidates(db, r, candidates)
    case StrixAction(r, f, _, _) => StrixJob(r, f) in db.requests
    case RevalidateAction(r, f, _, _) => RevalidationJob(r, f) in db.requests
    case RetestAction(r, f, _, _) => RetestJob(r, f) in db.requests
    case _ => true
  }

  function Perform(p: Progress, a: Action): Progress {
    match a
    case Tick => Commit(p, Some(p.db.(clock := p.db.clock + 1)))
    case CreateReviewAction(scan, repo, base, head, target, key) => CreateReview(p, scan, repo, base, head, target, key)
    case ValidateFindingAction(f, target, key) => ValidateFinding(p, f, target, key)
    case SubmitFixAction(f, sha) => Commit(p, SubmitFix(p.db, f, sha))
    case VerifyFixAction(f, target, key) => VerifyFix(p, f, target, key)
    case CancelAction(r) => CommitRun(p, r, Cancelled)
    case PrepareAction(r) => Prepare(p, r)
    case ClassifyAction(r) => Classify(p, r)
    case DeepSecAction(r, reports, cost) => DeepSec(p, r, reports, cost)
    case RouteAction(r, candidates, allowed, budget) => Route(p, r, candidates, allowed, budget)
    case StrixAction(r, f, verdict, cost) => ValidateStrix(p, r, f, verdict, cost)
    case RevalidateAction(r, f, reports, cost) => Revalidate(p, r, f, reports, cost)
    case RetestAction(r, f, verdict, cost) => Retest(p, r, f, verdict, cost)
    case ExploreAction(r, verdict, discovery, located, build, cost) =>
      if r >= |p.db.runs| then Throw(p) else
      var run := p.db.runs[r];
      Commit(p, CorrelateExploratory(p.db, run.repo, r, run.headSha, build, verdict, discovery, located, cost))
  }

  datatype Step = Step(action: Action, stop: nat)

  function Take(db: Db, step: Step): Db { Perform(Progress(db, step.stop, true), step.action).db }

  /** One handler or service call at a time, each possibly cut short, from an empty database. */
  ghost predicate IsExecution(states: seq<Db>, steps: seq<Step>) {
    && |states| == |steps| + 1
    && states[0] == EMPTY
    && forall i | 0 <= i < |steps| :: Enabled(states[i], steps[i].action) && states[i + 1] == Take(states[i], steps[i])
  }

  lemma ExecutionStart(states: seq<Db>, steps: seq<Step>)
    requires IsExecution(states, steps)
    ensures |states| == |steps| + 1 && states[0] == EMPTY
  {
    hide Take, Enabled;
  }

  lemma ExecutionStep(states: seq<Db>, steps: seq<Step>, k: nat)
    requires IsExecution(states, steps) && k < |steps|
    ensures |states| == |steps| + 1 && states[k + 1] == Take(states[k], steps[k]) && Enabled(states[k], steps[k].action)
  {
    hide Take, Enabled;
  }

  lemma TakePerforms(db: Db, step: Step)
    ensures Take(db, step) == Perform(Progress(db, step.stop, true), step.action).db
  {
    hide Perform;
  }
}
