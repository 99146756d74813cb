/**
 Whole executions, from the request for a review on: what the theorems about executions speak of does
 happen, and so does what the comments in the code do not expect.
 */
module Walkthroughs {
  import opened Collections
  import opened Options
  import opened Records
  import opened Transitions
  import opened Remediations
  import opened Engines
  import opened Handlers
  import opened Dispositions
  import opened ReviewExecutions
  import opened ReviewRuns
  import opened FixOutcomes
  import opened VerifiedFixes
  import opened Revalidations

  /** What every review in this file reports: one critical finding, found again as `verdict` says. */
  function Reported(verdict: Revalidation): Report {
    Report("f", Critical, HighConfidence, "c", "p", Some(verdict))
  }

  const FOUND := Reported(TruePositive)

  function ReviewRun(base: string, head: string, target: Option<nat>, status: RunStatus): Run {
    Run(ChangeReview, 0, status, base, head, target, "k", if status == Queued then None else Some(0), None)
  }

  // ---------------------------------------------------------------- steps and executions

  /** The step may be taken, and leads from one state to the other. */
  ghost predicate Leads(a: Db, action: Action, b: Db) { Enabled(a, action) && Take(a, Step(action, 9)) == b }

  /** A state that some execution without exploratory missions reaches. */
  ghost predicate Arrives(states: seq<Db>, steps: seq<Step>, db: Db) {
    IsExecution(states, steps) && NoExploration(steps) && states[|steps|] == db
  }

  lemma Depart() returns (states: seq<Db>, steps: seq<Step>)
    ensures Arrives(states, steps, EMPTY) && steps == []
  {
    states, steps := [EMPTY], [];
  }

  lemma ExecutionGoesOn(states: seq<Db>, steps: seq<Step>, action: Action, b: Db)
    requires IsExecution(states, steps) && Leads(states[|steps|], action, b)
    ensures IsExecution(states + [b], steps + [Step(action, 9)])
  {
    hide Enabled, Take;
  }

  /** The longer execution begins like the shorter one. */
  ghost predicate Keeps(longer: seq<Db>, more: seq<Step>, states: seq<Db>, steps: seq<Step>) {
    && |states| <= |longer| && (forall i | 0 <= i < |states| :: longer[i] == states[i])
    && |steps| <= |more| && (forall i | 0 <= i < |steps| :: more[i] == steps[i])
  }

  lemma KeepsOn(
    a: seq<Db>, s: seq<Step>, b: seq<Db>, t: seq<Step>, c: seq<Db>, u: seq<Step>)
    requires Keeps(a, s, b, t) && Keeps(b, t, c, u)
    ensures Keeps(a, s, c, u)
  {}

  lemma KeptAt(longer: seq<Db>, more: seq<Step>, states: seq<Db>, steps: seq<Step>, i: nat)
    requires Keeps(longer, more, states, steps)
    ensures i < |states| ==> i < |longer| && longer[i] == states[i]
    ensures i < |steps| ==> i < |more| && more[i] == steps[i]
  {}

  /** An execution goes on with one more step. */
  lemma Go(states: seq<Db>, steps: seq<Step>, a: Db, action: Action, b: Db)
    returns (longer: seq<Db>, more: seq<Step>)
    requires Arrives(states, steps, a) && Leads(a, action, b) && !action.ExploreAction?
    ensures Arrives(longer, more, b) && more == steps + [Step(action, 9)]
    ensures |longer| == |more| + 1 && |states| == |steps| + 1 && Keeps(longer, more, states, steps)
  {
    hide Leads;
    ExecutionGoesOn(states, steps, action, b);
    hide IsExecution;
    longer, more := states + [b], steps + [Step(action, 9)];
  }

  // ---------------------------------------------------------------- the source review

  function Requested(base: string, head: string, target: Option<nat>): Db {
    EMPTY.(runs := [ReviewRun(base, head, target, Queued)], requests := [PrepareJob(0)])
  }

  function Prepared(base: string, head: string, target: Option<nat>): Db {
    EMPTY.(runs := [ReviewRun(base, head, target, Classifying)], snapshots := {0},
           events := [RunMoved(0, Queued, Classifying)], requests := [PrepareJob(0), ClassifyJob(0)])
  }

  function Reviewing(base: string, head: string, target: Option<nat>): Db {
    Prepared(base, head, target).(
      runs := [ReviewRun(base, head, target, SourceReviewRunning)], classified := {0},
      events := [RunMoved(0, Queued, Classifying), RunMoved(0, Classifying, SourceReviewRunning)],
      requests := [PrepareJob(0), ClassifyJob(0), DeepSecJob(0)])
  }

  lemma Request(base: string, head: string, target: Option<nat>)
    requires IsSha(base) && IsSha(head)
    ensures Leads(EMPTY, CreateReviewAction(false, 0, base, head, target, "k"), Requested(base, head, target))
  {
    hide IsSha;
  }

  lemma Prepares(base: string, head: string, target: Option<nat>)
    ensures Leads(Requested(base, head, target), PrepareAction(0), Prepared(base, head, target))
  {
    hide *;
    var a := Requested(base, head, target);
    PreparedDb(Progress(a, 9, true), base, head, target);
    PrepareLeads(a, 0);
  }

  lemma PrepareLeads(a: Db, r: nat)
    requires PrepareJob(r) in a.requests
    ensures Leads(a, PrepareAction(r), Prepare(Progress(a, 9, true), r).db)
  {
    hide Prepare;
  }

  lemma PreparedDb(p: Progress, base: string, head: string, target: Option<nat>)
    requires p == Progress(Requested(base, head, target), 9, true)
    ensures PrepareJob(0) in p.db.requests && Prepare(p, 0).db == Prepared(base, head, target)
  {
    hide RetestingFinding;
    var p1 := CommitRun(p, 0, Classifying);
    assert p1 == Progress(p.db.(runs := [ReviewRun(base, head, target, Classifying)],
                                events := [RunMoved(0, Queued, Classifying)]), 8, true);
    hide CommitRun;
  }

  lemma Classifies(base: string, head: string, target: Option<nat>)
    ensures Leads(Prepared(base, head, target), ClassifyAction(0), Reviewing(base, head, target))
  {
    hide *;
    var a := Prepared(base, head, target);
    ClassifiedDb(Progress(a, 9, true), base, head, target);
    ClassifyLeads(a, 0);
  }

  lemma ClassifyLeads(a: Db, r: nat)
    requires ClassifyJob(r) in a.requests
    ensures Leads(a, ClassifyAction(r), Classify(Progress(a, 9, true), r).db)
  {
    hide Classify;
  }

  lemma ClassifiedDb(p: Progress, base: string, head: string, target: Option<nat>)
    requires p == Progress(Prepared(base, head, target), 9, true)
    ensures ClassifyJob(0) in p.db.requests && Classify(p, 0).db == Reviewing(base, head, target)
  {}

  /** All events about findings are about finding 0, and the first run caused them or nobody did. */
  ghost predicate AboutOne(events: seq<Event>) {
    forall i | 0 <= i < |events| :: events[i].FindingMoved? ==> events[i].finding == 0
  }

  ghost predicate NotYetFixing(events: seq<Event>) {
    forall i | 0 <= i < |events| :: events[i].FindingMoved? ==> events[i].cause != Some(1)
  }

  /** The one run and the one finding of a review, and where they stand. */
  ghost predicate InReview(db: Db, head: string, target: Option<nat>, run: RunStatus, finding: FindingStatus) {
    && |db.runs| == 1 && db.runs[0].status == run && db.runs[0].target == target && db.runs[0].headSha == head
    && db.runs[0].key == "k" && db.snapshots == {0}
    && |db.findings| == 1 && db.findings[0].status == finding && db.findings[0].repo == 0
    && db.findings[0].fingerprint == "f"
    && AboutOne(db.events) && NotYetFixing(db.events) && Touched(db.events, 0) == {0}
  }

  lemma OneReport(db: Db, r: nat, head: string, verdict: Revalidation)
    ensures UpsertAll(db, 0, r, head, [Reported(verdict)]) ==
            var last := UpsertFinding(db, 0, r, head, Reported(verdict));
            if last.None? then None else Some(Persisted(last.value.db, [last.value.id]))
  {
    var one := [Reported(verdict)];
    assert one[..0] == [];
    assert UpsertAll(db, 0, r, head, []) == Some(Persisted(db, []));
    var last := UpsertFinding(db, 0, r, head, Reported(verdict));
    hide UpsertFinding;
    if last.Some? { assert [] + [last.value.id] == [last.value.id]; }
  }

  lemma TouchedByFirst(events: seq<Event>, i: nat)
    requires AboutOne(events) && i < |events| && events[i].FindingMoved? && events[i].cause == Some(0)
    ensures Touched(events, 0) == {0}
  {}

  /** The review stores the finding, already confirmed from source. */
  lemma Reviews(base: string, head: string, target: Option<nat>) returns (b: Db)
    ensures Leads(Reviewing(base, head, target), DeepSecAction(0, [FOUND], 0.0), b)
    ensures InReview(b, head, target, SourceReviewCompleted, SourceConfirmed)
    ensures RoutingJob(0) in b.requests && b.validations == [] && b.executions == [Execution(0, 0.0)]
    ensures |b.findings| == 1 && b.findings[0].severity == Critical
  {
    var a := Reviewing(base, head, target);
    b := ReviewedDb(base, head, target);
    hide Leads, InReview;
    ReviewTaken(base, head, target);
    ReviewedInReview(base, head, target);
  }

  lemma ReviewTaken(base: string, head: string, target: Option<nat>)
    ensures Leads(Reviewing(base, head, target), DeepSecAction(0, [FOUND], 0.0), ReviewedDb(base, head, target))
  {
    hide *;
    var a := Reviewing(base, head, target);
    ReviewWrites(Progress(a, 9, true), base, head, target);
    DeepSecLeads(a, 0, [FOUND]);
  }

  lemma DeepSecLeads(a: Db, r: nat, reports: seq<Report>)
    requires DeepSecJob(r) in a.requests
    ensures Leads(a, DeepSecAction(r, reports, 0.0), DeepSec(Progress(a, 9, true), r, reports, 0.0).db)
  {
    hide DeepSec;
  }

  lemma ReviewWrites(p: Progress, base: string, head: string, target: Option<nat>)
    requires p == Progress(Reviewing(base, head, target), 9, true)
    ensures DeepSecJob(0) in p.db.requests && DeepSec(p, 0, [FOUND], 0.0).db == ReviewedDb(base, head, target)
  {
    hide UpsertAll;
    var a := p.db;
    FirstReport(a.(executions := a.executions + [Execution(0, 0.0)]), head);
    var p1 := Commit(p, PersistedDb(PersistDeepSec(a, 0, 0, head, [FOUND], 0.0)));
    assert p1.live && p1.db.runs == a.runs && p1.db.requests == a.requests;
    hide PersistDeepSec;
  }

  /** A first report of high confidence is stored as a new finding, already confirmed from source. */
  lemma FirstReport(db: Db, head: string)
    requires db.findings == []
    ensures UpsertAll(db, 0, 0, head, [FOUND]) == Some(Persisted(
              db.(findings := [Finding(0, "f", Critical, HighConfidence, "c", SourceConfirmed, head, head)],
                  locations := db.locations + [Location(0, "p", head)],
                  events := db.events + [FindingMoved(0, Some(0), None, Suspected)]
                            + [FindingMoved(0, Some(0), Some(Suspected), SourceConfirmed)]),
              [0]))
  {
    OneReport(db, 0, head, TruePositive);
    hide UpsertAll;
    var u := UpsertFinding(db, 0, 0, head, FOUND).value;
    assert u.db.findings == [Finding(0, "f", Critical, HighConfidence, "c", SourceConfirmed, head, head)];
  }

  lemma ReviewedInReview(base: string, head: string, target: Option<nat>)
    ensures InReview(ReviewedDb(base, head, target), head, target, SourceReviewCompleted, SourceConfirmed)
    ensures RoutingJob(0) in ReviewedDb(base, head, target).requests
  {
    var b := ReviewedDb(base, head, target);
    assert b.requests[3] == RoutingJob(0);
    TouchedByFirst(b.events, 2);
    hide Touched;
  }

  /** What the review leaves. */
  function ReviewedDb(base: string, head: string, target: Option<nat>): Db {
    var a := Reviewing(base, head, target);
    a.(runs := [ReviewRun(base, head, target, SourceReviewCompleted)],
       executions := [Execution(0, 0.0)],
       findings := [Finding(0, "f", Critical, HighConfidence, "c", SourceConfirmed, head, head)],
       locations := [Location(0, "p", head)],
       events := a.events + [FindingMoved(0, Some(0), None, Suspected),
                             FindingMoved(0, Some(0), Some(Suspected), SourceConfirmed),
                             RunMoved(0, SourceReviewRunning, SourceReviewCompleted)],
       requests := a.requests + [RoutingJob(0)])
  }

  lemma UntilReviewed(base: string, head: string, target: Option<nat>)
    returns (states: seq<Db>, steps: seq<Step>, db: Db)
    requires IsSha(base) && IsSha(head)
    ensures Arrives(states, steps, db) && |steps| == 4 && |states| == 5
    ensures steps[3] == Step(DeepSecAction(0, [FOUND], 0.0), 9) && states[3] == Reviewing(base, head, target)
    ensures InReview(db, head, target, SourceReviewCompleted, SourceConfirmed)
    ensures RoutingJob(0) in db.requests && db.validations == [] && db.executions == [Execution(0, 0.0)]
    ensures |db.findings| == 1 && db.findings[0].severity == Critical
  {
    hide *;
    db := Reviews(base, head, target);
    var first, firstSteps := UntilReviewing(base, head, target);
    states, steps := Go(first, firstSteps, Reviewing(base, head, target), DeepSecAction(0, [FOUND], 0.0), db);
    KeptAt(states, steps, first, firstSteps, 3);
  }

  lemma UntilReviewing(base: string, head: string, target: Option<nat>) returns (states: seq<Db>, steps: seq<Step>)
    requires IsSha(base) && IsSha(head)
    ensures Arrives(states, steps, Reviewing(base, head, target)) && |steps| == 3
    ensures |states| == 4 && states[3] == Reviewing(base, head, target)
  {
    hide *;
    states, steps := Depart();
    Request(base, head, target);
    Prepares(base, head, target);
    Classifies(base, head, target);
    states, steps := Go(states, steps, EMPTY, CreateReviewAction(false, 0, base, head, target, "k"),
                        Requested(base, head, target));
    states, steps := Go(states, steps, Requested(base, head, target), PrepareAction(0), Prepared(base, head, target));
    states, steps := Go(states, steps, Prepared(base, head, target), ClassifyAction(0), Reviewing(base, head, target));
    ArrivesThere(states, steps, Reviewing(base, head, target));
  }

  // ---------------------------------------------------------------- a run that awaits a fix

  lemma OneCandidate(db: Db, head: string, target: Option<nat>, run: RunStatus)
    requires InReview(db, head, target, run, SourceConfirmed)
    ensures LoadsCandidates(db, 0, [0])
  {
    hide Touched;
    assert forall f: nat :: f in [0] <==> f == 0;
  }

  /** Without a target nothing is escalated. */
  lemma NothingEscalated(p: Progress, r: nat, budget: real)
    requires |p.db.findings| == 1 && r < |p.db.runs|
    ensures RouteAll(p, r, [0], false, budget)
         == Commit(p, Some(p.db.(decisions := p.db.decisions + [Decision(r, 0, false)])))
  {
    assert [0][..0] == [];
    assert RouteAll(p, r, [], false, budget) == p;
    assert RouteOne(p, r, 0, false, budget)
        == Commit(p, Some(p.db.(decisions := p.db.decisions + [Decision(r, 0, false)])));
  }

  lemma AllStandSource(db: Db, head: string, run: RunStatus)
    requires InReview(db, head, None, run, SourceConfirmed)
    ensures !AnyWith(db, Touched(db.events, 0), {ValidationQueued})
    ensures Disposition(db, Touched(db.events, 0)) == AwaitingFix
  {
    hide Touched;
    assert 0 in Touched(db.events, 0);
  }

  const UNESCALATED := RouteAction(0, [0], false, 0.0)

  /** The routing job records that the finding is not escalated, and finalizes the run. */
  lemma Unescalated(a: Db, head: string, run: RunStatus) returns (q: Progress)
    requires InReview(a, head, None, run, SourceConfirmed) && RoutingJob(0) in a.requests
    ensures Enabled(a, UNESCALATED) && Perform(Progress(a, 9, true), UNESCALATED) == FinalizeRun(q, 0)
    ensures q == Progress(a.(decisions := a.decisions + [Decision(0, 0, false)]), 8, true)
    ensures InReview(q.db, head, None, run, SourceConfirmed)
    ensures Disposition(q.db, Touched(q.db.events, 0)) == AwaitingFix
  {
    hide LoadsCandidates, RouteAll, Spent, AnyWith, Disposition, Touched, FinalizeRun;
    OneCandidate(a, head, None, run);
    var p := Progress(a, 9, true);
    NothingEscalated(p, 0, 0.0 - Spent(a.executions, 0));
    q := Progress(a.(decisions := a.decisions + [Decision(0, 0, false)]), 8, true);
    AllStandSource(q.db, head, run);
  }

  /** Routing leaves the finding to be fixed. */
  lemma RoutesToFix(a: Db, head: string) returns (b: Db)
    requires InReview(a, head, None, SourceReviewCompleted, SourceConfirmed) && RoutingJob(0) in a.requests
    ensures Leads(a, UNESCALATED, b)
    ensures InReview(b, head, None, AwaitingFix, SourceConfirmed) && RoutingJob(0) in b.requests
  {
    hide *;
    var q := Unescalated(a, head, SourceReviewCompleted);
    LeadsTo(a, UNESCALATED);
    b := Take(a, Step(UNESCALATED, 9));
    TakePerforms(a, Step(UNESCALATED, 9));
    assert RoutingJob(0) in q.db.requests;
    FixAwaited(q, head);
  }

  lemma FixAwaited(q: Progress, head: string)
    requires q.live && q.left == 8 && InReview(q.db, head, None, SourceReviewCompleted, SourceConfirmed)
    requires Disposition(q.db, Touched(q.db.events, 0)) == AwaitingFix && RoutingJob(0) in q.db.requests
    ensures var b := FinalizeRun(q, 0).db;
            InReview(b, head, None, AwaitingFix, SourceConfirmed) && RoutingJob(0) in b.requests
  {
    TouchedExtends(q.db.events, RunMoved(0, SourceReviewCompleted, AwaitingFix), 0);
    hide Touched, Disposition;
    assert q.db.requests <= FinalizeRun(q, 0).db.requests;
  }

  /** The same job again: it records its decision once more, and then `finalizeRun` throws. */
  lemma RoutingThrows(a: Db, head: string)
    requires InReview(a, head, None, AwaitingFix, SourceConfirmed) && RoutingJob(0) in a.requests
    ensures Enabled(a, UNESCALATED)
    ensures var q := Perform(Progress(a, 9, true), UNESCALATED);
            && !q.live && q.left == 8 && q.db == a.(decisions := a.decisions + [Decision(0, 0, false)])
    ensures !FinalizeRun(Progress(a, 9, true), 0).live
  {
    hide *;
    Standing(a, head, None, AwaitingFix, SourceConfirmed);
    var q := Unescalated(a, head, AwaitingFix);
    Standing(q.db, head, None, AwaitingFix, SourceConfirmed);
    AwaitingFixThrows(q, 0);
    AwaitingFixThrows(Progress(a, 9, true), 0);
    ThrowIs(q);
    ThrowIs(Progress(a, 9, true));
  }

  lemma ThrowIs(p: Progress)
    ensures Throw(p) == p.(live := false)
  {}

  /**
   An execution that reaches `awaiting_fix` and then runs its routing job a second time: the job is not
   cut short, and throws in `finalizeRun`.
   */
  lemma FinalizingCanThrow(base: string, head: string) returns (states: seq<Db>, steps: seq<Step>)
    requires IsSha(base) && IsSha(head)
    ensures IsExecution(states, steps) && |steps| == 6 && steps[5].action == steps[4].action == UNESCALATED
    ensures |states[5].runs| == 1 && states[5].runs[0].status == AwaitingFix
    ensures var q := Perform(Progress(states[5], steps[5].stop, true), steps[5].action); !q.live && q.left > 0
    ensures !FinalizeRun(Progress(states[5], steps[5].stop, true), 0).live
  {
    hide *;
    JobsAreJobs();
    var db;
    states, steps, db := UntilReviewed(base, head, None);
    var waiting := RoutesToFix(db, head);
    states, steps := Go(states, steps, db, UNESCALATED, waiting);
    Standing(waiting, head, None, AwaitingFix, SourceConfirmed);
    RoutingThrows(waiting, head);
    var again := Take(waiting, Step(UNESCALATED, 9));
    LeadsTo(waiting, UNESCALATED);
    ArrivesThere(states, steps, waiting);
    var first, firstSteps := states, steps;
    states, steps := Go(first, firstSteps, waiting, UNESCALATED, again);
    KeptAt(states, steps, first, firstSteps, 5);
    KeptAt(states, steps, first, firstSteps, 4);
    ArrivesThere(states, steps, again);
  }

  lemma LeadsTo(a: Db, action: Action)
    requires Enabled(a, action)
    ensures Leads(a, action, Take(a, Step(action, 9)))
  {
    hide Enabled, Take;
  }

  lemma ArrivesThere(states: seq<Db>, steps: seq<Step>, db: Db)
    requires Arrives(states, steps, db)
    ensures IsExecution(states, steps) && NoExploration(steps) && |states| == |steps| + 1 && states[|steps|] == db
  {
    hide Take, Enabled;
  }

  lemma Standing(db: Db, head: string, target: Option<nat>, run: RunStatus, finding: FindingStatus)
    requires InReview(db, head, target, run, finding)
    ensures |db.runs| == 1 && db.runs[0].status == run && |db.findings| == 1 && db.findings[0].status == finding
  {}

  // ---------------------------------------------------------------- a fix and its verification

  /** Submitting works from source_confirmed and from confirmed. */
  lemma Submits(a: Db, head: string, target: Option<nat>, run: RunStatus, finding: FindingStatus, fix: string)
    returns (b: Db)
    requires InReview(a, head, target, run, finding) && finding in [SourceConfirmed, Confirmed]
    ensures Leads(a, SubmitFixAction(0, fix), b) && InReview(b, head, target, run, FixSubmitted)
    ensures b.validations == a.validations
    ensures b.remediations == a.remediations[
              0 := Remediation(fix, Pending, if EverConfirmed(a, 0) then Pending else NotApplicable, None)]
  {
    hide EverConfirmed, SubmitFix, Take, Touched;
    SubmitWrites(a, finding, fix);
    b := SubmitFix(a, 0, fix).value;
    TakePerforms(a, Step(SubmitFixAction(0, fix), 9));
    TouchedExtends(a.events, FindingMoved(0, None, Some(finding), FixPending), 0);
    TouchedExtends(a.events + [FindingMoved(0, None, Some(finding), FixPending)],
                   FindingMoved(0, None, Some(FixPending), FixSubmitted), 0);
  }

  lemma SubmitWrites(a: Db, finding: FindingStatus, fix: string)
    requires |a.findings| == 1 && a.findings[0].status == finding && finding in [SourceConfirmed, Confirmed]
    ensures SubmitFix(a, 0, fix) == Some(a.(
              findings := [a.findings[0].(status := FixSubmitted)],
              events := a.events + [FindingMoved(0, None, Some(finding), FixPending)]
                        + [FindingMoved(0, None, Some(FixPending), FixSubmitted)],
              remediations := a.remediations[
                0 := Remediation(fix, Pending, if EverConfirmed(a, 0) then Pending else NotApplicable, None)]))
  {
    hide ConfirmedIn;
    assert SubmitFix(a, 0, fix).value.findings == [a.findings[0].(status := FixSubmitted)];
  }

  /** The fix run, with the finding at retesting and nothing else touched. */
  ghost predicate InFix(db: Db, fix: string, target: Option<nat>, run: RunStatus) {
    && |db.runs| == 2 && db.runs[1].runType == FixVerification && db.runs[1].repo == 0 && db.runs[1].status == run
    && db.runs[1].target == target && db.runs[1].headSha == fix
    && |db.findings| == 1 && db.findings[0].status == Retesting && db.findings[0].repo == 0
    && db.findings[0].fingerprint == "f"
    && Touched(db.events, 1) == {0} && 0 in db.remediations && db.remediations[0].fixCommit == fix
  }

  lemma {:induction false} NotRetesting(events: seq<Event>, r: nat)
    requires forall i | 0 <= i < |events| :: events[i].FindingMoved? ==> events[i].cause != Some(r)
    ensures RetestingFinding(events, r) == None && Touched(events, r) == {}
  {
    if events != [] { NotRetesting(events[..|events| - 1], r); }
  }

  lemma RetestingNext(events: seq<Event>, r: nat, e: Event)
    ensures RetestingFinding(events + [e], r)
         == if RetestingFinding(events, r).None? && e.FindingMoved? && e.cause == Some(r) && e.after == Retesting
            then Some(e.finding) else RetestingFinding(events, r)
  {
    assert (events + [e])[..|events|] == events;
  }

  lemma Verifies(a: Db, head: string, target: Option<nat>, run: RunStatus, fix: string) returns (b: Db)
    requires InReview(a, head, target, run, FixSubmitted)
    requires 0 in a.remediations && a.remediations[0].fixCommit == fix
    ensures Leads(a, VerifyFixAction(0, target, "v"), b) && InFix(b, fix, target, Queued)
    ensures b.remediations == a.remediations && b.validations == a.validations && b.snapshots == {0}
    ensures PrepareJob(1) in b.requests && RetestingFinding(b.events, 1) == Some(0)
  {
    hide Touched, RetestingFinding, StartFixVerification, Leads;
    var e := FindingMoved(0, Some(1), Some(FixSubmitted), Retesting);
    NotRetesting(a.events, 1);
    TouchedExtends(a.events, e, 1);
    RetestingNext(a.events, 1, e);
    StartWrites(a, target, e);
    b := VerifyLeads(a, target);
    assert b.requests[|b.requests| - 1] == PrepareJob(1);
  }

  lemma VerifyLeads(a: Db, target: Option<nat>) returns (b: Db)
    requires StartFixVerification(a, 0, target, "v").Some?
    ensures Leads(a, VerifyFixAction(0, target, "v"), b)
    ensures var started := StartFixVerification(a, 0, target, "v").value;
            b == started.(requests := started.requests + [PrepareJob(|a.runs|)])
  {
    hide StartFixVerification;
    b := Take(a, Step(VerifyFixAction(0, target, "v"), 9));
  }

  lemma StartWrites(a: Db, target: Option<nat>, e: Event)
    requires |a.runs| == 1 && a.runs[0].key == "k" && |a.findings| == 1 && a.findings[0].status == FixSubmitted
    requires 0 in a.remediations && e == FindingMoved(0, Some(1), Some(FixSubmitted), Retesting)
    ensures StartFixVerification(a, 0, target, "v") == Some(a.(
              findings := [a.findings[0].(status := Retesting)], events := a.events + [e],
              runs := a.runs + [Run(FixVerification, a.findings[0].repo, Queued, a.findings[0].lastSeen,
                                    a.remediations[0].fixCommit, target, "v", None, None)]))
  {
    assert !KeyTaken(a, "v") by { assert "k" != "v"; }
    hide KeyTaken;
    assert StartFixVerification(a, 0, target, "v").value.findings == [a.findings[0].(status := Retesting)];
  }

  lemma PreparesFix(a: Db, fix: string, target: Option<nat>) returns (b: Db)
    requires InFix(a, fix, target, Queued) && PrepareJob(1) in a.requests && RetestingFinding(a.events, 1) == Some(0)
    ensures Leads(a, PrepareAction(1), b) && InFix(b, fix, target, Classifying)
    ensures b.remediations == a.remediations && b.validations == a.validations && 1 in b.snapshots
    ensures RevalidationJob(1, 0) in b.requests
  {
    hide *;
    FixPrepared(Progress(a, 9, true), fix, target);
    PrepareLeads(a, 1);
    b := Prepare(Progress(a, 9, true), 1).db;
    assert b.requests[|b.requests| - 1] == RevalidationJob(1, 0);
  }

  lemma FixPrepared(p: Progress, fix: string, target: Option<nat>)
    requires p.live && p.left == 9 && InFix(p.db, fix, target, Queued) && RetestingFinding(p.db.events, 1) == Some(0)
    ensures var a, b := p.db, Prepare(p, 1).db;
            && InFix(b, fix, target, Classifying) && b.remediations == a.remediations && b.validations == a.validations
            && 1 in b.snapshots && b.requests == a.requests + [RevalidationJob(1, 0)]
  {
    var e := RunMoved(1, Queued, Classifying);
    RetestingNext(p.db.events, 1, e);
    TouchedExtends(p.db.events, e, 1);
    hide Touched, RetestingFinding;
    assert Prepare(p, 1).db.events == p.db.events + [e];
  }

  /** A submitted fix, up to the review of its commit. */
  lemma UntilPrepared(
    states0: seq<Db>, steps0: seq<Step>, a: Db, head: string, target: Option<nat>, run: RunStatus,
    finding: FindingStatus, fix: string) returns (states: seq<Db>, steps: seq<Step>, db: Db)
    requires Arrives(states0, steps0, a)
    requires InReview(a, head, target, run, finding) && finding in [SourceConfirmed, Confirmed]
    ensures Arrives(states, steps, db) && |steps| == |steps0| + 3 && Keeps(states, steps, states0, steps0)
    ensures InFix(db, fix, target, Classifying) && 1 in db.snapshots && RevalidationJob(1, 0) in db.requests
    ensures db.validations == a.validations
    ensures db.remediations[0]
         == Remediation(fix, Pending, if EverConfirmed(a, 0) then Pending else NotApplicable, None)
    ensures 0 in db.remediations
  {
    hide *;
    var submitted := Submits(a, head, target, run, finding, fix);
    var verifying := Verifies(submitted, head, target, run, fix);
    db := PreparesFix(verifying, fix, target);
    var states1, steps1 := Go(states0, steps0, a, SubmitFixAction(0, fix), submitted);
    var states2, steps2 := Go(states1, steps1, submitted, VerifyFixAction(0, target, "v"), verifying);
    states, steps := Go(states2, steps2, verifying, PrepareAction(1), db);
    KeepsOn(states2, steps2, states1, steps1, states0, steps0);
    KeepsOn(states, steps, states2, steps2, states0, steps0);
  }

  /** The review of the fix commit reports the finding again and moves nothing. */
  lemma FixReviewed(a: Db, fix: string, target: Option<nat>, verdict: Revalidation)
    requires InFix(a, fix, target, Classifying)
    ensures var q := ReviewFix(Progress(a, 9, true), 1, [Reported(verdict)], 0.0);
            && q.live && q.left == 6 && InFix(q.db, fix, target, SourceReviewCompleted)
            && q.db.remediations == a.remediations && q.db.validations == a.validations
  {
    hide UpsertAll, Touched, FindByPrint, ReviewFix;
    var started := Started(a, 1, 0.0);
    TouchedExtends(a.events, RunMoved(1, Classifying, SourceReviewRunning), 1);
    TouchedExtends(started.events, RunMoved(1, SourceReviewRunning, SourceReviewCompleted), 1);
    OneReport(started, 1, fix, verdict);
    SeenAgain(started.findings, verdict);
    var saved := UpsertAll(started, 0, 1, fix, [Reported(verdict)]).value.db;
    assert saved.runs == started.runs && saved.events == started.events;
    ReviewFixWrites(Progress(a, 9, true), 1, [Reported(verdict)], 0.0, saved);
  }

  lemma SeenAgain(findings: seq<Finding>, verdict: Revalidation)
    requires |findings| == 1 && findings[0].repo == 0 && findings[0].fingerprint == "f"
    ensures FindByPrint(findings, 0, Reported(verdict).fingerprint) == Some(0)
  {}

  lemma RevalidationTaken(a: Db, q: Progress, fix: string, target: Option<nat>, verdict: Revalidation)
    requires InFix(a, fix, target, Classifying) && 1 in a.snapshots && RevalidationJob(1, 0) in a.requests
    requires q == ReviewFix(Progress(a, 9, true), 1, [Reported(verdict)], 0.0)
    ensures var passed := if verdict == Unknown then None else Some(verdict == FalsePositive);
            Leads(a, RevalidateAction(1, 0, [Reported(verdict)], 0.0),
                  ConcludeReview(q, 1, 0, Some(a.remediations[0]), passed).db)
  {
    hide ReviewFix, ConcludeReview, Touched;
    assert SourceVerdict([Reported(verdict)]) == if verdict == Unknown then None else Some(verdict == FalsePositive);
    hide SourceVerdict;
  }

  lemma NothingElse(db: Db, fix: string, target: Option<nat>, run: RunStatus, to: FindingStatus)
    requires InFix(db, fix, target, run)
    ensures EndOfRun(db, 1, 0, to) == if to == StillExploitable then Blocked else Completed
  {
    hide Touched;
    assert Touched(db.events, 1) - {0} == {};
  }

  /** A source-only fix, judged by the review alone. */
  lemma Concludes(a: Db, fix: string, target: Option<nat>, verdict: Revalidation) returns (b: Db)
    requires InFix(a, fix, target, Classifying) && 1 in a.snapshots && RevalidationJob(1, 0) in a.requests
    requires a.remediations[0].runtime == NotApplicable
    ensures Leads(a, RevalidateAction(1, 0, [Reported(verdict)], 0.0), b)
    ensures var to := AfterReview(if verdict == Unknown then None else Some(verdict == FalsePositive));
            && |b.runs| >= 2 && |b.findings| >= 1 && b.findings[0].status == to
            && b.runs[1].status == if to == StillExploitable then Blocked else Completed
  {
    hide ReviewFix, ConcludeReview, EndOfRun, AfterReview, Leads, Touched;
    FixReviewed(a, fix, target, verdict);
    var q := ReviewFix(Progress(a, 9, true), 1, [Reported(verdict)], 0.0);
    var passed := if verdict == Unknown then None else Some(verdict == FalsePositive);
    RevalidationTaken(a, q, fix, target, verdict);
    b := ConcludeReview(q, 1, 0, Some(a.remediations[0]), passed).db;
    SourceReviewConcludes(q, 1, 0, a.remediations[0], passed);
    NothingElse(q.db, fix, target, SourceReviewCompleted, AfterReview(passed));
  }

  /** A source-only fix from the request to its verdict. */
  lemma SourceOnlyFix(base: string, head: string, fix: string, verdict: Revalidation)
    returns (states: seq<Db>, steps: seq<Step>)
    requires IsSha(base) && IsSha(head)
    ensures IsExecution(states, steps) && NoExploration(steps) && |steps| == 8 && |states| == 9
    ensures |states[7].findings| == 1 && states[7].findings[0].status == Retesting
    ensures var to := AfterReview(if verdict == Unknown then None else Some(verdict == FalsePositive));
            var b := states[8];
            && |b.runs| >= 2 && |b.findings| >= 1 && b.findings[0].status == to
            && b.runs[1].status == if to == StillExploitable then Blocked else Completed
  {
    hide *;
    var reviewed, prepared;
    states, steps, reviewed := UntilReviewed(base, head, None);
    NeverConfirmed(reviewed);
    states, steps, prepared :=
      UntilPrepared(states, steps, reviewed, head, None, SourceReviewCompleted, SourceConfirmed, fix);
    var b := Concludes(prepared, fix, None, verdict);
    ArrivesThere(states, steps, prepared);
    OneInFix(prepared, fix, None, Classifying);
    var first, firstSteps := states, steps;
    states, steps := Go(first, firstSteps, prepared, RevalidateAction(1, 0, [Reported(verdict)], 0.0), b);
    KeptAt(states, steps, first, firstSteps, 7);
    ArrivesThere(states, steps, b);
  }

  lemma NeverConfirmed(db: Db)
    requires db.validations == []
    ensures !EverConfirmed(db, 0)
  {}

  lemma OneInFix(db: Db, fix: string, target: Option<nat>, run: RunStatus)
    requires InFix(db, fix, target, run)
    ensures |db.findings| == 1 && db.findings[0].status == Retesting
  {}

  /** For any commits there is an execution that takes a finding from its discovery to verified_fixed. */
  lemma AFixCanBeVerified(base: string, head: string, fix: string) returns (states: seq<Db>, steps: seq<Step>)
    requires IsSha(base) && IsSha(head)
    ensures IsExecution(states, steps) && NoExploration(steps) && |steps| == 8
    ensures BecameFixed(states[7], states[8], 0)
  {
    hide IsExecution, NoExploration;
    states, steps := SourceOnlyFix(base, head, fix, FalsePositive);
  }

  /** And one whose last run is completed although its verification failed and left the finding at retesting. */
  lemma AFixCanBeStuck(base: string, head: string, fix: string) returns (states: seq<Db>, steps: seq<Step>)
    requires IsSha(base) && IsSha(head)
    ensures IsExecution(states, steps) && NoExploration(steps) && |steps| == 8
    ensures var b := states[8];
            |b.runs| >= 2 && |b.findings| >= 1 && b.runs[1].status == Completed && b.findings[0].status == Retesting
  {
    hide IsExecution, NoExploration;
    states, steps := SourceOnlyFix(base, head, fix, Unknown);
  }

  // ---------------------------------------------------------------- a confirmed exploit, and the replay that passes

  const ESCALATED := RouteAction(0, [0], true, 10.0)

  lemma IsWorthTesting(db: Db, head: string, run: RunStatus)
    requires InReview(db, head, Some(0), run, SourceConfirmed) && db.findings[0].severity == Critical
    requires db.validations == [] && db.executions == [Execution(0, 0.0)]
    ensures Spent(db.executions, 0) == 0.0 && EscalatesNow(db, 0, 0, true, 10.0)
    ensures IsEscalated(db, 0, 0, true, 10.0)
  {
    hide Touched;
    assert Spent(db.executions[..0], 0) == 0.0;
  }

  lemma LoopOfOne(p: Progress, r: nat, authorized: bool, budget: real)
    ensures RouteAll(p, r, [0], authorized, budget) == RouteOne(p, r, 0, authorized, budget)
  {
    hide RouteOne;
    assert [0][..0] == [];
    assert RouteAll(p, r, [], authorized, budget) == p;
  }

  const QUEUED := FindingMoved(0, Some(0), Some(SourceConfirmed), ValidationQueued)

  lemma QueuesOne(a: Db, head: string)
    requires InReview(a, head, Some(0), SourceReviewCompleted, SourceConfirmed) && EscalatesNow(a, 0, 0, true, 10.0)
    ensures var q := RouteOne(Progress(a, 9, true), 0, 0, true, 10.0);
            && q.live && q.left == 7 && q.db.runs == a.runs && q.db.events == a.events + [QUEUED]
            && q.db.snapshots == a.snapshots && q.db.validations == a.validations
            && q.db.findings == [a.findings[0].(status := ValidationQueued)]
            && q.db.requests == a.requests + [StrixJob(0, 0)]
  {
    hide EscalatesNow, Touched;
  }

  lemma StillQueuedOne(a: Db, db: Db, head: string, run: RunStatus, finding: FindingStatus)
    requires InReview(a, head, Some(0), run, finding)
    requires |db.findings| == 1 && db.findings[0].status == ValidationQueued
    ensures AnyWith(db, Touched(a.events, 0), {ValidationQueued})
  {
    hide Touched;
    assert 0 in Touched(a.events, 0);
  }

  lemma StartsValidation(a: Db, q: Progress, head: string)
    requires InReview(a, head, Some(0), SourceReviewCompleted, SourceConfirmed)
    requires q.live && q.left == 7 && q.db.runs == a.runs && q.db.events == a.events + [QUEUED]
    requires q.db.snapshots == a.snapshots && q.db.findings == [a.findings[0].(status := ValidationQueued)]
    ensures var b := CommitRun(q, 0, ValidationRunning).db;
            && InReview(b, head, Some(0), ValidationRunning, ValidationQueued)
            && b.requests == q.db.requests && b.validations == q.db.validations
  {
    TouchedExtends(a.events, QUEUED, 0);
    TouchedExtends(a.events + [QUEUED], RunMoved(0, SourceReviewCompleted, ValidationRunning), 0);
    hide Touched;
  }

  lemma EscalationTaken(a: Db, q: Progress, head: string)
    requires InReview(a, head, Some(0), SourceReviewCompleted, SourceConfirmed) && RoutingJob(0) in a.requests
    requires LoadsCandidates(a, 0, [0]) && Spent(a.executions, 0) == 0.0
    requires RouteAll(Progress(a, 9, true), 0, [0], true, 10.0) == q
    requires AnyWith(q.db, Touched(a.events, 0), {ValidationQueued})
    ensures Leads(a, ESCALATED, CommitRun(q, 0, ValidationRunning).db)
  {
    hide LoadsCandidates, Spent, RouteAll, AnyWith, Touched, CommitRun;
  }

  /** Routing escalates the critical finding: it is queued, and its job enqueued. */
  lemma Escalates(a: Db, head: string) returns (b: Db)
    requires InReview(a, head, Some(0), SourceReviewCompleted, SourceConfirmed) && RoutingJob(0) in a.requests
    requires a.findings[0].severity == Critical && a.validations == [] && a.executions == [Execution(0, 0.0)]
    ensures Leads(a, ESCALATED, b) && InReview(b, head, Some(0), ValidationRunning, ValidationQueued)
    ensures StrixJob(0, 0) in b.requests && b.validations == []
  {
    Standing(a, head, Some(0), SourceReviewCompleted, SourceConfirmed);
    hide *;
    OneCandidate(a, head, Some(0), SourceReviewCompleted);
    IsWorthTesting(a, head, SourceReviewCompleted);
    var p := Progress(a, 9, true);
    var q := RouteOne(p, 0, 0, true, 10.0);
    QueuesOne(a, head);
    LoopOfOne(p, 0, true, 10.0);
    StillQueuedOne(a, q.db, head, SourceReviewCompleted, SourceConfirmed);
    EscalationTaken(a, q, head);
    StartsValidation(a, q, head);
    b := CommitRun(q, 0, ValidationRunning).db;
  }

  lemma HeadMatches(sha: string)
    requires sha != ""
    ensures CommitMatchesBuild(sha, sha)
  {}

  const EXPLOITED := StrixAction(0, 0, Exploited, 0.0)

  lemma StoresExploit(a: Db, head: string)
    requires InReview(a, head, Some(0), ValidationRunning, ValidationQueued) && CommitMatchesBuild(head, head)
    ensures var q := Commit(Progress(a, 9, true), CorrelateKnown(a, 0, 0, head, head, true, Exploited, 0.0));
            && q.live && q.left == 8 && InReview(q.db, head, Some(0), ValidationRunning, Confirmed)
            && q.db.validations == a.validations + [Validation(0, Exploited, head)]
  {
    hide CommitMatchesBuild;
    var e := FindingMoved(0, Some(0), Some(ValidationQueued), Confirmed);
    TouchedExtends(a.events, e, 0);
    var q := Commit(Progress(a, 9, true), CorrelateKnown(a, 0, 0, head, head, true, Exploited, 0.0));
    assert q.db.events == a.events + [e];
    hide Touched;
  }

  lemma ExploitBlocks(db: Db, head: string)
    requires InReview(db, head, Some(0), ValidationRunning, Confirmed)
    ensures !AnyWith(db, Touched(db.events, 0), {ValidationQueued})
    ensures Disposition(db, Touched(db.events, 0)) == Blocked
  {
    hide Touched;
    assert 0 in Touched(db.events, 0);
  }

  lemma ExploitTaken(a: Db, q: Progress, head: string)
    requires InReview(a, head, Some(0), ValidationRunning, ValidationQueued) && StrixJob(0, 0) in a.requests
    requires q == Commit(Progress(a, 9, true), CorrelateKnown(a, 0, 0, head, head, true, Exploited, 0.0)) && q.live
    requires !AnyWith(q.db, Touched(q.db.events, 0), {ValidationQueued})
    ensures Leads(a, EXPLOITED, FinalizeRun(q, 0).db)
  {
    hide AnyWith, Touched, CorrelateKnown, Commit, FinalizeRun;
  }

  /** The exploit is confirmed, and as nobody else is queued the run is blocked. */
  lemma Confirms(a: Db, head: string) returns (b: Db)
    requires InReview(a, head, Some(0), ValidationRunning, ValidationQueued)
    requires StrixJob(0, 0) in a.requests && head != ""
    ensures Leads(a, EXPLOITED, b) && InReview(b, head, Some(0), Blocked, Confirmed) && EverConfirmed(b, 0)
  {
    hide *;
    HeadMatches(head);
    StoresExploit(a, head);
    var q := Commit(Progress(a, 9, true), CorrelateKnown(a, 0, 0, head, head, true, Exploited, 0.0));
    ExploitBlocks(q.db, head);
    ExploitTaken(a, q, head);
    BlockedEnd(q, head);
    b := FinalizeRun(q, 0).db;
    LastIsEvidence(b, a.validations, head);
  }

  lemma LastIsEvidence(db: Db, before: seq<Validation>, build: string)
    requires db.validations == before + [Validation(0, Exploited, build)]
    ensures EverConfirmed(db, 0)
  {
    assert db.validations[|before|] == Validation(0, Exploited, build);
  }

  lemma BlockedEnd(q: Progress, head: string)
    requires q.live && q.left == 8 && InReview(q.db, head, Some(0), ValidationRunning, Confirmed)
    requires Disposition(q.db, Touched(q.db.events, 0)) == Blocked
    ensures var b := FinalizeRun(q, 0).db;
            && InReview(b, head, Some(0), Blocked, Confirmed) && b.validations == q.db.validations
  {
    TouchedExtends(q.db.events, RunMoved(0, ValidationRunning, Blocked), 0);
    hide Touched, Disposition;
  }

  lemma ReplayQueued(q: Progress, fix: string, row: Remediation)
    requires q.live && q.left == 6 && InFix(q.db, fix, Some(0), SourceReviewCompleted) && row.runtime == Pending
    ensures var b := ConcludeReview(q, 1, 0, Some(row), Some(true)).db;
            && InFix(b, fix, Some(0), ValidationRunning) && RetestJob(1, 0) in b.requests
            && b.remediations[0].source == Passed && b.validations == q.db.validations
  {
    TouchedExtends(q.db.events, RunMoved(1, SourceReviewCompleted, ValidationRunning), 1);
    hide Touched;
    var b := ConcludeReview(q, 1, 0, Some(row), Some(true)).db;
    assert b.requests[|b.requests| - 1] == RetestJob(1, 0);
  }

  /** The review of a fix that needs a replay stores its result and queues the replay. */
  lemma QueuesReplay(a: Db, fix: string) returns (b: Db)
    requires InFix(a, fix, Some(0), Classifying) && 1 in a.snapshots && RevalidationJob(1, 0) in a.requests
    requires 0 in a.remediations && a.remediations[0] == Remediation(fix, Pending, Pending, None)
    ensures Leads(a, RevalidateAction(1, 0, [Reported(FalsePositive)], 0.0), b)
    ensures InFix(b, fix, Some(0), ValidationRunning) && RetestJob(1, 0) in b.requests
    ensures 0 in b.remediations && b.remediations[0].source == Passed && b.validations == a.validations
  {
    FixUnderWay(a, fix, Some(0), Classifying);
    hide *;
    FixReviewed(a, fix, Some(0), FalsePositive);
    var q := ReviewFix(Progress(a, 9, true), 1, [Reported(FalsePositive)], 0.0);
    RevalidationTaken(a, q, fix, Some(0), FalsePositive);
    ReplayQueued(q, fix, a.remediations[0]);
    b := ConcludeReview(q, 1, 0, Some(a.remediations[0]), Some(true)).db;
    FixUnderWay(b, fix, Some(0), ValidationRunning);
  }

  lemma FixUnderWay(db: Db, fix: string, target: Option<nat>, run: RunStatus)
    requires InFix(db, fix, target, run)
    ensures |db.runs| == 2 && db.runs[1].status == run && db.runs[1].target == target && db.runs[1].headSha == fix
    ensures |db.findings| == 1 && db.findings[0].status == Retesting
    ensures 0 in db.remediations && db.remediations[0].fixCommit == fix
  {}

  const REPLAYED := RetestAction(1, 0, NotExploited, 0.0)
  const REPRODUCED := RetestAction(1, 0, Exploited, 0.0)

  lemma ReplayTaken(a: Db, verdict: Verdict)
    requires RetestJob(1, 0) in a.requests
    ensures Leads(a, RetestAction(1, 0, verdict, 0.0), Retest(Progress(a, 9, true), 1, 0, verdict, 0.0).db)
  {
    hide Retest;
  }

  /** After a passed source check on the fix commit a replay decides only if it does not reproduce. */
  lemma AfterPassedReview(buildMatches: bool)
    requires buildMatches
    ensures AfterReplay(Passed, buildMatches, NotExploited) == VerifiedFixed
    ensures AfterReplay(Passed, buildMatches, Exploited) == Inconclusive
  {}

  /** The replay, on a run of the fix commit. */
  lemma Replays(a: Db, fix: string, verdict: Verdict) returns (b: Db)
    requires InFix(a, fix, Some(0), ValidationRunning) && RetestJob(1, 0) in a.requests && fix != ""
    requires 0 in a.remediations && a.remediations[0].source == Passed && verdict in [NotExploited, Exploited]
    ensures Leads(a, RetestAction(1, 0, verdict, 0.0), b) && |b.findings| >= 1 && |b.runs| >= 2
    ensures b.findings[0].status == if verdict == NotExploited then VerifiedFixed else Inconclusive
    ensures b.runs[1].status == Completed
  {
    hide *;
    HeadMatches(fix);
    FixUnderWay(a, fix, Some(0), ValidationRunning);
    RetestConcludes(Progress(a, 9, true), 1, 0, verdict, 0.0);
    AfterPassedReview(CommitMatchesBuild(fix, fix));
    NothingElse(a, fix, Some(0), ValidationRunning, if verdict == NotExploited then VerifiedFixed else Inconclusive);
    ReplayTaken(a, verdict);
    b := Retest(Progress(a, 9, true), 1, 0, verdict, 0.0).db;
  }

  const ONE_JOB := Schedule(3, 4, [5])

  lemma JobsAreJobs()
    ensures UNESCALATED.RouteAction? && ESCALATED == RouteAction(0, [0], true, 10.0)
    ensures EXPLOITED.StrixAction? && FAILED == StrixAction(0, 0, MissionFailed, 0.0)
    ensures REPLAYED == RetestAction(1, 0, NotExploited, 0.0) && REPRODUCED == RetestAction(1, 0, Exploited, 0.0)
  {}

  /** The review of a critical finding: it is escalated, */
  lemma UntilQueued(base: string, head: string) returns (states: seq<Db>, steps: seq<Step>, db: Db)
    requires IsSha(base) && IsSha(head)
    ensures Arrives(states, steps, db) && |steps| == 5 && |states| == 6
    ensures InReview(db, head, Some(0), ValidationRunning, ValidationQueued) && StrixJob(0, 0) in db.requests
    ensures states[3] == Reviewing(base, head, Some(0)) && steps[3] == Step(DeepSecAction(0, [FOUND], 0.0), 9)
    ensures steps[4] == Step(ESCALATED, 9) && states[5] == db
    ensures |states[4].runs| == 1 && IsEscalated(states[4], 0, 0, true, 10.0)
  {
    hide *;
    JobsAreJobs();
    var first, firstSteps, reviewed := UntilReviewed(base, head, Some(0));
    ArrivesThere(first, firstSteps, reviewed);
    Standing(reviewed, head, Some(0), SourceReviewCompleted, SourceConfirmed);
    IsWorthTesting(reviewed, head, SourceReviewCompleted);
    db := Escalates(reviewed, head);
    states, steps := Go(first, firstSteps, reviewed, ESCALATED, db);
    ArrivesThere(states, steps, db);
    KeptAt(states, steps, first, firstSteps, 3);
    KeptAt(states, steps, first, firstSteps, 4);
  }

  /** exploited, and the run blocked. */
  lemma UntilBlocked(base: string, head: string) returns (states: seq<Db>, steps: seq<Step>, db: Db)
    requires IsSha(base) && IsSha(head)
    ensures Arrives(states, steps, db) && |steps| == 6 && |states| == 7
    ensures InReview(db, head, Some(0), Blocked, Confirmed) && EverConfirmed(db, 0)
    ensures states[3] == Reviewing(base, head, Some(0)) && steps[3] == Step(DeepSecAction(0, [FOUND], 0.0), 9)
    ensures steps[4] == Step(ESCALATED, 9) && steps[5] == Step(EXPLOITED, 9)
    ensures |states[4].runs| == |states[5].runs| == 1 && IsEscalated(states[4], 0, 0, true, 10.0)
  {
    hide *;
    JobsAreJobs();
    ShaIsNotEmpty(head);
    var first, firstSteps, queued := UntilQueued(base, head);
    Standing(queued, head, Some(0), ValidationRunning, ValidationQueued);
    db := Confirms(queued, head);
    states, steps := Go(first, firstSteps, queued, EXPLOITED, db);
    KeptAt(states, steps, first, firstSteps, 3);
    KeptAt(states, steps, first, firstSteps, 4);
    KeptAt(states, steps, first, firstSteps, 5);
  }

  lemma JustReviewing(base: string, head: string)
    ensures ReadyForReview(Reviewing(base, head, Some(0)), 0)
  {
    var events := Reviewing(base, head, Some(0)).events;
    assert Touched(events, 0) == {};
  }

  lemma OneQueued(db: Db)
    requires IsEscalated(db, 0, 0, true, 10.0)
    ensures forall f :: f in Queue(db, 0, [0], true, 10.0) <==> f in [0]
  {
    hide IsEscalated;
  }

  /** Such an execution is a schedule as the theorem on dispositions asks for, with one finding in the queue. */
  lemma ScheduleIsMet(base: string, head: string) returns (states: seq<Db>, steps: seq<Step>)
    requires IsSha(base) && IsSha(head)
    ensures Follows(states, steps, 0, ONE_JOB, [0], [0], true, 10.0) && ReadyForReview(states[3], 0)
    ensures forall f :: f in Queue(states[4], 0, [0], true, 10.0) <==> f in [0]
    ensures |states| == 7 && VerdictAt(steps, ONE_JOB, 0) == Exploited
  {
    assert ESCALATED == RouteAction(0, [0], true, 10.0) && EXPLOITED == StrixAction(0, 0, Exploited, 0.0);
    hide *;
    var db;
    states, steps, db := UntilBlocked(base, head);
    ArrivesThere(states, steps, db);
    JustReviewing(base, head);
    OneQueued(states[4]);
    SelfUndisturbed(states, steps, 4, 0);
    SelfUndisturbed(states, steps, 5, 0);
    OneJobFollows(states, steps, Exploited);
  }

  const FAILED := StrixAction(0, 0, MissionFailed, 0.0)

  /** And one in which the only mission fails: its run is still in validation although its job has returned. */
  lemma AReviewCanStall(base: string, head: string) returns (states: seq<Db>, steps: seq<Step>)
    requires IsSha(base) && IsSha(head)
    ensures IsExecution(states, steps) && |steps| == 6 && |states| == 7 && steps[5] == Step(FAILED, 9)
    ensures Perform(Progress(states[5], 9, true), FAILED).live
    ensures |states[6].runs| >= 1 && states[6].runs[0].status == ValidationRunning
  {
    hide *;
    JobsAreJobs();
    states, steps := UntilFailed(base, head);
    JustReviewing(base, head);
    OneQueued(states[4]);
    SelfUndisturbed(states, steps, 4, 0);
    SelfUndisturbed(states, steps, 5, 0);
    OneJobFollows(states, steps, MissionFailed);
    OneJobStalls(states, steps);
    FailedMissionReturns(states[5], head);
  }

  lemma UntilFailed(base: string, head: string) returns (states: seq<Db>, steps: seq<Step>)
    requires IsSha(base) && IsSha(head)
    ensures IsExecution(states, steps) && |steps| == 6 && |states| == 7
    ensures states[3] == Reviewing(base, head, Some(0)) && steps[3] == Step(DeepSecAction(0, [FOUND], 0.0), 9)
    ensures steps[4] == Step(ESCALATED, 9) && steps[5] == Step(FAILED, 9)
    ensures |states[4].runs| == |states[5].runs| == 1 && IsEscalated(states[4], 0, 0, true, 10.0)
    ensures InReview(states[5], head, Some(0), ValidationRunning, ValidationQueued)
  {
    hide *;
    JobsAreJobs();
    var first, firstSteps, queued := UntilQueued(base, head);
    Standing(queued, head, Some(0), ValidationRunning, ValidationQueued);
    StrixEnabled(queued, 0, 0, MissionFailed);
    LeadsTo(queued, FAILED);
    var last := Take(queued, Step(FAILED, 9));
    states, steps := Go(first, firstSteps, queued, FAILED, last);
    ArrivesThere(states, steps, last);
    KeptAt(states, steps, first, firstSteps, 3);
    KeptAt(states, steps, first, firstSteps, 4);
    KeptAt(states, steps, first, firstSteps, 5);
  }

  lemma StrixEnabled(db: Db, r: nat, f: nat, verdict: Verdict)
    requires StrixJob(r, f) in db.requests
    ensures Enabled(db, StrixAction(r, f, verdict, 0.0))
  {}

  lemma OneJobStalls(states: seq<Db>, steps: seq<Step>)
    requires Follows(states, steps, 0, ONE_JOB, [0], [0], true, 10.0) && ONE_JOB == Schedule(3, 4, [5])
    requires |steps| == 6 && |states| == 7 && steps[5] == Step(StrixAction(0, 0, MissionFailed, 0.0), 9)
    requires ReadyForReview(states[3], 0) && forall f :: f in Queue(states[4], 0, [0], true, 10.0) <==> f in [0]
    ensures |states[6].runs| >= 1 && states[6].runs[0].status == ValidationRunning
  {
    hide IsExecution, Follows, ReadyForReview, Queue;
    DispositionOfReview(states, steps, 0, ONE_JOB, [0], [0], true, 10.0);
    assert VerdictAt(steps, ONE_JOB, 0) == MissionFailed;
  }

  lemma FailedMissionReturns(a: Db, head: string)
    requires InReview(a, head, Some(0), ValidationRunning, ValidationQueued)
    ensures Perform(Progress(a, 9, true), FAILED).live
  {
    var q := Commit(Progress(a, 9, true), CorrelateKnown(a, 0, 0, head, head, true, MissionFailed, 0.0));
    StillQueuedOne(a, q.db, head, ValidationRunning, ValidationQueued);
    hide Touched, AnyWith, FinalizeRun, CommitMatchesBuild;
  }

  lemma OneJobFollows(states: seq<Db>, steps: seq<Step>, verdict: Verdict)
    requires IsExecution(states, steps) && |steps| == 6 && |states| == 7
    requires steps[3] == Step(DeepSecAction(0, [FOUND], 0.0), 9) && steps[4] == Step(RouteAction(0, [0], true, 10.0), 9)
    requires steps[5] == Step(StrixAction(0, 0, verdict, 0.0), 9)
    requires Undisturbed(states[4], states[4], 0) && Undisturbed(states[5], states[5], 0)
    ensures Follows(states, steps, 0, ONE_JOB, [0], [0], true, 10.0)
    ensures ONE_JOB == Schedule(3, 4, [5]) && VerdictAt(steps, ONE_JOB, 0) == verdict
  {
    hide IsExecution, Undisturbed, Behind, Reported;
    BehindIs(ONE_JOB, 0);
  }

  /** What the execution has been through by the time the replay is due. */
  ghost predicate CameThrough(states: seq<Db>, steps: seq<Step>) {
    && |steps| >= 6 && |states| >= 7
    && steps[4].action == ESCALATED && steps[5].action == EXPLOITED
    && |states[6].runs| == 1 && states[6].runs[0].status == Blocked
  }

  lemma CameThroughStill(longer: seq<Db>, more: seq<Step>, states: seq<Db>, steps: seq<Step>)
    requires Keeps(longer, more, states, steps) && CameThrough(states, steps)
    ensures CameThrough(longer, more)
  {}

  lemma BlockedOnTheWay(base: string, head: string) returns (states: seq<Db>, steps: seq<Step>, db: Db)
    requires IsSha(base) && IsSha(head)
    ensures Arrives(states, steps, db) && |steps| == 6 && CameThrough(states, steps)
    ensures InReview(db, head, Some(0), Blocked, Confirmed) && EverConfirmed(db, 0)
  {
    hide IsSha, Arrives, InReview, EverConfirmed;
    states, steps, db := UntilBlocked(base, head);
    Standing(db, head, Some(0), Blocked, Confirmed);
    ArrivesThere(states, steps, db);
    hide IsExecution, NoExploration;
  }

  lemma UntilReplay(base: string, head: string, fix: string) returns (states: seq<Db>, steps: seq<Step>, db: Db)
    requires IsSha(base) && IsSha(head)
    ensures Arrives(states, steps, db) && |steps| == 10 && CameThrough(states, steps)
    ensures InFix(db, fix, Some(0), ValidationRunning) && RetestJob(1, 0) in db.requests
    ensures 0 in db.remediations && db.remediations[0].source == Passed && EverConfirmed(db, 0)
  {
    hide *;
    var first, firstSteps, blocked := BlockedOnTheWay(base, head);
    var second, secondSteps, prepared :=
      UntilPrepared(first, firstSteps, blocked, head, Some(0), Blocked, Confirmed, fix);
    db := QueuesReplay(prepared, fix);
    StillConfirmed(blocked, db);
    states, steps := Go(second, secondSteps, prepared, RevalidateAction(1, 0, [Reported(FalsePositive)], 0.0), db);
    KeepsOn(states, steps, second, secondSteps, first, firstSteps);
    CameThroughStill(states, steps, first, firstSteps);
  }

  /**
   An execution through escalation, a confirmed exploit that blocks its run, and a fix that is verified
   only by the replay.
   */
  lemma AConfirmedFindingCanBeFixed(base: string, head: string, fix: string)
    returns (states: seq<Db>, steps: seq<Step>)
    requires IsSha(base) && IsSha(head) && fix != ""
    ensures IsExecution(states, steps) && NoExploration(steps) && |steps| == 11 && |states| == 12
    ensures CameThrough(states, steps) && steps[10].action == REPLAYED
    ensures EverConfirmed(states[10], 0) && BecameFixed(states[10], states[11], 0)
  {
    hide *;
    JobsAreJobs();
    var first, firstSteps, replaying := UntilReplay(base, head, fix);
    var last := Replays(replaying, fix, NotExploited);
    OneInFix(replaying, fix, Some(0), ValidationRunning);
    FixedNow(replaying, last);
    states, steps := GoOnce(first, firstSteps, replaying, REPLAYED, last);
  }

  /**
   The same execution but for the replay, which reproduces the exploit: as the source check had passed, the
   finding becomes inconclusive and the run is completed.
   */
  lemma AReproducedExploitCanPass(base: string, head: string, fix: string)
    returns (states: seq<Db>, steps: seq<Step>)
    requires IsSha(base) && IsSha(head) && fix != ""
    ensures IsExecution(states, steps) && NoExploration(steps) && |steps| == 11 && |states| == 12
    ensures CameThrough(states, steps) && steps[10].action == REPRODUCED
    ensures EverConfirmed(states[10], 0)
    ensures var b := states[11];
            |b.runs| >= 2 && |b.findings| >= 1 && b.runs[1].status == Completed && b.findings[0].status == Inconclusive
  {
    hide *;
    JobsAreJobs();
    var first, firstSteps, replaying := UntilReplay(base, head, fix);
    var last := Replays(replaying, fix, Exploited);
    states, steps := GoOnce(first, firstSteps, replaying, REPRODUCED, last);
  }

  /** The last step of a walk. */
  lemma GoOnce(first: seq<Db>, firstSteps: seq<Step>, a: Db, action: Action, b: Db)
    returns (states: seq<Db>, steps: seq<Step>)
    requires Arrives(first, firstSteps, a) && Leads(a, action, b) && !action.ExploreAction?
    requires CameThrough(first, firstSteps)
    ensures IsExecution(states, steps) && NoExploration(steps) && CameThrough(states, steps)
    ensures |steps| == |firstSteps| + 1 && |states| == |firstSteps| + 2
    ensures steps[|firstSteps|].action == action && states[|firstSteps|] == a && states[|firstSteps| + 1] == b
  {
    hide *;
    ArrivesThere(first, firstSteps, a);
    states, steps := Go(first, firstSteps, a, action, b);
    ArrivesThere(states, steps, b);
    CameThroughStill(states, steps, first, firstSteps);
    KeptAt(states, steps, first, firstSteps, |firstSteps|);
  }

  lemma StillConfirmed(a: Db, b: Db)
    requires a.validations == b.validations && EverConfirmed(a, 0)
    ensures EverConfirmed(b, 0)
  {}

  lemma FixedNow(a: Db, b: Db)
    requires |a.findings| == 1 && a.findings[0].status == Retesting
    requires |b.findings| >= 1 && b.findings[0].status == VerifiedFixed
    ensures BecameFixed(a, b, 0)
  {}

  // ---------------------------------------------------------------- two findings and the budget for one

  const SECOND := FOUND.(fingerprint := "g")

  const UNDERFUNDED := RouteAction(0, [0, 1], true, 0.5)

  /** What a review that reports both leaves. */
  function TwoReviewed(base: string, head: string): Db {
    var a := Reviewing(base, head, Some(0));
    a.(runs := [ReviewRun(base, head, Some(0), SourceReviewCompleted)],
       executions := [Execution(0, 0.0)],
       findings := [Finding(0, "f", Critical, HighConfidence, "c", SourceConfirmed, head, head),
                    Finding(0, "g", Critical, HighConfidence, "c", SourceConfirmed, head, head)],
       locations := [Location(0, "p", head), Location(1, "p", head)],
       events := a.events + [FindingMoved(0, Some(0), None, Suspected),
                             FindingMoved(0, Some(0), Some(Suspected), SourceConfirmed),
                             FindingMoved(1, Some(0), None, Suspected),
                             FindingMoved(1, Some(0), Some(Suspected), SourceConfirmed),
                             RunMoved(0, SourceReviewRunning, SourceReviewCompleted)],
       requests := a.requests + [RoutingJob(0)])
  }

  lemma SecondReport(db: Db, head: string)
    requires |db.findings| == 1 && db.findings[0].fingerprint == "f"
    ensures UpsertFinding(db, 0, 0, head, SECOND) == Some(Upserted(
              db.(findings := db.findings
                              + [Finding(0, "g", Critical, HighConfidence, "c", SourceConfirmed, head, head)],
                  locations := db.locations + [Location(1, "p", head)],
                  events := db.events + [FindingMoved(1, Some(0), None, Suspected)]
                            + [FindingMoved(1, Some(0), Some(Suspected), SourceConfirmed)]), 1))
  {
    assert FindByPrint(db.findings, 0, "g").None? by { assert "f" != "g"; }
    hide FindByPrint;
    var u := UpsertFinding(db, 0, 0, head, SECOND).value;
    assert u.db.findings
        == db.findings + [Finding(0, "g", Critical, HighConfidence, "c", SourceConfirmed, head, head)];
  }

  lemma BothReports(db: Db, head: string)
    requires db.findings == []
    ensures PersistedDb(UpsertAll(db, 0, 0, head, [FOUND, SECOND])) == Some(
              db.(findings := [Finding(0, "f", Critical, HighConfidence, "c", SourceConfirmed, head, head),
                               Finding(0, "g", Critical, HighConfidence, "c", SourceConfirmed, head, head)],
                  locations := db.locations + [Location(0, "p", head)] + [Location(1, "p", head)],
                  events := db.events + [FindingMoved(0, Some(0), None, Suspected)]
                            + [FindingMoved(0, Some(0), Some(Suspected), SourceConfirmed)]
                            + [FindingMoved(1, Some(0), None, Suspected)]
                            + [FindingMoved(1, Some(0), Some(Suspected), SourceConfirmed)]))
  {
    hide UpsertAll, UpsertFinding;
    assert [FOUND, SECOND][..1] == [FOUND];
    FirstReport(db, head);
    SecondReport(UpsertAll(db, 0, 0, head, [FOUND]).value.db, head);
    UpsertAllSnoc(db, 0, 0, head, [FOUND, SECOND]);
    var both := UpsertAll(db, 0, 0, head, [FOUND, SECOND]).value.db;
    assert both.findings == [Finding(0, "f", Critical, HighConfidence, "c", SourceConfirmed, head, head),
                             Finding(0, "g", Critical, HighConfidence, "c", SourceConfirmed, head, head)];
  }

  lemma TwoReviewedWrites(p: Progress, base: string, head: string)
    requires p == Progress(Reviewing(base, head, Some(0)), 9, true)
    ensures DeepSecJob(0) in p.db.requests && DeepSec(p, 0, [FOUND, SECOND], 0.0).db == TwoReviewed(base, head)
  {
    hide UpsertAll;
    var a := p.db;
    BothReports(a.(executions := a.executions + [Execution(0, 0.0)]), head);
    var p1 := Commit(p, PersistedDb(PersistDeepSec(a, 0, 0, head, [FOUND, SECOND], 0.0)));
    assert p1.live && p1.db.runs == a.runs && p1.db.requests == a.requests;
    hide PersistDeepSec;
  }

  lemma TwoAreTouched(base: string, head: string)
    ensures Touched(TwoReviewed(base, head).events, 0) == {0, 1}
  {
    var events := TwoReviewed(base, head).events;
    assert events[2].finding == 0 && events[4].finding == 1;
    assert forall i | 0 <= i < |events| :: events[i].FindingMoved? ==> events[i].finding in {0, 1};
  }

  lemma TwoAreReady(base: string, head: string)
    ensures var db := TwoReviewed(base, head);
            && JustReviewed(db, 0) && LoadsCandidates(db, 0, [0, 1]) && RoutingJob(0) in db.requests
            && |db.runs| == 1 && Remaining(db, 0, 0.5) == 0.5
            && IsEscalated(db, 0, 0, true, 0.5) && IsEscalated(db, 0, 1, true, 0.5)
  {
    var db := TwoReviewed(base, head);
    TwoAreTouched(base, head);
    hide Touched;
    assert db.requests[3] == RoutingJob(0);
    assert Spent(db.executions[..0], 0) == 0.0;
    assert forall f: nat :: f in [0, 1] <==> f in {0, 1};
  }

  lemma BothAreQueued(p: Progress)
    requires p.live && p.left == 9 && JustReviewed(p.db, 0) && LoadsCandidates(p.db, 0, [0, 1])
    requires IsEscalated(p.db, 0, 0, true, 0.5) && IsEscalated(p.db, 0, 1, true, 0.5)
    ensures Estimate(Queue(p.db, 0, [0, 1], true, 0.5)) == 1.0
    ensures var q := Route(p, 0, [0, 1], true, 0.5);
            q.live && StrixJob(0, 0) in q.db.requests && StrixJob(0, 1) in q.db.requests
  {
    hide IsEscalated, Queue, JustReviewed, LoadsCandidates, Route, Settled, Requeued;
    RoutingOutcome(p, 0, [0, 1], true, 0.5);
    var queued := Queue(p.db, 0, [0, 1], true, 0.5);
    DistinctSize(queued);
    assert SetOf(queued) == {0, 1};
    JobIsListed(0, queued, 0);
    JobIsListed(0, queued, 1);
  }

  lemma JobIsListed(r: nat, queued: seq<nat>, f: nat)
    requires f in queued
    ensures StrixJob(r, f) in StrixJobs(r, queued)
  {
    var i :| 0 <= i < |queued| && queued[i] == f;
    assert StrixJobs(r, queued)[i] == StrixJob(r, f);
  }

  lemma RouteLeads(a: Db, candidates: seq<nat>, budget: real)
    requires RoutingJob(0) in a.requests && LoadsCandidates(a, 0, candidates)
    ensures Leads(a, RouteAction(0, candidates, true, budget),
                  Route(Progress(a, 9, true), 0, candidates, true, budget).db)
  {
    hide Route, LoadsCandidates;
  }

  /** An execution that escalates two findings of a run whose budget, still untouched, is the estimate for one. */
  lemma AReviewCanOverspend(base: string, head: string) returns (states: seq<Db>, steps: seq<Step>)
    requires IsSha(base) && IsSha(head)
    ensures IsExecution(states, steps) && |steps| == 5 && |states| == 6 && steps[4] == Step(UNDERFUNDED, 9)
    ensures |states[4].runs| == 1 && Remaining(states[4], 0, 0.5) == ESTIMATED_STRIX_VALIDATION_COST
    ensures Estimate(Queue(states[4], 0, [0, 1], true, 0.5)) > Remaining(states[4], 0, 0.5)
    ensures StrixJob(0, 0) in states[5].requests && StrixJob(0, 1) in states[5].requests
  {
    hide *;
    BudgetForOne();
    var first, firstSteps := UntilTwoReviewed(base, head);
    var db := TwoReviewed(base, head);
    TwoAreReady(base, head);
    BothAreQueued(Progress(db, 9, true));
    RouteLeads(db, [0, 1], 0.5);
    var last := Route(Progress(db, 9, true), 0, [0, 1], true, 0.5).db;
    states, steps := Go(first, firstSteps, db, UNDERFUNDED, last);
    ArrivesThere(states, steps, last);
    KeptAt(states, steps, first, firstSteps, 4);
  }

  lemma BudgetForOne()
    ensures UNDERFUNDED == RouteAction(0, [0, 1], true, 0.5) && ESTIMATED_STRIX_VALIDATION_COST == 0.5
  {}

  lemma UntilTwoReviewed(base: string, head: string) returns (states: seq<Db>, steps: seq<Step>)
    requires IsSha(base) && IsSha(head)
    ensures Arrives(states, steps, TwoReviewed(base, head)) && |steps| == 4
    ensures |states| == 5 && states[4] == TwoReviewed(base, head)
  {
    hide *;
    var reviewing, db := Reviewing(base, head, Some(0)), TwoReviewed(base, head);
    var first, firstSteps := UntilReviewing(base, head, Some(0));
    TwoReviewedWrites(Progress(reviewing, 9, true), base, head);
    DeepSecLeads(reviewing, 0, [FOUND, SECOND]);
    states, steps := Go(first, firstSteps, reviewing, DeepSecAction(0, [FOUND, SECOND], 0.0), db);
    ArrivesThere(states, steps, db);
  }

  // ---------------------------------------------------------------- what an exploratory mission can break

  const REDISCOVERED := ExploreAction(1, Exploited, Some(FOUND), false, "build", 0.0)

  /** A mission without a finding finds the one whose fix is under review, and adds its evidence to it. */
  lemma Rediscovers(a: Db, fix: string, target: Option<nat>) returns (b: Db)
    requires InFix(a, fix, target, Classifying) && 1 in a.snapshots && RevalidationJob(1, 0) in a.requests
    ensures Leads(a, REDISCOVERED, b) && InFix(b, fix, target, Classifying)
    ensures 1 in b.snapshots && RevalidationJob(1, 0) in b.requests && b.remediations == a.remediations
    ensures EverConfirmed(b, 0)
  {
    hide FindByPrint, Touched, Take;
    SeenAgain(a.findings, TruePositive);
    b := a.(executions := a.executions + [Execution(1, 0.0)],
            findings := a.findings[0 := a.findings[0].(lastSeen := fix)],
            validations := a.validations + [Validation(0, Exploited, "build")]);
    TakePerforms(a, Step(REDISCOVERED, 9));
    LastIsEvidence(b, a.validations, "build");
    hide EverConfirmed;
  }

  lemma Further(states: seq<Db>, steps: seq<Step>, a: Db, action: Action, b: Db)
    returns (longer: seq<Db>, more: seq<Step>)
    requires IsExecution(states, steps) && |states| == |steps| + 1 && states[|steps|] == a && Leads(a, action, b)
    ensures IsExecution(longer, more) && |longer| == |more| + 1 && |more| == |steps| + 1
    ensures longer[|steps|] == a && longer[|more|] == b && more == steps + [Step(action, 9)]
  {
    hide Leads;
    ExecutionGoesOn(states, steps, action, b);
    hide IsExecution;
    longer, more := states + [b], steps + [Step(action, 9)];
  }

  lemma NotEarned(a: Db, f: nat, reports: seq<Report>, cost: real, b: Db)
    requires EverConfirmed(a, f)
    ensures !Earned(a, RevalidateAction(1, f, reports, cost), b, f)
  {
    hide EverConfirmed;
  }

  /**
   Why the theorem on verified fixes leaves such missions out: with one between the start of a source-only
   verification and its review, a finding with a confirmed exploit is verified without a replay.
   */
  lemma ExplorationCanBreakVerification(base: string, head: string, fix: string)
    returns (states: seq<Db>, steps: seq<Step>)
    requires IsSha(base) && IsSha(head)
    ensures IsExecution(states, steps) && |steps| == 9 && |states| == 10
    ensures steps[7].action == REDISCOVERED && steps[8].action.RevalidateAction?
    ensures EverConfirmed(states[8], 0) && BecameFixed(states[8], states[9], 0)
    ensures !Earned(states[8], steps[8].action, states[9], 0)
  {
    hide *;
    var first, firstSteps, reviewed := UntilReviewed(base, head, None);
    NeverConfirmed(reviewed);
    var second, secondSteps, prepared :=
      UntilPrepared(first, firstSteps, reviewed, head, None, SourceReviewCompleted, SourceConfirmed, fix);
    var found := Rediscovers(prepared, fix, None);
    var last := Concludes(found, fix, None, FalsePositive);
    OneInFix(found, fix, None, Classifying);
    PassedReview();
    FixedNow(found, last);
    ArrivesThere(second, secondSteps, prepared);
    var third, thirdSteps := Further(second, secondSteps, prepared, REDISCOVERED, found);
    states, steps := Further(third, thirdSteps, found, RevalidateAction(1, 0, [Reported(FalsePositive)], 0.0), last);
    NotEarned(found, 0, [Reported(FalsePositive)], 0.0, last);
  }

  lemma PassedReview()
    ensures AfterReview(Some(true)) == VerifiedFixed
  {}
}
