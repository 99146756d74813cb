/** The review of a fix commit, from the start of its job: what it decides and what it discovers. */
module Revalidations {
  import opened Options
  import opened Records
  import opened Transitions
  import opened Remediations
  import opened Engines
  import opened Handlers
  import opened AuditTrail
  import opened Lawfulness
  import opened ReviewRuns
  import opened ReviewExecutions
  import opened FixOutcomes

  // ---------------------------------------------------------------- what a batch of reports adds

  ghost predicate Known(findings: seq<Finding>, repo: nat, fingerprint: string) {
    exists g | 0 <= g < |findings| :: findings[g].repo == repo && findings[g].fingerprint == fingerprint
  }

  predicate Mentioned(reports: seq<Report>, fingerprint: string) {
    exists i | 0 <= i < |reports| :: reports[i].fingerprint == fingerprint
  }

  /** Some report is the first of its fingerprint, in the repository and the batch, and of high confidence. */
  ghost predicate Discovers(findings: seq<Finding>, repo: nat, reports: seq<Report>) {
    exists i | 0 <= i < |reports| :: IsDiscovery(findings, repo, reports, i)
  }

  ghost predicate IsDiscovery(findings: seq<Finding>, repo: nat, reports: seq<Report>, i: nat)
    requires i < |reports|
  {
    && reports[i].confidence == HighConfidence
    && !Known(findings, repo, reports[i].fingerprint) && !Mentioned(reports[..i], reports[i].fingerprint)
  }

  predicate IsNew(a: Db, b: Db, g: nat) { |a.findings| <= g < |b.findings| }

  /** The findings that b has and a has not. */
  function New(a: Db, b: Db): set<nat> { set g | 0 <= g < |b.findings| && IsNew(a, b, g) }

  /** Old findings stay where they are, new ones are touched by the run, and `confirmed` if some is confirmed. */
  ghost predicate Adds(a: Db, b: Db, r: nat, confirmed: bool) {
    && |a.findings| <= |b.findings| && a.runs == b.runs && a.remediations == b.remediations
    && a.requests == b.requests
    && (forall g | 0 <= g < |a.findings| :: b.findings[g].status == a.findings[g].status)
    && Touched(b.events, r) == Touched(a.events, r) + New(a, b)
    && (forall g | |a.findings| <= g < |b.findings| :: b.findings[g].status in [Suspected, SourceConfirmed])
    && (confirmed <==> exists g | |a.findings| <= g < |b.findings| :: b.findings[g].status == SourceConfirmed)
  }

  lemma AddsNothing(a: Db, r: nat)
    ensures Adds(a, a, r, false)
  {
    hide Touched;
  }

  lemma AddsCompose(a: Db, b: Db, c: Db, r: nat, first: bool, second: bool)
    requires Adds(a, b, r, first) && Adds(b, c, r, second)
    ensures Adds(a, c, r, first || second)
  {
    hide Touched;
    assert New(a, c) == New(a, b) + New(b, c);
    if first {
      var g :| |a.findings| <= g < |b.findings| && b.findings[g].status == SourceConfirmed;
      assert c.findings[g].status == SourceConfirmed;
    }
    forall g | |a.findings| <= g < |c.findings| && c.findings[g].status == SourceConfirmed ensures first || second {
      if g < |b.findings| { assert b.findings[g].status == SourceConfirmed; }
    }
  }

  lemma NothingNew(db: Db, id: nat, head: string, places: seq<Location>, r: nat)
    requires id < |db.findings|
    ensures Adds(db, db.(findings := db.findings[id := db.findings[id].(lastSeen := head)], locations := places), r,
                 false)
  {
    hide Touched;
  }

  /** A new finding of the run, before and after its confirmation. */
  lemma OneInserted(db: Db, row: Finding, r: nat, places: seq<Location>)
    ensures Adds(db, InsertFinding(db, row, r).(locations := places), r, false)
  {
    TouchedExtends(db.events, FindingMoved(|db.findings|, Some(r), None, Suspected), r);
    hide Touched;
    assert New(db, InsertFinding(db, row, r)) == {|db.findings|};
  }

  lemma OneConfirmed(a: Db, db: Db, r: nat, f: nat)
    requires Adds(a, db, r, false) && |db.findings| == |a.findings| + 1 && f == |a.findings|
    requires db.findings[f].status == Suspected
    ensures var b := TransitionFinding(db, f, SourceConfirmed, Some(r)); b.Some? && Adds(a, b.value, r, true)
  {
    TouchedExtends(db.events, FindingMoved(f, Some(r), Some(Suspected), SourceConfirmed), r);
    hide Touched;
    assert f in New(a, db);
    var b := TransitionFinding(db, f, SourceConfirmed, Some(r)).value;
    assert b.findings[f].status == SourceConfirmed && New(a, b) == New(a, db);
  }

  lemma UpsertAdds(db: Db, repo: nat, r: nat, head: string, report: Report)
    ensures var u := UpsertFinding(db, repo, r, head, report);
            && u.Some?
            && Adds(db, u.value.db, r,
                    report.confidence == HighConfidence && !Known(db.findings, repo, report.fingerprint))
            && forall x :: Known(u.value.db.findings, repo, x)
                           <==> Known(db.findings, repo, x) || report.fingerprint == x
  {
    UpsertKnows(db, repo, r, head, report);
    match FindByPrint(db.findings, repo, report.fingerprint)
    case Some(id) =>
      hide Adds, Known, FindByPrint;
      FoundIsKnown(db.findings, repo, report.fingerprint);
      NothingNew(db, id, head, db.locations + [Location(id, report.filePath, head)], r);
    case None =>
      hide Adds, Known, FindByPrint, TransitionFinding;
      FoundIsKnown(db.findings, repo, report.fingerprint);
      var id := |db.findings|;
      var row := Finding(repo, report.fingerprint, report.severity, report.confidence, report.category,
                         Suspected, head, head);
      var places := db.locations + [Location(id, report.filePath, head)];
      OneInserted(db, row, r, places);
      OneConfirmed(db, InsertFinding(db, row, r).(locations := places), r, id);
  }

  lemma FoundIsKnown(findings: seq<Finding>, repo: nat, fingerprint: string)
    ensures FindByPrint(findings, repo, fingerprint).Some? <==> Known(findings, repo, fingerprint)
  {
    hide FindByPrint;
    var f := FindByPrint(findings, repo, fingerprint);
    if f.Some? { assert findings[f.value].repo == repo && findings[f.value].fingerprint == fingerprint; }
  }

  lemma UpsertKnows(db: Db, repo: nat, r: nat, head: string, report: Report)
    ensures var u := UpsertFinding(db, repo, r, head, report);
            u.Some? ==> forall x :: Known(u.value.db.findings, repo, x)
                                    <==> Known(db.findings, repo, x) || report.fingerprint == x
  {
    var u := UpsertFinding(db, repo, r, head, report);
    if u.Some? {
      UpsertPrints(db, repo, r, head, report);
      hide UpsertFinding;
      var b := u.value.db;
      forall x ensures Known(b.findings, repo, x) <==> Known(db.findings, repo, x) || report.fingerprint == x {
        if Known(db.findings, repo, x) {
          var g :| 0 <= g < |db.findings| && db.findings[g].repo == repo && db.findings[g].fingerprint == x;
          assert b.findings[g].repo == repo && b.findings[g].fingerprint == x;
        }
        assert b.findings[u.value.id].repo == repo && b.findings[u.value.id].fingerprint == report.fingerprint;
        if g :| 0 <= g < |b.findings| && b.findings[g].repo == repo && b.findings[g].fingerprint == x {
          if g < |db.findings| { assert db.findings[g].repo == repo && db.findings[g].fingerprint == x; }
        }
      }
    }
  }

  lemma UpsertPrints(db: Db, repo: nat, r: nat, head: string, report: Report)
    requires UpsertFinding(db, repo, r, head, report).Some?
    ensures var u := UpsertFinding(db, repo, r, head, report).value;
            && u.id < |u.db.findings| && |db.findings| <= |u.db.findings| <= |db.findings| + 1
            && u.db.findings[u.id].repo == repo && u.db.findings[u.id].fingerprint == report.fingerprint
            && (|u.db.findings| > |db.findings| ==> u.id == |db.findings|)
            && forall g | 0 <= g < |db.findings| :: u.db.findings[g].repo == db.findings[g].repo
                                                    && u.db.findings[g].fingerprint == db.findings[g].fingerprint
  {
    hide FindByPrint;
  }

  lemma UpsertAllSnoc(db: Db, repo: nat, r: nat, head: string, reports: seq<Report>)
    requires reports != []
    ensures var n := |reports| - 1;
            var rest := UpsertAll(db, repo, r, head, reports[..n]);
            && (rest.Some? ==>
                  var last := UpsertFinding(rest.value.db, repo, r, head, reports[n]);
                  last.Some? ==> UpsertAll(db, repo, r, head, reports)
                                 == Some(Persisted(last.value.db, rest.value.ids + [last.value.id])))
  {
    hide UpsertFinding;
  }

  lemma NoReports(db: Db, repo: nat, r: nat, head: string)
    ensures UpsertAll(db, repo, r, head, []) == Some(Persisted(db, []))
    ensures !Discovers(db.findings, repo, []) && forall x :: !Mentioned([], x)
  {}

  lemma DiscoversSnoc(findings: seq<Finding>, repo: nat, reports: seq<Report>)
    requires reports != []
    ensures var n := |reports| - 1;
            Discovers(findings, repo, reports)
            <==> Discovers(findings, repo, reports[..n]) || IsDiscovery(findings, repo, reports, n)
    ensures var n := |reports| - 1;
            forall x :: Mentioned(reports, x) <==> Mentioned(reports[..n], x) || reports[n].fingerprint == x
  {
    var n := |reports| - 1;
    var front := reports[..n];
    hide Known;
    if Discovers(findings, repo, front) {
      var i :| 0 <= i < n && IsDiscovery(findings, repo, front, i);
      assert front[..i] == reports[..i];
      assert IsDiscovery(findings, repo, reports, i);
    }
    if i :| 0 <= i < n && IsDiscovery(findings, repo, reports, i) {
      assert front[..i] == reports[..i];
      assert IsDiscovery(findings, repo, front, i);
    }
    forall x ensures Mentioned(reports, x) <==> Mentioned(front, x) || reports[n].fingerprint == x {
      if Mentioned(front, x) {
        var i :| 0 <= i < n && front[i].fingerprint == x;
        assert reports[i].fingerprint == x;
      }
      if i :| 0 <= i < n && reports[i].fingerprint == x { assert front[i].fingerprint == x; }
    }
  }

  /** A batch moves no finding that was there, and leaves a new confirmed one iff it makes a discovery. */
  lemma {:induction false} BatchAdds(db: Db, repo: nat, r: nat, head: string, reports: seq<Report>)
    ensures var u := UpsertAll(db, repo, r, head, reports);
            && u.Some? && Adds(db, u.value.db, r, Discovers(db.findings, repo, reports))
            && forall x :: Known(u.value.db.findings, repo, x)
                           <==> Known(db.findings, repo, x) || Mentioned(reports, x)
  {
    hide *;
    if reports == [] {
      NoReports(db, repo, r, head);
      AddsNothing(db, r);
    } else {
      var n := |reports| - 1;
      BatchAdds(db, repo, r, head, reports[..n]);
      var rest := UpsertAll(db, repo, r, head, reports[..n]).value.db;
      UpsertAdds(rest, repo, r, head, reports[n]);
      UpsertAllSnoc(db, repo, r, head, reports);
      DiscoversSnoc(db.findings, repo, reports);
      DiscoveryIs(db.findings, repo, reports, n);
      AddsCompose(db, rest, UpsertFinding(rest, repo, r, head, reports[n]).value.db, r,
                  Discovers(db.findings, repo, reports[..n]),
                  reports[n].confidence == HighConfidence && !Known(rest.findings, repo, reports[n].fingerprint));
    }
  }

  lemma DiscoveryIs(findings: seq<Finding>, repo: nat, reports: seq<Report>, i: nat)
    requires i < |reports|
    ensures IsDiscovery(findings, repo, reports, i)
            <==> && reports[i].confidence == HighConfidence
                 && !(Known(findings, repo, reports[i].fingerprint) || Mentioned(reports[..i], reports[i].fingerprint))
  {}

  // ---------------------------------------------------------------- the whole job

  lemma ReviewFixAdds(p: Progress, r: nat, reports: seq<Report>, cost: real)
    requires p.live && p.left >= 3 && r < |p.db.runs| && p.db.runs[r].status == Classifying
    ensures var q := ReviewFix(p, r, reports, cost);
            && q.live && q.left == p.left - 3 && |q.db.runs| == |p.db.runs|
            && q.db.runs[r].status == SourceReviewCompleted
            && q.db.runs[r].headSha == p.db.runs[r].headSha && q.db.runs[r].target == p.db.runs[r].target
            && q.db.remediations == p.db.remediations && |p.db.findings| <= |q.db.findings|
            && (forall g | 0 <= g < |p.db.findings| :: q.db.findings[g].status == p.db.findings[g].status)
            && Touched(q.db.events, r) == Touched(p.db.events, r) + New(p.db, q.db)
            && (forall g | g in New(p.db, q.db) :: q.db.findings[g].status in [Suspected, SourceConfirmed])
            && (Discovers(p.db.findings, p.db.runs[r].repo, reports)
                <==> exists g | g in New(p.db, q.db) :: q.db.findings[g].status == SourceConfirmed)
  {
    hide UpsertAll, Touched, Discovers, ReviewFix;
    var run, started := p.db.runs[r], Started(p.db, r, cost);
    TouchedExtends(p.db.events, RunMoved(r, Classifying, SourceReviewRunning), r);
    BatchAdds(started, run.repo, r, run.headSha, reports);
    var saved := UpsertAll(started, run.repo, r, run.headSha, reports).value.db;
    TouchedExtends(saved.events, RunMoved(r, SourceReviewRunning, SourceReviewCompleted), r);
    ReviewFixWrites(p, r, reports, cost, saved);
    assert New(p.db, saved) == New(started, saved);
  }

  /** The run under review, before the first report is stored. */
  function Started(db: Db, r: nat, cost: real): Db
    requires r < |db.runs|
  {
    db.(runs := db.runs[r := db.runs[r].(status := SourceReviewRunning)],
        events := db.events + [RunMoved(r, Classifying, SourceReviewRunning)],
        executions := db.executions + [Execution(r, cost)])
  }

  lemma ReviewFixWrites(p: Progress, r: nat, reports: seq<Report>, cost: real, saved: Db)
    requires p.live && p.left >= 3 && r < |p.db.runs| && p.db.runs[r].status == Classifying
    requires var run, started := p.db.runs[r], Started(p.db, r, cost);
             && PersistedDb(UpsertAll(started, run.repo, r, run.headSha, reports)) == Some(saved)
             && saved.runs == started.runs
    ensures ReviewFix(p, r, reports, cost)
         == Progress(saved.(runs := saved.runs[r := saved.runs[r].(status := SourceReviewCompleted)],
                            events := saved.events + [RunMoved(r, SourceReviewRunning, SourceReviewCompleted)]),
                     p.left - 3, true)
  {
    hide UpsertAll;
    var p1 := CommitRun(p, r, SourceReviewRunning);
    assert p1.db.(executions := p1.db.executions + [Execution(r, cost)]) == Started(p.db, r, cost);
  }

  /** The verdict of the first report. */
  function Said(reports: seq<Report>): Option<Revalidation> {
    if reports == [] then None else reports[0].verdict
  }

  lemma SourceSays(reports: seq<Report>)
    ensures AfterReview(SourceVerdict(reports))
         == if Said(reports) == Some(FalsePositive) then VerifiedFixed
            else if Said(reports) == Some(TruePositive) then StillExploitable else Retesting
    ensures ToCheckOutcome(SourceVerdict(reports)) == StoredSource(reports)
    ensures SourceVerdict(reports) == Some(false) <==> Said(reports) == Some(TruePositive)
  {
    match Said(reports)
    case None => assert SourceVerdict(reports) == None;
    case Some(FalsePositive) => assert SourceVerdict(reports) == Some(true);
    case Some(TruePositive) => assert SourceVerdict(reports) == Some(false);
    case Some(Unknown) => assert SourceVerdict(reports) == None;
  }

  /** How the review of the fix is stored: a true positive is a failed check. */
  function StoredSource(reports: seq<Report>): CheckOutcome {
    if Said(reports) == Some(FalsePositive) then Passed
    else if Said(reports) == Some(TruePositive) then NotPassed else Undecided
  }

  /** The end of the fix run, in terms of what was there before the review. */
  function EndOfFixReview(db: Db, r: nat, f: nat, to: FindingStatus, discovers: bool): RunStatus {
    var others := Touched(db.events, r) - {f};
    if to == StillExploitable || AnyWith(db, others, {Confirmed, StillExploitable}) then Blocked
    else if discovers || AnyWith(db, others, {SourceConfirmed, FixPending}) then AwaitingFix
    else Completed
  }

  /** The run has touched only findings that exist. */
  ghost predicate TouchesExisting(db: Db, r: nat) { forall g | g in Touched(db.events, r) :: g < |db.findings| }

  /** So does every run of every execution. */
  lemma ExecutionTouchesExisting(states: seq<Db>, steps: seq<Step>, k: nat, r: nat)
    requires IsExecution(states, steps) && k < |states|
    ensures TouchesExisting(states[k], r)
  {
    ExecutionKeepsLedger(states, steps, k);
    hide Ledger, IsExecution, Touched;
    forall g | g in Touched(states[k].events, r) ensures g < |states[k].findings| {
      TouchedExist(states[k], r, g);
    }
  }

  lemma EndsAgree(a: Db, b: Db, r: nat, f: nat, to: FindingStatus, discovers: bool)
    requires f < |a.findings| <= |b.findings| && TouchesExisting(a, r)
    requires forall g | 0 <= g < |a.findings| :: b.findings[g].status == a.findings[g].status
    requires Touched(b.events, r) == Touched(a.events, r) + New(a, b)
    requires forall g | g in New(a, b) :: b.findings[g].status in [Suspected, SourceConfirmed]
    requires discovers <==> exists g | g in New(a, b) :: b.findings[g].status == SourceConfirmed
    ensures EndOfRun(b, r, f, to) == EndOfFixReview(a, r, f, to, discovers)
  {
    hide Touched, AnyWith;
    var others, all := Touched(a.events, r) - {f}, Touched(b.events, r) - {f};
    AnyAmongNew(a, b, others, {Confirmed, StillExploitable});
    AnyAmongNew(a, b, others, {SourceConfirmed, FixPending});
    assert f !in New(a, b);
    assert all == others + New(a, b);
    hide New;
  }

  lemma AnyAmongNew(a: Db, b: Db, others: set<nat>, statuses: set<FindingStatus>)
    requires |a.findings| <= |b.findings| && forall g | g in others :: g < |a.findings|
    requires forall g | 0 <= g < |a.findings| :: b.findings[g].status == a.findings[g].status
    ensures AnyWith(b, others + New(a, b), statuses)
            <==> AnyWith(a, others, statuses) || exists g | g in New(a, b) :: b.findings[g].status in statuses
  {
    if g :| g in others && g < |a.findings| && a.findings[g].status in statuses {
      assert g in others + New(a, b) && b.findings[g].status in statuses;
    }
    if g :| g in New(a, b) && b.findings[g].status in statuses { assert g in others + New(a, b); }
  }

  /**
   The whole revalidation job of a source-only fix, left to finish: the verdict of the first report, if it
   has one, decides about the finding, and the run ends blocked if the fix failed or another finding it
   touched is exploitable, else awaiting a fix if one of those is confirmed from source or the review
   discovers one, else completed.
   */
  lemma SourceRevalidationConcludes(p: Progress, r: nat, f: nat, reports: seq<Report>, cost: real)
    requires p.live && p.left >= 8 && r < |p.db.runs| && f < |p.db.findings| && r in p.db.snapshots
    requires p.db.runs[r].status == Classifying && TouchesExisting(p.db, r)
    requires f in p.db.remediations && p.db.remediations[f].runtime == NotApplicable
    requires p.db.findings[f].status == Retesting
    ensures var q := Revalidate(p, r, f, reports, cost);
            var said := Said(reports);
            && q.live && f < |q.db.findings| && r < |q.db.runs|
            && q.db.findings[f].status == (if said == Some(FalsePositive) then VerifiedFixed
                                           else if said == Some(TruePositive) then StillExploitable else Retesting)
            && q.db.runs[r].status
            == EndOfFixReview(p.db, r, f, q.db.findings[f].status,
                              Discovers(p.db.findings, p.db.runs[r].repo, reports))
  {
    hide ReviewFix, ConcludeReview, EndOfRun, AfterReview, Touched, Discovers, EndOfFixReview, SourceVerdict;
    hide TouchesExisting, New, Said;
    SourceSays(reports);
    ReviewFixAdds(p, r, reports, cost);
    var q := ReviewFix(p, r, reports, cost);
    SourceReviewConcludes(q, r, f, p.db.remediations[f], SourceVerdict(reports));
    EndsAgree(p.db, q.db, r, f, AfterReview(SourceVerdict(reports)),
              Discovers(p.db.findings, p.db.runs[r].repo, reports));
  }

  /** The job of a fix that needs a replay: it stores the review's verdict, moves nothing and queues the replay. */
  lemma RuntimeRevalidationQueues(p: Progress, r: nat, f: nat, reports: seq<Report>, cost: real)
    requires p.live && p.left >= 6 && r < |p.db.runs| && f < |p.db.findings| && r in p.db.snapshots
    requires p.db.runs[r].status == Classifying
    requires f in p.db.remediations && p.db.remediations[f].runtime != NotApplicable
    ensures var q := Revalidate(p, r, f, reports, cost);
            && q.live && r < |q.db.runs| && q.db.runs[r].status == ValidationRunning
            && q.db.runs[r].headSha == p.db.runs[r].headSha && q.db.runs[r].target == p.db.runs[r].target
            && |p.db.findings| <= |q.db.findings|
            && (forall g | 0 <= g < |p.db.findings| :: q.db.findings[g].status == p.db.findings[g].status)
            && Touched(q.db.events, r) == Touched(p.db.events, r) + New(p.db, q.db)
            && (forall g | g in New(p.db, q.db) :: q.db.findings[g].status in [Suspected, SourceConfirmed])
            && q.db.remediations
            == p.db.remediations[f := p.db.remediations[f].(source := StoredSource(reports))]
            && RetestJob(r, f) in q.db.requests
  {
    hide ReviewFix, Touched, Discovers, SourceVerdict, New;
    ReviewFixAdds(p, r, reports, cost);
    SourceSays(reports);
    hide StoredSource, AfterReview;
    var reviewed := ReviewFix(p, r, reports, cost);
    ReplayIsQueued(reviewed, r, f, SourceVerdict(reports));
    var q := Revalidate(p, r, f, reports, cost);
    hide ConcludeReview;
    SameNew(p.db, reviewed.db, q.db);
  }

  lemma SameNew(a: Db, b: Db, c: Db)
    requires b.findings == c.findings
    ensures New(a, b) == New(a, c)
  {}

  lemma ReplayIsQueued(p: Progress, r: nat, f: nat, passed: Option<bool>)
    requires p.live && p.left >= 3 && r < |p.db.runs| && p.db.runs[r].status == SourceReviewCompleted
    requires f in p.db.remediations && p.db.remediations[f].runtime != NotApplicable
    ensures var q := ConcludeReview(p, r, f, Some(p.db.remediations[f]), passed);
            && q.live && |q.db.runs| == |p.db.runs| && q.db.runs[r].status == ValidationRunning
            && q.db.runs[r].headSha == p.db.runs[r].headSha && q.db.runs[r].target == p.db.runs[r].target
            && q.db.findings == p.db.findings && Touched(q.db.events, r) == Touched(p.db.events, r)
            && q.db.remediations
            == p.db.remediations[f := p.db.remediations[f].(source := ToCheckOutcome(passed))]
            && RetestJob(r, f) in q.db.requests
  {
    TouchedExtends(p.db.events, RunMoved(r, SourceReviewCompleted, ValidationRunning), r);
    hide Touched, ToCheckOutcome;
    var q := ConcludeReview(p, r, f, Some(p.db.remediations[f]), passed);
    assert q.db.requests[|q.db.requests| - 1] == RetestJob(r, f);
  }

  /**
   Both jobs of a fix that needs a replay, one after the other. The finding is verified iff the first report
   calls it a false positive and the replay of the fix commit does not reproduce; still exploitable iff it is
   called a true positive and the replay of the fix commit reproduces; left at retesting iff no report says
   either or the mission fails; and else inconclusive. The run is blocked iff the fix failed both checks on
   the fix commit, or another finding that it touched is confirmed or still exploitable.
   */
  lemma RuntimeFixConcludes(
    p: Progress, r: nat, f: nat, reports: seq<Report>, cost: real, stop: nat, verdict: Verdict, replayCost: real)
    requires p.live && p.left >= 6 && r < |p.db.runs| && f < |p.db.findings| && r in p.db.snapshots
    requires p.db.runs[r].status == Classifying && p.db.runs[r].target.Some? && TouchesExisting(p.db, r)
    requires f in p.db.remediations && p.db.remediations[f].runtime != NotApplicable
    requires p.db.findings[f].status == Retesting && stop >= 6
    ensures var reviewed := Revalidate(p, r, f, reports, cost).db;
            var q := Retest(Progress(reviewed, stop, true), r, f, verdict, replayCost);
            var said := Said(reports);
            var matches := CommitMatchesBuild(p.db.remediations[f].fixCommit, p.db.runs[r].headSha);
            && q.live && f < |q.db.findings| && r < |q.db.runs|
            && (q.db.findings[f].status == VerifiedFixed
                <==> said == Some(FalsePositive) && matches && verdict == NotExploited)
            && (q.db.findings[f].status == StillExploitable
                <==> said == Some(TruePositive) && matches && verdict == Exploited)
            && (q.db.findings[f].status == Retesting
                <==> said !in {Some(FalsePositive), Some(TruePositive)} || verdict == MissionFailed)
            && q.db.findings[f].status in [VerifiedFixed, StillExploitable, Retesting, Inconclusive]
            && (q.db.runs[r].status == Blocked
                <==> (said == Some(TruePositive) && matches && verdict == Exploited)
                     || AnyWith(p.db, Touched(p.db.events, r) - {f}, {Confirmed, StillExploitable}))
  {
    hide Revalidate, Retest, CommitMatchesBuild, SourceVerdict, EndOfRun, AnyWith, Touched, New;
    RuntimeRevalidationQueues(p, r, f, reports, cost);
    var reviewed := Revalidate(p, r, f, reports, cost).db;
    RetestConcludes(Progress(reviewed, stop, true), r, f, verdict, replayCost);
    RetestBlocksIff(Progress(reviewed, stop, true), r, f, verdict, replayCost);
    NoOtherIsExploitable(p.db, reviewed, r, f);
  }

  /** What a review adds is not exploitable, so such findings are the same before and after it. */
  lemma NoOtherIsExploitable(a: Db, b: Db, r: nat, f: nat)
    requires f < |a.findings| <= |b.findings| && TouchesExisting(a, r)
    requires forall g | 0 <= g < |a.findings| :: b.findings[g].status == a.findings[g].status
    requires Touched(b.events, r) == Touched(a.events, r) + New(a, b)
    requires forall g | g in New(a, b) :: b.findings[g].status in [Suspected, SourceConfirmed]
    ensures AnyWith(b, Touched(b.events, r) - {f}, {Confirmed, StillExploitable})
            <==> AnyWith(a, Touched(a.events, r) - {f}, {Confirmed, StillExploitable})
  {
    hide Touched, AnyWith;
    var others := Touched(a.events, r) - {f};
    AnyAmongNew(a, b, others, {Confirmed, StillExploitable});
    assert f !in New(a, b);
    assert Touched(b.events, r) - {f} == others + New(a, b);
    hide New;
  }
}
