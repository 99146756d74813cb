/**
 The audit log as the history of every finding and run: what each transaction keeps, and what
 therefore holds in every state of every execution.
 */
module AuditTrail {
  import opened Options
  import opened Records
  import opened StateMachines
  import opened Transitions
  import opened Engines

  // ---------------------------------------------------------------- the log read as chains

  predicate OfFinding(e: Event, f: nat) { e.FindingMoved? && e.finding == f }

  predicate OfRun(e: Event, r: nat) { e.RunMoved? && e.run == r }

  /** Read backwards from `s`, the finding's own events link up to a creation as suspected. */
  ghost predicate FindingChain(events: seq<Event>, f: nat, s: Option<FindingStatus>) {
    if events == [] then s.None? else
    var e, earlier := events[|events| - 1], events[..|events| - 1];
    if OfFinding(e, f) then
      && s == Some(e.after)
      && (if e.before.Some? then FindingEdge(e.before.value, e.after) else e.after == Suspected)
      && FindingChain(earlier, f, e.before)
    else FindingChain(earlier, f, s)
  }

  ghost predicate RunChain(events: seq<Event>, r: nat, s: RunStatus) {
    if events == [] then s == Queued else
    var e, earlier := events[|events| - 1], events[..|events| - 1];
    if OfRun(e, r) then s == e.to && RunEdge(e.from, e.to) && RunChain(earlier, r, e.from)
    else RunChain(earlier, r, s)
  }

  function FindingTrail(events: seq<Event>, f: nat): seq<FindingStatus> {
    if events == [] then [] else
    FindingTrail(events[..|events| - 1], f)
    + if OfFinding(events[|events| - 1], f) then [events[|events| - 1].after] else []
  }

  function RunTrail(events: seq<Event>, r: nat): seq<RunStatus> {
    if events == [] then [Queued] else
    RunTrail(events[..|events| - 1], r)
    + if OfRun(events[|events| - 1], r) then [events[|events| - 1].to] else []
  }

  /** Events i and j are successive events of the finding. */
  ghost predicate Successive(events: seq<Event>, f: nat, i: int, j: int) {
    && 0 <= i < j < |events| && OfFinding(events[i], f) && OfFinding(events[j], f)
    && forall m | i < m < j :: !OfFinding(events[m], f)
  }

  lemma {:induction false} FindingChainLast(events: seq<Event>, f: nat, s: Option<FindingStatus>, i: nat)
    requires FindingChain(events, f, s) && i < |events| && OfFinding(events[i], f)
    requires forall m | i < m < |events| :: !OfFinding(events[m], f)
    ensures s == Some(events[i].after)
  {
    if i < |events| - 1 {
      FindingChainLast(events[..|events| - 1], f, s, i);
    }
  }

  /** A chain is what it is meant to be: every event continues the one before it, along the table. */
  lemma {:induction false} FindingChainLinks(events: seq<Event>, f: nat, s: Option<FindingStatus>, i: nat, j: nat)
    requires FindingChain(events, f, s) && Successive(events, f, i, j)
    ensures events[j].before == Some(events[i].after) && FindingEdge(events[i].after, events[j].after)
  {
    var e, earlier := events[|events| - 1], events[..|events| - 1];
    if j < |events| - 1 {
      FindingChainLinks(earlier, f, if OfFinding(e, f) then e.before else s, i, j);
    } else {
      FindingChainLast(earlier, f, e.before, i);
    }
  }

  lemma {:induction false} FindingChainHistory(events: seq<Event>, f: nat, s: Option<FindingStatus>)
    requires FindingChain(events, f, s)
    ensures var h := FindingTrail(events, f);
            if s.None? then h == [] else FindingHistory(h) && h[|h| - 1] == s.value
  {
    if events != [] {
      var e, earlier := events[|events| - 1], events[..|events| - 1];
      FindingChainHistory(earlier, f, if OfFinding(e, f) then e.before else s);
    }
  }

  lemma {:induction false} RunChainHistory(events: seq<Event>, r: nat, s: RunStatus)
    requires RunChain(events, r, s)
    ensures var h := RunTrail(events, r); RunHistory(h) && h[|h| - 1] == s
  {
    if events != [] {
      var e, earlier := events[|events| - 1], events[..|events| - 1];
      RunChainHistory(earlier, r, if OfRun(e, r) then e.from else s);
    }
  }

  // ---------------------------------------------------------------- the invariant

  function StatusOf(db: Db, f: nat): Option<FindingStatus> {
    if f < |db.findings| then Some(db.findings[f].status) else None
  }

  function RunStatusOf(db: Db, r: nat): RunStatus {
    if r < |db.runs| then db.runs[r].status else Queued
  }

  ghost predicate EverClassifying(events: seq<Event>, r: nat) {
    exists i | 0 <= i < |events| :: OfRun(events[i], r) && events[i].to == Classifying
  }

  ghost predicate Stamps(run: Run, everClassifying: bool, clock: nat) {
    && (run.startedAt.Some? <==> everClassifying)
    && (run.completedAt.Some? <==> IsRunTerminal(run.status))
    && (run.startedAt.Some? ==> run.startedAt.value <= clock)
    && (run.completedAt.Some? ==> run.completedAt.value <= clock)
    && (run.startedAt.Some? && run.completedAt.Some? ==> run.startedAt.value <= run.completedAt.value)
  }

  predicate IsDisposition(s: RunStatus) { s in [Completed, Blocked, AwaitingFix] }

  /** The disposition the run was last given. */
  function DispositionOf(events: seq<Event>, r: nat): Option<RunStatus> {
    if events == [] then None else
    var e := events[|events| - 1];
    if OfRun(e, r) && IsDisposition(e.to) then Some(e.to) else DispositionOf(events[..|events| - 1], r)
  }

  predicate IsFinal(q: Request) { q.ReceiptJob? || q.CompletedWebhook? || q.BlockedWebhook? }

  /** The receipt and webhook requests made for the run, in order. */
  function Finals(requests: seq<Request>, r: nat): seq<Request> {
    if requests == [] then [] else
    var q := requests[|requests| - 1];
    Finals(requests[..|requests| - 1], r) + if IsFinal(q) && q.run == r then [q] else []
  }

  /** What concluding a run sends out: one receipt, one completion and, if it is blocked, one alert. */
  function Package(r: nat, disposition: Option<RunStatus>): seq<Request> {
    match disposition
    case None => []
    case Some(d) => [ReceiptJob(r), CompletedWebhook(r, d)] + if d == Blocked then [BlockedWebhook(r)] else []
  }

  /** How many findings the log saw being created. */
  function Created(events: seq<Event>): nat {
    if events == [] then 0 else
    var e := events[|events| - 1];
    Created(events[..|events| - 1]) + if e.FindingMoved? && e.before.None? then 1 else 0
  }

  ghost predicate UniqueRows(db: Db) {
    && (forall i, j | 0 <= i < j < |db.findings| ::
          db.findings[i].repo != db.findings[j].repo || db.findings[i].fingerprint != db.findings[j].fingerprint)
    && (forall i, j | 0 <= i < j < |db.runs| :: db.runs[i].key != db.runs[j].key)
  }

  ghost predicate Ledger(db: Db) {
    && (forall f: nat :: FindingChain(db.events, f, StatusOf(db, f)))
    && (forall r: nat :: RunChain(db.events, r, RunStatusOf(db, r)))
    && (forall r | 0 <= r < |db.runs| :: Stamps(db.runs[r], EverClassifying(db.events, r), db.clock))
    && (forall i | 0 <= i < |db.events| :: db.events[i].RunMoved? ==> db.events[i].to != FixVerificationRunning)
    && (forall r: nat :: Finals(db.requests, r) <= Package(r, DispositionOf(db.events, r)))
    && Created(db.events) == |db.findings|
    && UniqueRows(db)
  }

  /** The columns of a finding that never change. */
  function FindingIdentity(finding: Finding): (nat, string, Severity, Confidence, string, string) {
    (finding.repo, finding.fingerprint, finding.severity, finding.confidence, finding.category, finding.firstSeen)
  }

  function RunIdentity(run: Run): (RunType, nat, string, string, Option<nat>, string) {
    (run.runType, run.repo, run.baseSha, run.headSha, run.target, run.key)
  }

  /** Rows are never deleted, logs only grow, and timestamps are written once. */
  ghost predicate Grows(a: Db, b: Db) {
    && a.clock <= b.clock && a.events <= b.events && a.requests <= b.requests
    && a.validations <= b.validations && a.locations <= b.locations
    && a.decisions <= b.decisions && a.executions <= b.executions
    && |a.findings| <= |b.findings| && |a.runs| <= |b.runs| && a.snapshots <= b.snapshots
    && (forall f | 0 <= f < |a.findings| :: FindingIdentity(a.findings[f]) == FindingIdentity(b.findings[f]))
    && (forall r | 0 <= r < |a.runs| ::
          && RunIdentity(a.runs[r]) == RunIdentity(b.runs[r])
          && (a.runs[r].startedAt.Some? ==> b.runs[r].startedAt == a.runs[r].startedAt)
          && (a.runs[r].completedAt.Some? ==> b.runs[r].completedAt == a.runs[r].completedAt))
  }

  ghost predicate Lawful(a: Db, b: Db) { Ledger(b) && Grows(a, b) }

  // ---------------------------------------------------------------- the four writes, and everything else

  lemma OtherColumnsAreLawful(a: Db, b: Db)
    requires Ledger(a) && Grows(a, b)
    requires b.events == a.events && b.runs == a.runs && |b.findings| == |a.findings|
    requires forall f | 0 <= f < |a.findings| :: b.findings[f].status == a.findings[f].status
    requires b.requests == a.requests
             || forall r: nat :: Finals(b.requests, r) <= Package(r, DispositionOf(b.events, r))
    ensures Ledger(b)
  {
    forall f: nat ensures FindingChain(b.events, f, StatusOf(b, f)) {
      assert FindingChain(a.events, f, StatusOf(a, f));
    }
    forall r: nat ensures RunChain(b.events, r, RunStatusOf(b, r)) {
      assert RunChain(a.events, r, RunStatusOf(a, r));
    }
    forall i, j | 0 <= i < j < |b.findings|
      ensures b.findings[i].repo != b.findings[j].repo || b.findings[i].fingerprint != b.findings[j].fingerprint
    {
      assert FindingIdentity(a.findings[i]) == FindingIdentity(b.findings[i]);
      assert FindingIdentity(a.findings[j]) == FindingIdentity(b.findings[j]);
    }
  }

  /** A run that has not concluded has no disposition, and has sent nothing out. */
  lemma {:induction false} OpenRunHasNoDisposition(events: seq<Event>, r: nat, s: RunStatus)
    requires RunChain(events, r, s) && !IsDisposition(s) && s != Cancelled
    requires forall i | 0 <= i < |events| :: events[i].RunMoved? ==> events[i].to != FixVerificationRunning
    ensures DispositionOf(events, r) == None
  {
    if events != [] {
      var e, earlier := events[|events| - 1], events[..|events| - 1];
      OpenRunHasNoDisposition(earlier, r, if OfRun(e, r) then e.from else s);
    }
  }

  lemma FindingMoveIsLawful(db: Db, f: nat, to: FindingStatus, cause: Option<nat>)
    requires Ledger(db) && TransitionFinding(db, f, to, cause).Some?
    ensures Lawful(db, TransitionFinding(db, f, to, cause).value)
  {
    var b := TransitionFinding(db, f, to, cause).value;
    assert b.events[..|b.events| - 1] == db.events;
    forall g: nat ensures FindingChain(b.events, g, StatusOf(b, g)) {
      assert FindingChain(db.events, g, StatusOf(db, g));
    }
    forall r: nat ensures RunChain(b.events, r, RunStatusOf(b, r)) {
      assert RunChain(db.events, r, RunStatusOf(db, r));
    }
    forall r | 0 <= r < |b.runs| ensures EverClassifying(b.events, r) <==> EverClassifying(db.events, r) {
      if EverClassifying(db.events, r) {
        var i :| 0 <= i < |db.events| && OfRun(db.events[i], r) && db.events[i].to == Classifying;
        assert b.events[i] == db.events[i];
      }
    }
  }

  /** A run is given a disposition only once, and nothing was sent out before. */
  lemma DispositionIsFirst(db: Db, r: nat, to: RunStatus)
    requires Ledger(db) && IsDisposition(to) && TransitionRun(db, r, to).Some?
    ensures DispositionOf(db.events, r) == None && Finals(db.requests, r) == []
    ensures DispositionOf(TransitionRun(db, r, to).value.events, r) == Some(to)
  {
    assert RunChain(db.events, r, RunStatusOf(db, r));
    OpenRunHasNoDisposition(db.events, r, db.runs[r].status);
    assert Finals(db.requests, r) <= Package(r, DispositionOf(db.events, r));
  }

  lemma RunMoveKeepsFinals(db: Db, r: nat, to: RunStatus, q: nat)
    requires Ledger(db) && TransitionRun(db, r, to).Some?
    ensures Finals(db.requests, q) <= Package(q, DispositionOf(TransitionRun(db, r, to).value.events, q))
  {
    var b := TransitionRun(db, r, to).value;
    assert b.events[..|b.events| - 1] == db.events;
    assert Finals(db.requests, q) <= Package(q, DispositionOf(db.events, q));
    if q == r && IsDisposition(to) { DispositionIsFirst(db, r, to); }
  }

  lemma RunMoveStamps(db: Db, r: nat, to: RunStatus, q: nat)
    requires Ledger(db) && TransitionRun(db, r, to).Some? && q < |db.runs|
    ensures var b := TransitionRun(db, r, to).value;
            && Stamps(b.runs[q], EverClassifying(b.events, q), b.clock)
            && (db.runs[q].startedAt.Some? ==> b.runs[q].startedAt == db.runs[q].startedAt)
            && (db.runs[q].completedAt.Some? ==> b.runs[q].completedAt == db.runs[q].completedAt)
  {
    var b := TransitionRun(db, r, to).value;
    var n := |db.events|;
    assert Stamps(db.runs[q], EverClassifying(db.events, q), db.clock);
    if EverClassifying(db.events, q) {
      var i :| 0 <= i < n && OfRun(db.events[i], q) && db.events[i].to == Classifying;
      assert b.events[i] == db.events[i];
    }
    assert OfRun(b.events[n], r) && b.events[n].to == to;
    TerminalListAgreesWithTable(to);
  }

  lemma RunMoveIsLawful(db: Db, r: nat, to: RunStatus)
    requires Ledger(db) && to != FixVerificationRunning && TransitionRun(db, r, to).Some?
    ensures Lawful(db, TransitionRun(db, r, to).value)
  {
    var b := TransitionRun(db, r, to).value;
    assert b.events[..|b.events| - 1] == db.events;
    forall g: nat ensures FindingChain(b.events, g, StatusOf(b, g)) {
      assert FindingChain(db.events, g, StatusOf(db, g));
    }
    forall q: nat ensures RunChain(b.events, q, RunStatusOf(b, q)) {
      assert RunChain(db.events, q, RunStatusOf(db, q));
    }
    forall q: nat ensures Finals(b.requests, q) <= Package(q, DispositionOf(b.events, q)) {
      RunMoveKeepsFinals(db, r, to, q);
    }
    forall q | 0 <= q < |b.runs|
      ensures Stamps(b.runs[q], EverClassifying(b.events, q), b.clock)
      ensures db.runs[q].startedAt.Some? ==> b.runs[q].startedAt == db.runs[q].startedAt
      ensures db.runs[q].completedAt.Some? ==> b.runs[q].completedAt == db.runs[q].completedAt
    {
      RunMoveStamps(db, r, to, q);
    }
  }

  lemma FindingInsertIsLawful(db: Db, finding: Finding, r: nat)
    requires Ledger(db) && FindByPrint(db.findings, finding.repo, finding.fingerprint).None?
    ensures Lawful(db, InsertFinding(db, finding, r))
  {
    var b := InsertFinding(db, finding, r);
    assert b.events[..|b.events| - 1] == db.events;
    forall g: nat ensures FindingChain(b.events, g, StatusOf(b, g)) {
      assert FindingChain(db.events, g, StatusOf(db, g));
    }
    forall q: nat ensures RunChain(b.events, q, RunStatusOf(b, q)) {
      assert RunChain(db.events, q, RunStatusOf(db, q));
    }
    forall q | 0 <= q < |b.runs| ensures EverClassifying(b.events, q) <==> EverClassifying(db.events, q) {
      if EverClassifying(db.events, q) {
        var i :| 0 <= i < |db.events| && OfRun(db.events[i], q) && db.events[i].to == Classifying;
        assert b.events[i] == db.events[i];
      }
    }
  }

  /** No event can name a run that does not exist yet. */
  lemma {:induction false} QueuedRunHasNoEvents(events: seq<Event>, r: nat)
    requires RunChain(events, r, Queued)
    ensures !EverClassifying(events, r)
  {
    if events != [] {
      QueuedRunHasNoEvents(events[..|events| - 1], r);
    }
  }

  lemma RunInsertIsLawful(
    db: Db, runType: RunType, repo: nat, base: string, head: string, target: Option<nat>, key: string)
    requires Ledger(db) && InsertRun(db, runType, repo, base, head, target, key).Some?
    ensures Lawful(db, InsertRun(db, runType, repo, base, head, target, key).value)
  {
    var b := InsertRun(db, runType, repo, base, head, target, key).value;
    forall g: nat ensures FindingChain(b.events, g, StatusOf(b, g)) {
      assert FindingChain(db.events, g, StatusOf(db, g));
    }
    forall q: nat ensures RunChain(b.events, q, RunStatusOf(b, q)) {
      assert RunChain(db.events, q, RunStatusOf(db, q));
    }
    assert RunChain(db.events, |db.runs|, RunStatusOf(db, |db.runs|));
    QueuedRunHasNoEvents(db.events, |db.runs|);
  }
}
