/**
 The database and the job queue's enqueue call as one mutable object, and the writes that every
 transaction is made of. Each method is proved against the function on `Db` that specifies it.
 */
module Stores {
  import opened Options
  import opened Records
  import opened StateMachines
  import opened Transitions
  import opened Handlers

  /** A call returns or throws; what throws is passed on by the caller. */
  datatype Outcome = Done | Threw {
    predicate IsFailure() { Threw? }
    function PropagateFailure(): Outcome requires Threw? { Threw }
  }

  /** The writes of one transaction so far: it throws exactly where its specification does. */
  ghost predicate Wrote(o: Outcome, after: Db, next: Option<Db>) {
    if next.None? then o == Threw else o == Done && after == next.value
  }

  class Store {
    var clock: nat
    var findings: seq<Finding>
    var locations: seq<Location>
    var runs: seq<Run>
    var snapshots: set<nat>
    var classified: set<nat>
    var validations: seq<Validation>
    var remediations: map<nat, Remediation>
    var decisions: seq<Decision>
    var executions: seq<Execution>
    var events: seq<Event>
    var requests: seq<Request>

    /** How many more effects are committed before the process stops. */
    var left: nat

    function Rows(): Db
      reads this
    {
      Db(clock, findings, locations, runs, snapshots, classified, validations, remediations, decisions, executions,
         events, requests)
    }

    ghost function Now(): Progress
      reads this
    {
      Progress(Rows(), left, true)
    }

    ghost function After(o: Outcome): Progress
      reads this
    {
      Progress(Rows(), left, o.Done?)
    }

    constructor (left: nat)
      ensures Rows() == EMPTY && this.left == left
    {
      clock, findings, locations, runs, snapshots, classified := 0, [], [], [], {}, {};
      validations, remediations, decisions, executions, events, requests := [], map[], [], [], [], [];
      this.left := left;
    }

    method Restore(saved: Db)
      modifies this
      ensures Rows() == saved && left == old(left)
    {
      RestoreRows(saved);
      RestoreLogs(saved);
    }

    method RestoreRows(saved: Db)
      modifies this`findings, this`runs, this`snapshots, this`classified, this`remediations
      ensures findings == saved.findings && runs == saved.runs && snapshots == saved.snapshots
      ensures classified == saved.classified && remediations == saved.remediations
    {
      findings, runs, remediations := saved.findings, saved.runs, saved.remediations;
      snapshots, classified := saved.snapshots, saved.classified;
    }

    method RestoreLogs(saved: Db)
      modifies this`clock, this`locations, this`validations, this`decisions, this`executions, this`events,
               this`requests
      ensures clock == saved.clock && locations == saved.locations && validations == saved.validations
      ensures decisions == saved.decisions && executions == saved.executions
      ensures events == saved.events && requests == saved.requests
    {
      clock, locations, validations := saved.clock, saved.locations, saved.validations;
      decisions, executions := saved.decisions, saved.executions;
      events, requests := saved.events, saved.requests;
    }

    /** The end of a transaction: its writes stay only if nothing threw and the process got to commit. */
    method EndTransaction(saved: Db, o: Outcome) returns (r: Outcome)
      modifies this
      ensures After(r)
           == Commit(Progress(saved, old(left), true), if o.Done? then Some(old(Rows())) else None)
    {
      if o.Done? && left > 0 {
        left := left - 1;
        return Done;
      }
      Restore(saved);
      return Threw;
    }

    method Enqueue(request: Request) returns (o: Outcome)
      modifies this
      ensures After(o) == CommitRequest(old(Now()), request)
    {
      if left == 0 { return Threw; }
      requests, left := requests + [request], left - 1;
      return Done;
    }

    // -------------------------------------------------------------- inside a transaction

    /** `transitionFindingStatus`: the only writer of a finding's status after its creation. */
    method TransitionFindingStatus(f: nat, to: FindingStatus, cause: Option<nat>) returns (o: Outcome)
      modifies this`findings, this`events
      ensures Wrote(o, Rows(), TransitionFinding(old(Rows()), f, to, cause))
      ensures o.Threw? ==> Rows() == old(Rows())
    {
      if f >= |findings| { return Threw; }
      var before := findings[f].status;
      if !FindingEdge(before, to) { return Threw; }
      findings := findings[f := findings[f].(status := to)];
      events := events + [FindingMoved(f, cause, Some(before), to)];
      return Done;
    }

    /** `transitionRunStatus`: the only writer of a run's status. */
    method TransitionRunStatus(r: nat, to: RunStatus) returns (o: Outcome)
      modifies this`runs, this`events
      ensures Wrote(o, Rows(), TransitionRun(old(Rows()), r, to))
      ensures o.Threw? ==> Rows() == old(Rows())
    {
      if r >= |runs| { return Threw; }
      var run := runs[r];
      if !RunEdge(run.status, to) { return Threw; }
      var startedAt, completedAt := run.startedAt, run.completedAt;
      if startedAt.None? && to == Classifying { startedAt := Some(clock); }
      if to in TERMINAL_STATUSES { completedAt := Some(clock); }
      runs := runs[r := run.(status := to, startedAt := startedAt, completedAt := completedAt)];
      events := events + [RunMoved(r, run.status, to)];
      return Done;
    }

    method CreateFinding(row: Finding, r: nat) returns (f: nat)
      modifies this`findings, this`events
      ensures f == |old(findings)| && Rows() == InsertFinding(old(Rows()), row, r)
    {
      f := |findings|;
      findings := findings + [row.(status := Suspected)];
      events := events + [FindingMoved(f, Some(r), None, Suspected)];
    }

    method CreateRun(
        runType: RunType, repo: nat, baseSha: string, headSha: string, target: Option<nat>, key: string)
      returns (o: Outcome)
      modifies this`runs
      ensures Wrote(o, Rows(), InsertRun(old(Rows()), runType, repo, baseSha, headSha, target, key))
    {
      if KeyTaken(Rows(), key) { return Threw; }
      runs := runs + [Run(runType, repo, Queued, baseSha, headSha, target, key, None, None)];
      return Done;
    }

    /** A transaction that only moves the run. */
    method MoveRun(r: nat, to: RunStatus) returns (o: Outcome)
      modifies this
      ensures After(o) == CommitRun(old(Now()), r, to)
    {
      var saved := Rows();
      o := TransitionRunStatus(r, to);
      o := EndTransaction(saved, o);
    }
  }
}
