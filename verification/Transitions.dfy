/**
 The two sanctioned status writers. Each looks the row up, checks the table, writes the row and
 appends one audit event; an unknown row or an illegal edge throws before anything is written.
 */
module Transitions {
  import opened Options
  import opened Records
  import opened StateMachines

  function TransitionFinding(db: Db, f: nat, to: FindingStatus, cause: Option<nat>): Option<Db> {
    if f < |db.findings| && FindingEdge(db.findings[f].status, to) then
      Some(db.(findings := db.findings[f := db.findings[f].(status := to)],
               events := db.events + [FindingMoved(f, cause, Some(db.findings[f].status), to)]))
    else
      None
  }

  function Stamped(run: Run, to: RunStatus, now: nat): Run {
    run.(status := to,
         startedAt := if run.startedAt.None? && to == Classifying then Some(now) else run.startedAt,
         completedAt := if to in TERMINAL_STATUSES then Some(now) else run.completedAt)
  }

  function TransitionRun(db: Db, r: nat, to: RunStatus): Option<Db> {
    if r < |db.runs| && RunEdge(db.runs[r].status, to) then
      Some(db.(runs := db.runs[r := Stamped(db.runs[r], to, db.clock)],
               events := db.events + [RunMoved(r, db.runs[r].status, to)]))
    else
      None
  }

  /** Inserts a finding, which starts as suspected, together with its creation event. */
  function InsertFinding(db: Db, finding: Finding, r: nat): Db {
    db.(findings := db.findings + [finding.(status := Suspected)],
        events := db.events + [FindingMoved(|db.findings|, Some(r), None, Suspected)])
  }

  predicate KeyTaken(db: Db, key: string) {
    exists i | 0 <= i < |db.runs| :: db.runs[i].key == key
  }

  /** Inserts a run, which starts as queued. The idempotency key column is unique. */
  function InsertRun(
    db: Db, runType: RunType, repo: nat, baseSha: string, headSha: string, target: Option<nat>, key: string)
    : Option<Db>
  {
    if KeyTaken(db, key) then
      None
    else
      Some(db.(runs := db.runs + [Run(runType, repo, Queued, baseSha, headSha, target, key, None, None)]))
  }

  function Enqueue(db: Db, request: Request): Db {
    db.(requests := db.requests + [request])
  }
}
