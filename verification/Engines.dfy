/** Persisting what the two engines report: DeepSec (source) and Strix (runtime). */
module Engines {
  import opened Collections
  import opened Options
  import opened Records
  import opened Transitions
  import opened Remediations

  datatype Report = Report(
    fingerprint: string, severity: Severity, confidence: Confidence, category: string, filePath: string,
    verdict: Option<Revalidation>)

  /** The row with this repository and fingerprint, which the database keeps unique. */
  function FindByPrint(findings: seq<Finding>, repo: nat, fingerprint: string): (f: Option<nat>)
    ensures f.Some? ==> f.value < |findings| && findings[f.value].repo == repo
                        && findings[f.value].fingerprint == fingerprint
    ensures f.None? ==> forall i | 0 <= i < |findings| ::
                          findings[i].repo != repo || findings[i].fingerprint != fingerprint
  {
    FindLast(findings, (x: Finding) => x.repo == repo && x.fingerprint == fingerprint)
  }

  datatype Upserted = Upserted(db: Db, id: nat)

  function UpsertFinding(db: Db, repo: nat, r: nat, headSha: string, report: Report): Option<Upserted> {
    match FindByPrint(db.findings, repo, report.fingerprint)
    case None =>
      var id := |db.findings|;
      var row := Finding(repo, report.fingerprint, report.severity, report.confidence, report.category,
                         Suspected, headSha, headSha);
      var db1 := InsertFinding(db, row, r).(locations := db.locations + [Location(id, report.filePath, headSha)]);
      var db2 :- if report.confidence == HighConfidence
                 then TransitionFinding(db1, id, SourceConfirmed, Some(r)) else Some(db1);
      Some(Upserted(db2, id))
    case Some(id) =>
      Some(Upserted(
        db.(findings := db.findings[id := db.findings[id].(lastSeen := headSha)],
            locations := db.locations + [Location(id, report.filePath, headSha)]), id))
  }

  datatype Persisted = Persisted(db: Db, ids: seq<nat>)

  function UpsertAll(db: Db, repo: nat, r: nat, headSha: string, reports: seq<Report>): Option<Persisted> {
    if reports == [] then Some(Persisted(db, [])) else
    var rest :- UpsertAll(db, repo, r, headSha, reports[..|reports| - 1]);
    var last :- UpsertFinding(rest.db, repo, r, headSha, reports[|reports| - 1]);
    Some(Persisted(last.db, rest.ids + [last.id]))
  }

  function PersistDeepSec(
    db: Db, repo: nat, r: nat, headSha: string, reports: seq<Report>, cost: real): Option<Persisted>
  {
    UpsertAll(db.(executions := db.executions + [Execution(r, cost)]), repo, r, headSha, reports)
  }

  /** Whether the caller leaves the verdict to decide, or decides itself (None: no transition). */
  datatype Override = ByVerdict | Forced(status: Option<FindingStatus>)

  function VerdictToFindingStatus(verdict: Verdict): Option<FindingStatus> {
    match verdict
    case Exploited => Some(Confirmed)
    case NotExploited => Some(NotReproduced)
    case NoConclusion => Some(Inconclusive)
    case MissionFailed => None
  }

  function PersistStrix(
    db: Db, r: nat, f: nat, build: string, verdict: Verdict, cost: real, override: Override): Option<Db>
  {
    if f >= |db.findings| then None else
    var db1 := db.(executions := db.executions + [Execution(r, cost)],
                   validations := db.validations + [Validation(f, verdict, build)]);
    var next := if override.Forced? then override.status else VerdictToFindingStatus(verdict);
    match next
    case None => Some(db1)
    case Some(to) => TransitionFinding(db1, f, to, Some(r))
  }

  function ResolveFindingStatus(verdict: Verdict, buildMatches: bool, testComplete: bool): Option<FindingStatus> {
    if verdict == MissionFailed then None
    else if !buildMatches || !testComplete then Some(Inconclusive)
    else VerdictToFindingStatus(verdict)
  }

  /** A mission against a known finding: evidence about another build is never conclusive. */
  function CorrelateKnown(
    db: Db, r: nat, f: nat, expected: string, build: string, testComplete: bool, verdict: Verdict, cost: real)
    : Option<Db>
  {
    PersistStrix(db, r, f, build, verdict, cost,
                 Forced(ResolveFindingStatus(verdict, CommitMatchesBuild(expected, build), testComplete)))
  }

  function WalkToConfirmed(db: Db, f: nat, r: nat): Option<Db> {
    var db1 :- TransitionFinding(db, f, SourceConfirmed, Some(r));
    var db2 :- TransitionFinding(db1, f, ValidationQueued, Some(r));
    TransitionFinding(db2, f, Confirmed, Some(r))
  }

  /** An exploratory mission: only a confirmed discovery is accepted, and a known one is extended. */
  function CorrelateExploratory(
    db: Db, repo: nat, r: nat, expected: string, build: string, verdict: Verdict, discovery: Option<Report>,
    located: bool, cost: real): Option<Db>
  {
    if verdict != Exploited || discovery.None? then None else
    var report := discovery.value;
    var db1 := db.(executions := db.executions + [Execution(r, cost)]);
    match FindByPrint(db.findings, repo, report.fingerprint)
    case Some(id) =>
      Some(db1.(findings := db.findings[id := db.findings[id].(lastSeen := expected)],
                validations := db.validations + [Validation(id, Exploited, build)]))
    case None =>
      var id := |db.findings|;
      var row := Finding(repo, report.fingerprint, report.severity, report.confidence, report.category,
                         Suspected, expected, expected);
      var places := if located then [Location(id, report.filePath, expected)] else [];
      var db2 := InsertFinding(db1, row, r).(locations := db.locations + places);
      var db3 :- WalkToConfirmed(db2, id, r);
      Some(db3.(validations := db3.validations + [Validation(id, Exploited, build)]))
  }
}
