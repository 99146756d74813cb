/**
 The tables of the control plane that the verification lifecycle reads and writes. A table whose
 rows are only ever appended is a sequence, and the id of a row is its position.
 */
module Records {
  import opened Options

  datatype FindingStatus =
    | Suspected | SourceConfirmed | ValidationQueued | Confirmed | NotReproduced | Inconclusive | FixPending
    | FixSubmitted | Retesting | StillExploitable | VerifiedFixed | AcceptedRisk | Dismissed

  datatype RunStatus =
    | Queued | Classifying | SourceReviewRunning | SourceReviewCompleted | ValidationWaitingForTarget
    | ValidationRunning | AwaitingFix | FixVerificationRunning | Completed | Blocked | Failed | Cancelled

  datatype RunType = ChangeReview | RepositoryScan | FindingValidation | FixVerification
  datatype Severity = Critical | High | Medium | Low | Info
  datatype Confidence = HighConfidence | MediumConfidence | LowConfidence

  /** What a Strix mission reports: confirmed, not_reproduced, inconclusive or failed. */
  datatype Verdict = Exploited | NotExploited | NoConclusion | MissionFailed

  /** What a DeepSec revalidation says about the finding it looked at again. */
  datatype Revalidation = TruePositive | FalsePositive | Unknown

  /** pending, passed, failed, not_applicable, inconclusive. */
  datatype CheckOutcome = Pending | Passed | NotPassed | NotApplicable | Undecided

  /** verified_fixed, still_exploitable, partially_fixed, inconclusive, verification_failed. */
  datatype VerificationOutcome = Fixed | Exploitable | PartiallyFixed | OpenOutcome | VerificationFailed

  datatype Finding = Finding(
    repo: nat, fingerprint: string, severity: Severity, confidence: Confidence, category: string,
    status: FindingStatus, firstSeen: string, lastSeen: string)

  datatype Location = Location(finding: nat, filePath: string, commit: string)

  datatype Run = Run(
    runType: RunType, repo: nat, status: RunStatus, baseSha: string, headSha: string, target: Option<nat>,
    key: string, startedAt: Option<nat>, completedAt: Option<nat>)

  datatype Validation = Validation(finding: nat, verdict: Verdict, build: string)

  /** `final` is None while the fix waits for its verification. */
  datatype Remediation = Remediation(
    fixCommit: string, source: CheckOutcome, runtime: CheckOutcome, final: Option<VerificationOutcome>)

  datatype Decision = Decision(run: nat, finding: nat, escalate: bool)
  datatype Execution = Execution(run: nat, cost: real)

  /** One row of the audit log. A finding's first event has no previous state. */
  datatype Event =
    | FindingMoved(finding: nat, cause: Option<nat>, before: Option<FindingStatus>, after: FindingStatus)
    | RunMoved(run: nat, from: RunStatus, to: RunStatus)

  /** The calls made to the job queue and to the webhook fan-out, in the order they were made. */
  datatype Request =
    | PrepareJob(run: nat)
    | ClassifyJob(run: nat)
    | DeepSecJob(run: nat)
    | RoutingJob(run: nat)
    | StrixJob(run: nat, finding: nat)
    | RevalidationJob(run: nat, finding: nat)
    | RetestJob(run: nat, finding: nat)
    | ReceiptJob(run: nat)
    | CompletedWebhook(run: nat, disposition: RunStatus)
    | BlockedWebhook(run: nat)

  datatype Db = Db(
    clock: nat,
    findings: seq<Finding>,
    locations: seq<Location>,
    runs: seq<Run>,
    snapshots: set<nat>,
    classified: set<nat>,
    validations: seq<Validation>,
    remediations: map<nat, Remediation>,
    decisions: seq<Decision>,
    executions: seq<Execution>,
    events: seq<Event>,
    requests: seq<Request>)

  const EMPTY := Db(0, [], [], [], {}, {}, [], map[], [], [], [], [])

  /** Some Validation row of the finding carries a confirmed exploit. */
  predicate ConfirmedIn(validations: seq<Validation>, f: nat) {
    exists i | 0 <= i < |validations| :: validations[i].finding == f && validations[i].verdict == Exploited
  }

  predicate EverConfirmed(db: Db, f: nat) { ConfirmedIn(db.validations, f) }

  /** The findings that some audit event of the run refers to. */
  function Touched(events: seq<Event>, r: nat): set<nat> {
    set i | 0 <= i < |events| && events[i].FindingMoved? && events[i].cause == Some(r) :: events[i].finding
  }
}
