/** Submitting a fix, starting its verification, and applying the verdict. */
module Remediations {
  import opened Options
  import opened Records
  import opened Text
  import opened Transitions

  /** An empty build id never matches; otherwise the comparison ignores case and outer blanks. */
  predicate CommitMatchesBuild(commit: string, build: string) {
    build != "" && Lower(Trim(commit)) == Lower(Trim(build))
  }

  function DetermineVerificationOutcome(
    sourcePassed: Option<bool>, retestRequired: bool, retestPassed: Option<bool>, buildMatches: bool,
    operationalFailure: bool): VerificationOutcome
  {
    if operationalFailure || sourcePassed.None? then VerificationFailed
    else if !retestRequired then (if sourcePassed.value then Fixed else Exploitable)
    else if !buildMatches || retestPassed.None? then OpenOutcome
    else if sourcePassed.value && retestPassed.value then Fixed
    else if !sourcePassed.value && !retestPassed.value then Exploitable
    else PartiallyFixed
  }

  function ToCheckOutcome(passed: Option<bool>): CheckOutcome {
    match passed
    case None => Undecided
    case Some(b) => if b then Passed else NotPassed
  }

  function ToFindingStatus(outcome: VerificationOutcome): Option<FindingStatus> {
    match outcome
    case Fixed => Some(VerifiedFixed)
    case Exploitable => Some(StillExploitable)
    case PartiallyFixed | OpenOutcome => Some(Inconclusive)
    case VerificationFailed => None
  }

  const HOP_TO_FIX_PENDING_FROM := [SourceConfirmed, Confirmed, NotReproduced, Inconclusive, StillExploitable]

  function SubmitFix(db: Db, f: nat, sha: string): Option<Db> {
    if f >= |db.findings| then None else
    var db1 :- if db.findings[f].status in HOP_TO_FIX_PENDING_FROM
               then TransitionFinding(db, f, FixPending, None) else Some(db);
    var db2 :- TransitionFinding(db1, f, FixSubmitted, None);
    var runtime := if EverConfirmed(db2, f) then Pending else NotApplicable;
    Some(db2.(remediations := db2.remediations[f := Remediation(sha, Pending, runtime, None)]))
  }

  function StartFixVerification(db: Db, f: nat, target: Option<nat>, key: string): Option<Db> {
    if f >= |db.findings| || f !in db.remediations then None else
    var finding := db.findings[f];
    var db1 :- InsertRun(
      db, FixVerification, finding.repo, finding.lastSeen, db.remediations[f].fixCommit, target, key);
    TransitionFinding(db1, f, Retesting, Some(|db.runs|))
  }

  function CompleteFixVerification(
    db: Db, f: nat, r: nat, sourcePassed: Option<bool>, retestRequired: bool, retestPassed: Option<bool>,
    buildMatches: bool, operationalFailure: bool): Option<Db>
  {
    if f !in db.remediations then None else
    var outcome :=
      DetermineVerificationOutcome(sourcePassed, retestRequired, retestPassed, buildMatches, operationalFailure);
    var row := db.remediations[f].(
      source := ToCheckOutcome(sourcePassed),
      runtime := if retestRequired then ToCheckOutcome(retestPassed) else NotApplicable,
      final := Some(outcome));
    var db1 := db.(remediations := db.remediations[f := row]);
    match ToFindingStatus(outcome)
    case None => Some(db1)
    case Some(to) => TransitionFinding(db1, f, to, Some(r))
  }
}
