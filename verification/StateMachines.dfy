/** The two transition tables, and what they allow a whole history to look like. */
module StateMachines {
  import opened Records

  function NextFindingStatuses(s: FindingStatus): seq<FindingStatus> {
    match s
    case Suspected => [SourceConfirmed, Dismissed, NotReproduced]
    case SourceConfirmed => [ValidationQueued, FixPending, Dismissed, AcceptedRisk]
    case ValidationQueued => [Confirmed, NotReproduced, Inconclusive]
    case Confirmed => [FixPending, AcceptedRisk]
    case NotReproduced => [Dismissed, AcceptedRisk, FixPending, ValidationQueued]
    case Inconclusive => [ValidationQueued, Dismissed, AcceptedRisk, FixPending]
    case FixPending => [FixSubmitted, AcceptedRisk, Dismissed]
    case FixSubmitted => [Retesting]
    case Retesting => [VerifiedFixed, StillExploitable, Inconclusive]
    case StillExploitable => [FixPending]
    case VerifiedFixed => []
    case AcceptedRisk => []
    case Dismissed => []
  }

  function NextRunStatuses(s: RunStatus): seq<RunStatus> {
    match s
    case Queued => [Classifying, Failed, Cancelled]
    case Classifying => [SourceReviewRunning, Failed, Cancelled]
    case SourceReviewRunning => [SourceReviewCompleted, Failed, Cancelled]
    case SourceReviewCompleted =>
      [ValidationWaitingForTarget, ValidationRunning, AwaitingFix, Blocked, Completed, Failed, Cancelled]
    case ValidationWaitingForTarget => [ValidationRunning, Failed, Cancelled]
    case ValidationRunning => [AwaitingFix, Blocked, Completed, Failed, Cancelled]
    case AwaitingFix => [FixVerificationRunning, Cancelled]
    case FixVerificationRunning => [Completed, Blocked, AwaitingFix, Failed, Cancelled]
    case Completed => []
    case Blocked => []
    case Failed => []
    case Cancelled => []
  }

  predicate FindingEdge(a: FindingStatus, b: FindingStatus) { b in NextFindingStatuses(a) }

  predicate RunEdge(a: RunStatus, b: RunStatus) { b in NextRunStatuses(a) }

  predicate IsRunTerminal(s: RunStatus) { NextRunStatuses(s) == [] }

  /** The list of terminal statuses that the run transition code keeps for its timestamps. */
  const TERMINAL_STATUSES := [Completed, Blocked, Failed, Cancelled]

  lemma TerminalListAgreesWithTable(s: RunStatus)
    ensures s in TERMINAL_STATUSES <==> IsRunTerminal(s)
    ensures IsRunTerminal(s) <==> !exists t :: RunEdge(s, t)
  {
    if !IsRunTerminal(s) {
      assert RunEdge(s, NextRunStatuses(s)[0]);
    }
  }

  // ---------------------------------------------------------------- the tables by where a move ends

  /** The statuses that lead to this one. A dismissal and an accepted risk come only before a fix is submitted. */
  function FindingSources(t: FindingStatus): set<FindingStatus> {
    match t
    case Suspected => {}
    case SourceConfirmed => {Suspected}
    case ValidationQueued => {SourceConfirmed, NotReproduced, Inconclusive}
    case Confirmed => {ValidationQueued}
    case NotReproduced => {Suspected, ValidationQueued}
    case Inconclusive => {ValidationQueued, Retesting}
    case FixPending => {SourceConfirmed, Confirmed, NotReproduced, Inconclusive, StillExploitable}
    case FixSubmitted => {FixPending}
    case Retesting => {FixSubmitted}
    case VerifiedFixed => {Retesting}
    case StillExploitable => {Retesting}
    case AcceptedRisk => {SourceConfirmed, Confirmed, NotReproduced, Inconclusive, FixPending}
    case Dismissed => {Suspected, SourceConfirmed, NotReproduced, Inconclusive, FixPending}
  }

  /** Any run that has not ended can be cancelled, and fails unless it awaits a fix. */
  function RunSources(t: RunStatus): set<RunStatus> {
    match t
    case Queued => {}
    case Classifying => {Queued}
    case SourceReviewRunning => {Classifying}
    case SourceReviewCompleted => {SourceReviewRunning}
    case ValidationWaitingForTarget => {SourceReviewCompleted}
    case ValidationRunning => {SourceReviewCompleted, ValidationWaitingForTarget}
    case AwaitingFix | Blocked | Completed => {SourceReviewCompleted, ValidationRunning, FixVerificationRunning}
    case FixVerificationRunning => {AwaitingFix}
    case Failed => AllOpen() - {AwaitingFix}
    case Cancelled => AllOpen()
  }

  function AllOpen(): set<RunStatus> {
    {Queued, Classifying, SourceReviewRunning, SourceReviewCompleted, ValidationWaitingForTarget, ValidationRunning,
     AwaitingFix, FixVerificationRunning}
  }

  lemma FindingEdgesBySource(a: FindingStatus, b: FindingStatus)
    ensures FindingEdge(a, b) <==> a in FindingSources(b)
  {
    match a
    case Suspected =>
    case SourceConfirmed =>
    case ValidationQueued =>
    case Confirmed =>
    case NotReproduced =>
    case Inconclusive =>
    case FixPending =>
    case FixSubmitted | Retesting | StillExploitable =>
    case VerifiedFixed | AcceptedRisk | Dismissed =>
  }

  lemma RunEdgesBySource(a: RunStatus, b: RunStatus)
    ensures RunEdge(a, b) <==> a in RunSources(b)
  {
    if b in {Failed, Cancelled} { StopsBySource(a, b); } else { AdvancesBySource(a, b); }
    hide RunEdge, RunSources;
  }

  lemma StopsBySource(a: RunStatus, b: RunStatus)
    requires b in {Failed, Cancelled}
    ensures RunEdge(a, b) <==> a in RunSources(b)
  {}

  lemma AdvancesBySource(a: RunStatus, b: RunStatus)
    requires b !in {Failed, Cancelled}
    ensures RunEdge(a, b) <==> a in RunSources(b)
  {}

  // ---------------------------------------------------------------- histories

  ghost predicate FindingHistory(h: seq<FindingStatus>) {
    h != [] && h[0] == Suspected && forall i :: 0 < i < |h| ==> FindingEdge(h[i - 1], h[i])
  }

  ghost predicate RunHistory(h: seq<RunStatus>) {
    h != [] && h[0] == Queued && forall i :: 0 < i < |h| ==> RunEdge(h[i - 1], h[i])
  }

  function Visits<S(==)>(h: seq<S>, s: S): nat {
    if h == [] then 0 else Visits(h[..|h| - 1], s) + if h[|h| - 1] == s then 1 else 0
  }

  /** How many further transitions a finding can make without another validation or fix. */
  function FindingLeft(s: FindingStatus): nat {
    match s
    case FixPending => 4
    case FixSubmitted => 3
    case Suspected | ValidationQueued | Retesting => 2
    case SourceConfirmed | Confirmed | NotReproduced | Inconclusive | StillExploitable => 1
    case VerifiedFixed | AcceptedRisk | Dismissed => 0
  }

  function RunLeft(s: RunStatus): nat {
    match s
    case Queued => 7
    case Classifying => 6
    case SourceReviewRunning => 5
    case SourceReviewCompleted => 4
    case ValidationWaitingForTarget => 3
    case ValidationRunning | FixVerificationRunning => 2
    case AwaitingFix => 1
    case Completed | Blocked | Failed | Cancelled => 0
  }

  lemma FindingMoveSpends(a: FindingStatus, b: FindingStatus)
    requires FindingEdge(a, b)
    ensures FindingLeft(b) + 1
         <= FindingLeft(a) + (if b == ValidationQueued then 2 else 0) + (if b == FixPending then 4 else 0)
  {}

  lemma RunMoveSpends(a: RunStatus, b: RunStatus)
    requires RunEdge(a, b)
    ensures RunLeft(b) + 1 <= RunLeft(a) + if b == FixVerificationRunning then 2 else 0
  {}

  /** The rows of the table that lead to the last three stations of a verified fix. */
  lemma WaysToVerifiedFixed(a: FindingStatus)
    ensures FindingEdge(a, VerifiedFixed) <==> a == Retesting
    ensures FindingEdge(a, Retesting) <==> a == FixSubmitted
    ensures FindingEdge(a, FixSubmitted) <==> a == FixPending
  {}

  /** A finding's history is bounded by how often it was queued for validation and owed a fix. */
  lemma {:induction false} FindingHistoryBound(h: seq<FindingStatus>)
    requires FindingHistory(h)
    ensures |h| - 1 + FindingLeft(h[|h| - 1]) <= 2 + 2 * Visits(h, ValidationQueued) + 4 * Visits(h, FixPending)
  {
    if |h| > 1 {
      hide FindingEdge, FindingLeft;
      FindingHistoryBound(h[..|h| - 1]);
      FindingMoveSpends(h[|h| - 2], h[|h| - 1]);
    } else {
      assert h[..|h| - 1] == [];
    }
  }

  /** A run's history is bounded by how often it entered fix verification. */
  lemma {:induction false} RunHistoryBound(h: seq<RunStatus>)
    requires RunHistory(h)
    ensures |h| - 1 + RunLeft(h[|h| - 1]) <= 7 + 2 * Visits(h, FixVerificationRunning)
  {
    if |h| > 1 {
      RunHistoryBound(h[..|h| - 1]);
      hide RunEdge, RunLeft;
      RunMoveSpends(h[|h| - 2], h[|h| - 1]);
    } else {
      assert h[..|h| - 1] == [];
    }
  }

  /** The only way into verified_fixed: a fix was owed, submitted and retested, with nothing in between. */
  lemma VerifiedFixedTail(h: seq<FindingStatus>)
    requires FindingHistory(h) && h[|h| - 1] == VerifiedFixed
    ensures |h| >= 4 && h[|h| - 4..] == [FixPending, FixSubmitted, Retesting, VerifiedFixed]
  {
    hide FindingEdge;
    var n := |h|;
    WaysToVerifiedFixed(h[n - 2]);
    WaysToVerifiedFixed(h[n - 3]);
    WaysToVerifiedFixed(h[n - 4]);
  }
}
