/** The transactions of the engines, the routing policy and the remediation services, write by write. */
module LifecycleTransactions {
  import opened Options
  import opened Records
  import opened Remediations
  import opened Engines
  import opened Handlers
  import opened Stores
  import Transitions

  // ---------------------------------------------------------------- remediation

  method SubmitFixWrites(store: Store, f: nat, sha: string) returns (o: Outcome)
    modifies store
    ensures Wrote(o, store.Rows(), Remediations.SubmitFix(old(store.Rows()), f, sha)) && store.left == old(store.left)
  {
    if f >= |store.findings| { return Threw; }
    if store.findings[f].status in HOP_TO_FIX_PENDING_FROM {
      :- store.TransitionFindingStatus(f, FixPending, None);
    }
    :- store.TransitionFindingStatus(f, FixSubmitted, None);
    var requiresRuntimeRetest := EverConfirmed(store.Rows(), f);
    store.remediations := store.remediations[
      f := Remediation(sha, Pending, if requiresRuntimeRetest then Pending else NotApplicable, None)];
    return Done;
  }

  method SubmitFix(store: Store, f: nat, sha: string) returns (o: Outcome)
    modifies store
    ensures store.After(o) == Commit(old(store.Now()), Remediations.SubmitFix(old(store.Rows()), f, sha))
  {
    var saved := store.Rows();
    o := SubmitFixWrites(store, f, sha);
    hide Remediations.SubmitFix;
    o := store.EndTransaction(saved, o);
  }

  method StartFixVerificationWrites(store: Store, f: nat, target: Option<nat>, key: string) returns (o: Outcome)
    modifies store
    ensures Wrote(o, store.Rows(), Remediations.StartFixVerification(old(store.Rows()), f, target, key))
    ensures store.left == old(store.left)
  {
    if f >= |store.findings| || f !in store.remediations { return Threw; }
    var finding, remediation, r := store.findings[f], store.remediations[f], |store.runs|;
    :- store.CreateRun(FixVerification, finding.repo, finding.lastSeen, remediation.fixCommit, target, key);
    :- store.TransitionFindingStatus(f, Retesting, Some(r));
    return Done;
  }

  method StartFixVerification(store: Store, f: nat, target: Option<nat>, key: string) returns (o: Outcome)
    modifies store
    ensures store.After(o)
         == Commit(old(store.Now()), Remediations.StartFixVerification(old(store.Rows()), f, target, key))
  {
    var saved := store.Rows();
    o := StartFixVerificationWrites(store, f, target, key);
    hide Remediations.StartFixVerification;
    o := store.EndTransaction(saved, o);
  }

  method CompleteFixVerificationWrites(
      store: Store, f: nat, r: nat, sourcePassed: Option<bool>, retestRequired: bool, retestPassed: Option<bool>,
      buildMatches: bool, operationalFailure: bool)
    returns (o: Outcome)
    modifies store
    ensures Wrote(o, store.Rows(),
                  Remediations.CompleteFixVerification(old(store.Rows()), f, r, sourcePassed, retestRequired,
                                                       retestPassed, buildMatches, operationalFailure))
    ensures store.left == old(store.left)
  {
    var outcome :=
      DetermineVerificationOutcome(sourcePassed, retestRequired, retestPassed, buildMatches, operationalFailure);
    hide DetermineVerificationOutcome;
    if f !in store.remediations { return Threw; }
    var runtime := if retestRequired then ToCheckOutcome(retestPassed) else NotApplicable;
    store.remediations := store.remediations[
      f := store.remediations[f].(source := ToCheckOutcome(sourcePassed), runtime := runtime, final := Some(outcome))];
    var status := ToFindingStatus(outcome);
    if status.Some? {
      :- store.TransitionFindingStatus(f, status.value, Some(r));
    }
    return Done;
  }

  method CompleteFixVerification(
      store: Store, f: nat, r: nat, sourcePassed: Option<bool>, retestRequired: bool, retestPassed: Option<bool>,
      buildMatches: bool, operationalFailure: bool)
    returns (o: Outcome)
    modifies store
    ensures store.After(o)
         == Commit(old(store.Now()),
                   Remediations.CompleteFixVerification(old(store.Rows()), f, r, sourcePassed, retestRequired,
                                                        retestPassed, buildMatches, operationalFailure))
  {
    var saved := store.Rows();
    o := CompleteFixVerificationWrites(
      store, f, r, sourcePassed, retestRequired, retestPassed, buildMatches, operationalFailure);
    hide Remediations.CompleteFixVerification;
    o := store.EndTransaction(saved, o);
  }

  // ---------------------------------------------------------------- DeepSec

  method UpsertFinding(store: Store, repo: nat, r: nat, headSha: string, report: Report)
    returns (o: Outcome, id: nat)
    modifies store
    ensures var next := Engines.UpsertFinding(old(store.Rows()), repo, r, headSha, report);
            if next.None? then o == Threw else o == Done && store.Rows() == next.value.db && id == next.value.id
    ensures store.left == old(store.left)
  {
    var existing := FindByPrint(store.findings, repo, report.fingerprint);
    hide FindByPrint;
    id := 0;
    if existing.None? {
      id := store.CreateFinding(
        Finding(repo, report.fingerprint, report.severity, report.confidence, report.category, Suspected, headSha,
                headSha), r);
      store.locations := store.locations + [Location(id, report.filePath, headSha)];
      if report.confidence == HighConfidence {
        o := store.TransitionFindingStatus(id, SourceConfirmed, Some(r));
        return;
      }
      return Done, id;
    }
    id := existing.value;
    store.findings := store.findings[id := store.findings[id].(lastSeen := headSha)];
    store.locations := store.locations + [Location(id, report.filePath, headSha)];
    return Done, id;
  }

  /** Where a prefix of the reports throws, so does the whole batch. */
  lemma {:induction false} PrefixThrows(db: Db, repo: nat, r: nat, headSha: string, reports: seq<Report>, i: nat)
    requires i <= |reports| && UpsertAll(db, repo, r, headSha, reports[..i]).None?
    ensures UpsertAll(db, repo, r, headSha, reports).None?
    decreases |reports|
  {
    if i < |reports| {
      assert reports[..|reports| - 1][..i] == reports[..i];
      PrefixThrows(db, repo, r, headSha, reports[..|reports| - 1], i);
    } else {
      assert reports[..i] == reports;
    }
  }

  method PersistDeepSecWrites(
      store: Store, repo: nat, r: nat, headSha: string, reports: seq<Report>, cost: real)
    returns (o: Outcome, findingIds: seq<nat>)
    modifies store
    ensures var next := Engines.PersistDeepSec(old(store.Rows()), repo, r, headSha, reports, cost);
            if next.None? then o == Threw
            else o == Done && store.Rows() == next.value.db && findingIds == next.value.ids
    ensures store.left == old(store.left)
  {
    store.executions := store.executions + [Execution(r, cost)];
    ghost var start := store.Rows();
    findingIds := [];
    for i := 0 to |reports|
      invariant UpsertAll(start, repo, r, headSha, reports[..i]) == Some(Persisted(store.Rows(), findingIds))
      invariant store.left == old(store.left)
    {
      hide Engines.UpsertFinding;
      assert reports[..i + 1][..i] == reports[..i];
      var id;
      o, id := UpsertFinding(store, repo, r, headSha, reports[i]);
      if o.Threw? {
        PrefixThrows(start, repo, r, headSha, reports, i + 1);
        return;
      }
      findingIds := findingIds + [id];
    }
    assert reports[..|reports|] == reports;
    return Done, findingIds;
  }

  method PersistDeepSec(store: Store, repo: nat, r: nat, headSha: string, reports: seq<Report>, cost: real)
    returns (o: Outcome, findingIds: seq<nat>)
    modifies store
    ensures var next := Engines.PersistDeepSec(old(store.Rows()), repo, r, headSha, reports, cost);
            && store.After(o) == Commit(old(store.Now()), PersistedDb(next))
            && (o.Done? ==> findingIds == next.value.ids)
  {
    var saved := store.Rows();
    o, findingIds := PersistDeepSecWrites(store, repo, r, headSha, reports, cost);
    hide Engines.PersistDeepSec;
    o := store.EndTransaction(saved, o);
  }

  // ---------------------------------------------------------------- Strix

  method PersistStrixWrites(
      store: Store, r: nat, f: nat, build: string, verdict: Verdict, cost: real, override: Override)
    returns (o: Outcome)
    modifies store
    ensures Wrote(o, store.Rows(), Engines.PersistStrix(old(store.Rows()), r, f, build, verdict, cost, override))
    ensures store.left == old(store.left)
  {
    if f >= |store.findings| { return Threw; }
    store.executions := store.executions + [Execution(r, cost)];
    store.validations := store.validations + [Validation(f, verdict, build)];
    var next := if override.Forced? then override.status else VerdictToFindingStatus(verdict);
    if next.Some? {
      :- store.TransitionFindingStatus(f, next.value, Some(r));
    }
    return Done;
  }

  method PersistStrix(store: Store, r: nat, f: nat, build: string, verdict: Verdict, cost: real, override: Override)
    returns (o: Outcome)
    modifies store
    ensures store.After(o)
         == Commit(old(store.Now()),
                   Engines.PersistStrix(old(store.Rows()), r, f, build, verdict, cost, override))
  {
    var saved := store.Rows();
    o := PersistStrixWrites(store, r, f, build, verdict, cost, override);
    hide Engines.PersistStrix;
    o := store.EndTransaction(saved, o);
  }

  method CorrelateWithFinding(
      store: Store, r: nat, f: nat, expected: string, build: string, testComplete: bool, verdict: Verdict, cost: real)
    returns (o: Outcome)
    modifies store
    ensures store.After(o)
         == Commit(old(store.Now()),
                   CorrelateKnown(old(store.Rows()), r, f, expected, build, testComplete, verdict, cost))
  {
    hide Engines.PersistStrix;
    var buildMismatch := !CommitMatchesBuild(expected, build);
    var resolved := ResolveFindingStatus(verdict, !buildMismatch, testComplete);
    o := PersistStrix(store, r, f, build, verdict, cost, Forced(resolved));
  }

  /** The loop that walks a new dynamic finding to confirmed. */
  method WalkNewFinding(store: Store, f: nat, r: nat) returns (o: Outcome)
    modifies store
    ensures Wrote(o, store.Rows(), WalkToConfirmed(old(store.Rows()), f, r)) && store.left == old(store.left)
  {
    var path := [SourceConfirmed, ValidationQueued, Confirmed];
    for i := 0 to |path|
      invariant store.left == old(store.left)
      invariant WalkToConfirmed(old(store.Rows()), f, r) == WalkRest(store.Rows(), f, r, i)
    {
      hide Transitions.TransitionFinding;
      :- store.TransitionFindingStatus(f, path[i], Some(r));
    }
    return Done;
  }

  /** What is left of the walk after its first i moves. */
  ghost function WalkRest(db: Db, f: nat, r: nat, i: nat): Option<Db>
    requires i <= 3
  {
    match i
    case 0 => WalkToConfirmed(db, f, r)
    case 1 =>
      var db1 :- Transitions.TransitionFinding(db, f, ValidationQueued, Some(r));
      Transitions.TransitionFinding(db1, f, Confirmed, Some(r))
    case 2 => Transitions.TransitionFinding(db, f, Confirmed, Some(r))
    case 3 => Some(db)
  }

  method CorrelateDiscoveryWrites(
      store: Store, repo: nat, r: nat, expected: string, build: string, verdict: Verdict, discovery: Option<Report>,
      located: bool, cost: real)
    returns (o: Outcome)
    modifies store
    ensures Wrote(o, store.Rows(),
                  CorrelateExploratory(old(store.Rows()), repo, r, expected, build, verdict, discovery, located, cost))
    ensures store.left == old(store.left)
  {
    hide WalkToConfirmed;
    if verdict != Exploited || discovery.None? { return Threw; }
    var report := discovery.value;
    store.executions := store.executions + [Execution(r, cost)];
    var existing := FindByPrint(store.findings, repo, report.fingerprint);
    hide FindByPrint;
    if existing.Some? {
      var id := existing.value;
      store.findings := store.findings[id := store.findings[id].(lastSeen := expected)];
      store.validations := store.validations + [Validation(id, Exploited, build)];
      return Done;
    }
    var row := Finding(repo, report.fingerprint, report.severity, report.confidence, report.category,
                       Suspected, expected, expected);
    :- RecordDiscovery(store, row, r, if located then Some(report.filePath) else None, build);
    return Done;
  }

  /** A discovery that is new to the repository: its row, where it is, its way to confirmed, and the evidence. */
  method RecordDiscovery(store: Store, row: Finding, r: nat, path: Option<string>, build: string)
    returns (o: Outcome)
    modifies store
    ensures var id := |old(store.findings)|;
            var places := if path.Some? then [Location(id, path.value, row.lastSeen)] else [];
            var db := Transitions.InsertFinding(old(store.Rows()), row, r).(locations := old(store.locations) + places);
            var walked := WalkToConfirmed(db, id, r);
            var evidence := Validation(id, Exploited, build);
            Wrote(o, store.Rows(),
                  if walked.None? then None
                  else Some(walked.value.(validations := walked.value.validations + [evidence])))
    ensures store.left == old(store.left)
  {
    hide WalkToConfirmed;
    var id := store.CreateFinding(row, r);
    store.locations := store.locations + if path.Some? then [Location(id, path.value, row.lastSeen)] else [];
    :- WalkNewFinding(store, id, r);
    store.validations := store.validations + [Validation(id, Exploited, build)];
    return Done;
  }

  method CorrelateDiscovery(
      store: Store, repo: nat, r: nat, expected: string, build: string, verdict: Verdict, discovery: Option<Report>,
      located: bool, cost: real)
    returns (o: Outcome)
    modifies store
    ensures store.After(o)
         == Commit(old(store.Now()),
                   CorrelateExploratory(old(store.Rows()), repo, r, expected, build, verdict, discovery, located, cost))
  {
    var saved := store.Rows();
    o := CorrelateDiscoveryWrites(store, repo, r, expected, build, verdict, discovery, located, cost);
    hide CorrelateExploratory;
    o := store.EndTransaction(saved, o);
  }

  // ---------------------------------------------------------------- routing policy

  method ApplyRoutingPolicyWrites(store: Store, r: nat, f: nat, escalate: bool) returns (o: Outcome)
    modifies store
    ensures Wrote(o, store.Rows(), Handlers.ApplyRoutingPolicy(old(store.Rows()), r, f, escalate))
    ensures store.left == old(store.left)
  {
    store.decisions := store.decisions + [Decision(r, f, escalate)];
    if escalate {
      :- store.TransitionFindingStatus(f, ValidationQueued, Some(r));
    }
    return Done;
  }

  method ApplyRoutingPolicy(store: Store, r: nat, f: nat, escalate: bool) returns (o: Outcome)
    modifies store
    ensures store.After(o) == Commit(old(store.Now()), Handlers.ApplyRoutingPolicy(old(store.Rows()), r, f, escalate))
  {
    var saved := store.Rows();
    o := ApplyRoutingPolicyWrites(store, r, f, escalate);
    hide Handlers.ApplyRoutingPolicy;
    o := store.EndTransaction(saved, o);
  }
}
