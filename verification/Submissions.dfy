/** What the services accept, and exactly what they write when they do. */
module Submissions {
  import opened Options
  import opened Records
  import opened Transitions
  import opened Remediations
  import opened Handlers

  // ---------------------------------------------------------------- fixes

  /** The statuses from which a fix may be submitted: the last is that of a plan, the others of a verdict. */
  predicate TakesFix(s: FindingStatus) {
    s == SourceConfirmed || s == Confirmed || s == NotReproduced || s == Inconclusive || s == StillExploitable
    || s == FixPending
  }

  /**
   A fix is accepted iff the finding stands there, also for the second or third time. The finding then is
   at fix_submitted, by way of fix_pending, and its row starts over: the given commit, nothing checked, no
   outcome, and a replay due iff an exploit was ever confirmed.
   */
  lemma SubmitFixIsExact(db: Db, f: nat, sha: string)
    ensures SubmitFix(db, f, sha).Some? <==> f < |db.findings| && TakesFix(db.findings[f].status)
    ensures f < |db.findings| && TakesFix(db.findings[f].status) ==>
              var s := db.findings[f].status;
              var hop := if s == FixPending then [] else [FindingMoved(f, None, Some(s), FixPending)];
              SubmitFix(db, f, sha)
              == Some(db.(findings := db.findings[f := db.findings[f].(status := FixSubmitted)],
                          events := db.events + hop + [FindingMoved(f, None, Some(FixPending), FixSubmitted)],
                          remediations := db.remediations[
                            f := Remediation(sha, Pending, if EverConfirmed(db, f) then Pending else NotApplicable,
                                             None)]))
  {
    hide EverConfirmed, SubmitFix;
    SubmitFixAccepts(db, f, sha);
    if f < |db.findings| && TakesFix(db.findings[f].status) {
      SubmitFixWrites(db, f, sha);
    }
  }

  lemma SubmitFixAccepts(db: Db, f: nat, sha: string)
    ensures SubmitFix(db, f, sha).Some? <==> f < |db.findings| && TakesFix(db.findings[f].status)
  {
    hide ConfirmedIn;
  }

  lemma SubmitFixWrites(db: Db, f: nat, sha: string)
    requires SubmitFix(db, f, sha).Some?
    ensures var s := db.findings[f].status;
            var hop := if s == FixPending then [] else [FindingMoved(f, None, Some(s), FixPending)];
            SubmitFix(db, f, sha).value
            == db.(findings := db.findings[f := db.findings[f].(status := FixSubmitted)],
                   events := db.events + hop + [FindingMoved(f, None, Some(FixPending), FixSubmitted)],
                   remediations := db.remediations[
                     f := Remediation(sha, Pending, if EverConfirmed(db, f) then Pending else NotApplicable, None)])
  {
    hide ConfirmedIn;
    var b := SubmitFix(db, f, sha).value;
    assert b.findings == db.findings[f := db.findings[f].(status := FixSubmitted)];
    assert db.events + [] == db.events;
  }

  /**
   A verification starts iff the finding has a submitted fix and its key is new: a queued run of the fix
   commit, against the last commit the finding was seen at, which the finding's move names as its cause.
   */
  lemma StartFixVerificationIsExact(db: Db, f: nat, target: Option<nat>, key: string)
    ensures var next := StartFixVerification(db, f, target, key);
            next.Some? <==> f < |db.findings| && f in db.remediations && db.findings[f].status == FixSubmitted
                            && forall i | 0 <= i < |db.runs| :: db.runs[i].key != key
    ensures var next := StartFixVerification(db, f, target, key);
            next.Some? ==>
              var finding := db.findings[f];
              next.value
              == db.(findings := db.findings[f := finding.(status := Retesting)],
                     runs := db.runs + [Run(FixVerification, finding.repo, Queued, finding.lastSeen,
                                            db.remediations[f].fixCommit, target, key, None, None)],
                     events := db.events + [FindingMoved(f, Some(|db.runs|), Some(FixSubmitted), Retesting)])
  {}

  /** The service enqueues the new run's first job; if it throws, nothing is written. */
  lemma VerifyFixIsExact(p: Progress, f: nat, target: Option<nat>, key: string)
    requires p.live && p.left >= 2
    ensures var next := StartFixVerification(p.db, f, target, key);
            VerifyFix(p, f, target, key)
            == if next.None? then p.(live := false)
               else Progress(next.value.(requests := next.value.requests + [PrepareJob(|p.db.runs|)]), p.left - 2, true)
  {
    hide StartFixVerification;
    StartKeepsRequests(p.db, f, target, key);
  }

  lemma StartKeepsRequests(db: Db, f: nat, target: Option<nat>, key: string)
    ensures var next := StartFixVerification(db, f, target, key); next.Some? ==> next.value.requests == db.requests
  {
    hide KeyTaken;
  }

  // ---------------------------------------------------------------- runs

  /** A review is refused for a text that is no SHA, and given only once per key; else it is queued and begun. */
  lemma CreateReviewIsExact(
    p: Progress, scan: bool, repo: nat, base: string, head: string, target: Option<nat>, key: string)
    requires p.live && p.left >= 2
    ensures CreateReview(p, scan, repo, base, head, target, key)
         == if !IsSha(base) || !IsSha(head) then p.(live := false)
            else if exists i | 0 <= i < |p.db.runs| :: p.db.runs[i].key == key then p
            else
              Progress(p.db.(runs := p.db.runs + [Run(if scan then RepositoryScan else ChangeReview, repo, Queued,
                                                      base, head, target, key, None, None)],
                             requests := p.db.requests + [PrepareJob(|p.db.runs|)]), p.left - 2, true)
  {
    hide IsSha;
  }

  /**
   An explicit validation queues a finding that is confirmed from source, and leaves any other where it
   is; its run is against the last commit the finding was seen at, on the given target, and its only job
   is the mission. A key that is taken throws after the move.
   */
  lemma ValidateFindingIsExact(p: Progress, f: nat, target: nat, key: string)
    requires p.live && p.left >= 3 && f < |p.db.findings|
    ensures var finding := p.db.findings[f];
            var moves := finding.status == SourceConfirmed;
            var a := if !moves then p.db
                     else p.db.(findings := p.db.findings[f := finding.(status := ValidationQueued)],
                                events := p.db.events
                                          + [FindingMoved(f, None, Some(SourceConfirmed), ValidationQueued)]);
            var left := if moves then p.left - 1 else p.left;
            ValidateFinding(p, f, target, key)
            == if exists i | 0 <= i < |p.db.runs| :: p.db.runs[i].key == key then Progress(a, left, false)
               else
                 Progress(a.(runs := p.db.runs + [Run(FindingValidation, finding.repo, Queued, finding.lastSeen,
                                                      finding.lastSeen, Some(target), key, None, None)],
                             requests := p.db.requests + [StrixJob(|p.db.runs|, f)]), left - 2, true)
  {
    var a := if p.db.findings[f].status != SourceConfirmed then p.db
             else p.db.(findings := p.db.findings[f := p.db.findings[f].(status := ValidationQueued)],
                        events := p.db.events + [FindingMoved(f, None, Some(SourceConfirmed), ValidationQueued)]);
    assert KeyTaken(a, key) <==> exists i | 0 <= i < |p.db.runs| :: p.db.runs[i].key == key;
    hide KeyTaken;
  }

  /** A run can be cancelled until it has ended, and then stays as it is. */
  lemma CancelIsExact(p: Progress, r: nat)
    requires p.live && p.left >= 1 && r < |p.db.runs|
    ensures var s := p.db.runs[r].status;
            var q := CommitRun(p, r, Cancelled);
            if s in {Completed, Blocked, Failed, Cancelled} then q == p.(live := false)
            else q.live && q.db.runs == p.db.runs[r := p.db.runs[r].(
                                         status := Cancelled, completedAt := Some(p.db.clock))]
                 && q.db.events == p.db.events + [RunMoved(r, s, Cancelled)] && q.db.requests == p.db.requests
  {}
}
