/** The disposition of a review run does not depend on the order in which its validation jobs run. */
module ReviewRuns {
  import opened Collections
  import opened Options
  import opened Records
  import opened Text
  import opened Remediations
  import opened Engines
  import opened Handlers

  // ---------------------------------------------------------------- routing

  /** The candidates that routing escalates, judged once on the database it starts from. */
  function Escalated(db: Db, r: nat, candidates: seq<nat>, authorized: bool, budget: real): (e: seq<nat>)
    ensures forall f :: f in e <==> f in candidates && EscalatesNow(db, r, f, authorized, budget)
  {
    if candidates == [] then [] else
    var n := |candidates| - 1;
    Escalated(db, r, candidates[..n], authorized, budget)
    + if EscalatesNow(db, r, candidates[n], authorized, budget) then [candidates[n]] else []
  }

  lemma {:induction false} EscalatedAreDistinct(
    db: Db, r: nat, candidates: seq<nat>, authorized: bool, budget: real)
    requires Distinct(candidates)
    ensures Distinct(Escalated(db, r, candidates, authorized, budget))
  {
    hide EscalatesNow;
    if candidates != [] {
      var n := |candidates| - 1;
      EscalatedAreDistinct(db, r, candidates[..n], authorized, budget);
      var before := Escalated(db, r, candidates[..n], authorized, budget);
      assert candidates[n] !in candidates[..n];
      assert candidates[n] !in before;
    }
  }

  /** The budget is looked at for each candidate alone: enough for one validation is enough for all. */
  lemma {:induction false} BudgetForOneIsForAll(
    db: Db, r: nat, candidates: seq<nat>, authorized: bool, budget: real)
    ensures Escalated(db, r, candidates, authorized, budget)
         == if budget >= ESTIMATED_STRIX_VALIDATION_COST
            then Escalated(db, r, candidates, authorized, ESTIMATED_STRIX_VALIDATION_COST) else []
  {
    if candidates != [] {
      var n := |candidates| - 1;
      BudgetForOneIsForAll(db, r, candidates[..n], authorized, budget);
      OneBudget(db, r, candidates[n], authorized, budget);
      hide EscalatesNow;
    }
  }

  lemma OneBudget(db: Db, r: nat, f: nat, authorized: bool, budget: real)
    ensures EscalatesNow(db, r, f, authorized, budget)
            <==> && budget >= ESTIMATED_STRIX_VALIDATION_COST
                 && EscalatesNow(db, r, f, authorized, ESTIMATED_STRIX_VALIDATION_COST)
  {
    hide TestedAgainst;
  }

  /** What the validations of these findings are estimated to cost. */
  function Estimate(queued: seq<nat>): real { ESTIMATED_STRIX_VALIDATION_COST * (|queued| as real) }

  function Remaining(db: Db, r: nat, maxBudget: real): real { maxBudget - Spent(db.executions, r) }

  /**
   Routing does not lower the budget as it escalates: what it escalates is estimated to cost more than
   what the run may still spend exactly if that pays for one validation and not for all that are wanted.
   */
  lemma EscalationsExceedBudgetIff(db: Db, r: nat, candidates: seq<nat>, allowed: bool, maxBudget: real)
    requires r < |db.runs|
    ensures var left := Remaining(db, r, maxBudget);
            var queued := Queue(db, r, candidates, allowed, maxBudget);
            var wanted := Escalated(db, r, candidates, db.runs[r].target.Some? && allowed,
                                    ESTIMATED_STRIX_VALIDATION_COST);
            && queued == (if left >= ESTIMATED_STRIX_VALIDATION_COST then wanted else [])
            && (queued != [] && Estimate(queued) > left
                <==> ESTIMATED_STRIX_VALIDATION_COST <= left < Estimate(wanted))
  {
    hide Escalated, Spent;
    BudgetForOneIsForAll(
      db, r, candidates, db.runs[r].target.Some? && allowed, Remaining(db, r, maxBudget));
  }

  function StrixJobs(r: nat, findings: seq<nat>): seq<Request> {
    seq(|findings|, i requires 0 <= i < |findings| => StrixJob(r, findings[i]))
  }

  /** Queued for validation exactly where `queued` says, and otherwise as before. */
  ghost predicate Requeued(a: Db, b: Db, queued: seq<nat>) {
    && |b.findings| == |a.findings|
    && forall f | 0 <= f < |a.findings| ::
         b.findings[f] == if f in queued then a.findings[f].(status := ValidationQueued) else a.findings[f]
  }

  lemma TouchedExtends(events: seq<Event>, e: Event, r: nat)
    ensures Touched(events + [e], r)
            == Touched(events, r) + if e.FindingMoved? && e.cause == Some(r) then {e.finding} else {}
  {
    var longer := events + [e];
    forall f ensures f in Touched(longer, r)
                     <==> f in Touched(events, r) || (e.FindingMoved? && e.cause == Some(r) && e.finding == f) {
      if f in Touched(longer, r) {
        var i :| 0 <= i < |longer| && longer[i].FindingMoved? && longer[i].cause == Some(r) && longer[i].finding == f;
      }
      if f in Touched(events, r) {
        var i :| 0 <= i < |events| && events[i].FindingMoved? && events[i].cause == Some(r) && events[i].finding == f;
        assert longer[i] == events[i];
      }
      if e.FindingMoved? && e.cause == Some(r) && e.finding == f {
        assert longer[|events|] == e;
      }
    }
  }

  /** What routing has done to the run so far: it queued these findings, and a job for each. */
  ghost predicate Routed(p: Progress, q: Progress, r: nat, queued: seq<nat>, turns: nat) {
    && q.live && q.left + 2 * turns >= p.left
    && q.db.runs == p.db.runs && q.db.validations == p.db.validations
    && Requeued(p.db, q.db, queued) && q.db.requests == p.db.requests + StrixJobs(r, queued)
    && Touched(q.db.events, r) == Touched(p.db.events, r)
  }

  lemma RoutedCompose(p: Progress, q: Progress, s: Progress, r: nat, before: seq<nat>, last: seq<nat>, turns: nat)
    requires Routed(p, q, r, before, turns) && Routed(q, s, r, last, 1)
    ensures Routed(p, s, r, before + last, turns + 1)
  {
    hide Touched;
    assert StrixJobs(r, before) + StrixJobs(r, last) == StrixJobs(r, before + last);
  }

  /** One turn of the routing loop, left to finish. */
  lemma RouteOneEffect(p: Progress, r: nat, f: nat, authorized: bool, budget: real)
    requires p.live && p.left >= 2 && r < |p.db.runs| && f < |p.db.findings|
    requires p.db.findings[f].status == SourceConfirmed && f in Touched(p.db.events, r)
    ensures Routed(p, RouteOne(p, r, f, authorized, budget), r,
                   if EscalatesNow(p.db, r, f, authorized, budget) then [f] else [], 1)
  {
    if EscalatesNow(p.db, r, f, authorized, budget) {
      TouchedExtends(p.db.events, FindingMoved(f, Some(r), Some(SourceConfirmed), ValidationQueued), r);
    }
  }

  lemma {:induction false} RouteAllEffect(p: Progress, r: nat, candidates: seq<nat>, authorized: bool, budget: real)
    requires p.live && p.left >= 2 * |candidates| && r < |p.db.runs| && Distinct(candidates)
    requires forall i | 0 <= i < |candidates| ::
               candidates[i] < |p.db.findings| && p.db.findings[candidates[i]].status == SourceConfirmed
               && candidates[i] in Touched(p.db.events, r)
    ensures Routed(p, RouteAll(p, r, candidates, authorized, budget), r,
                   Escalated(p.db, r, candidates, authorized, budget), |candidates|)
  {
    hide Touched;
    if candidates != [] {
      var n := |candidates| - 1;
      var f := candidates[n];
      RouteAllEffect(p, r, candidates[..n], authorized, budget);
      var q := RouteAll(p, r, candidates[..n], authorized, budget);
      var before := Escalated(p.db, r, candidates[..n], authorized, budget);
      assert f !in candidates[..n] && f !in before;
      assert EscalatesNow(q.db, r, f, authorized, budget) == EscalatesNow(p.db, r, f, authorized, budget);
      RouteOneEffect(q, r, f, authorized, budget);
      hide RouteOne, EscalatesNow;
      var last := if EscalatesNow(p.db, r, f, authorized, budget) then [f] else [];
      RoutedCompose(p, q, RouteOne(q, r, f, authorized, budget), r, before, last, n);
    }
  }

  /** A run whose review has just ended: what it found is suspected or confirmed from source. */
  ghost predicate JustReviewed(db: Db, r: nat) {
    && r < |db.runs| && db.runs[r].status == SourceReviewCompleted
    && forall f | f in Touched(db.events, r) ::
         f < |db.findings| && db.findings[f].status in [Suspected, SourceConfirmed]
  }

  predicate IsListed(category: string) {
    var c := Lower(Trim(category));
    c == "authentication" || c == "authorization" || c == "tenant-isolation" || c == "payment-manipulation"
    || c == "business-logic"
  }

  /** Whether a finding, for its severity, is worth a validation. */
  predicate Warrants(finding: Finding) {
    match finding.severity
    case Critical => true
    case High => finding.confidence == HighConfidence || IsListed(finding.category)
    case Medium => IsListed(finding.category)
    case Low | Info => false
  }

  /**
   Which findings routing is to escalate: on a target that may be tested, those that warrant it and were not
   tested against the head, as long as the estimate for one validation, half a dollar, is left.
   */
  predicate IsEscalated(db: Db, r: nat, f: nat, allowed: bool, maxBudget: real) {
    && r < |db.runs| && f < |db.findings|
    && db.runs[r].target.Some? && allowed
    && (forall i | 0 <= i < |db.validations| ::
          db.validations[i].finding != f || db.validations[i].build != db.runs[r].headSha)
    && maxBudget - Spent(db.executions, r) >= 0.5
    && Warrants(db.findings[f])
  }

  lemma EscalatesIff(db: Db, r: nat, f: nat, allowed: bool, maxBudget: real)
    requires r < |db.runs|
    ensures EscalatesNow(db, r, f, db.runs[r].target.Some? && allowed, maxBudget - Spent(db.executions, r))
            <==> IsEscalated(db, r, f, allowed, maxBudget)
  {
    hide Lower, Trim, Spent;
  }

  /** Only the run's own executions count, and each of them once. */
  lemma {:induction false} SpentAdds(a: seq<Execution>, b: seq<Execution>, r: nat)
    ensures Spent(a + b, r) == Spent(a, r) + Spent(b, r)
    ensures forall cost: real, q: nat :: Spent([Execution(q, cost)], r) == if q == r then cost else 0.0
  {
    forall cost: real, q: nat ensures Spent([Execution(q, cost)], r) == if q == r then cost else 0.0 {
      assert [Execution(q, cost)][..0] == [];
    }
    if b == [] {
      assert a + b == a;
    } else {
      var n := |b| - 1;
      SpentAdds(a, b[..n], r);
      assert (a + b)[..|a + b| - 1] == a + b[..n];
    }
  }

  /** The findings that the routing handler escalates. */
  function Queue(db: Db, r: nat, candidates: seq<nat>, allowed: bool, maxBudget: real): (queued: seq<nat>)
    ensures forall f :: f in queued <==> f in candidates && IsEscalated(db, r, f, allowed, maxBudget)
    ensures queued != [] ==> r < |db.runs| && db.runs[r].target.Some?
  {
    if r >= |db.runs| then [] else
    var authorized := db.runs[r].target.Some? && allowed;
    var queued := Escalated(db, r, candidates, authorized, maxBudget - Spent(db.executions, r));
    assert queued != [] ==> queued[0] in queued;
    EscalateAll(db, r, allowed, maxBudget);
    queued
  }

  lemma EscalateAll(db: Db, r: nat, allowed: bool, maxBudget: real)
    requires r < |db.runs|
    ensures forall f: nat ::
              EscalatesNow(db, r, f, db.runs[r].target.Some? && allowed, maxBudget - Spent(db.executions, r))
              <==> IsEscalated(db, r, f, allowed, maxBudget)
  {
    hide EscalatesNow, IsEscalated, Spent;
    forall f: nat
      ensures EscalatesNow(db, r, f, db.runs[r].target.Some? && allowed, maxBudget - Spent(db.executions, r))
              <==> IsEscalated(db, r, f, allowed, maxBudget)
    {
      EscalatesIff(db, r, f, allowed, maxBudget);
    }
  }

  lemma CandidatesStand(db: Db, r: nat, candidates: seq<nat>)
    requires LoadsCandidates(db, r, candidates)
    ensures Distinct(candidates)
    ensures forall i | 0 <= i < |candidates| ::
              candidates[i] < |db.findings| && db.findings[candidates[i]].status == SourceConfirmed
              && candidates[i] in Touched(db.events, r)
  {
    hide Touched;
    forall i | 0 <= i < |candidates|
      ensures candidates[i] < |db.findings| && db.findings[candidates[i]].status == SourceConfirmed
              && candidates[i] in Touched(db.events, r)
    {
      assert candidates[i] in candidates;
    }
  }

  lemma LoopOutcome(p: Progress, r: nat, candidates: seq<nat>, allowed: bool, maxBudget: real)
    requires p.live && p.left >= 2 * |candidates| && r < |p.db.runs| && LoadsCandidates(p.db, r, candidates)
    ensures Routed(p, RoutingLoop(p, r, candidates, allowed, maxBudget), r,
                   Queue(p.db, r, candidates, allowed, maxBudget), |candidates|)
    ensures Distinct(Queue(p.db, r, candidates, allowed, maxBudget))
  {
    hide Touched, EscalatesNow, RouteAll, Escalated, Spent, LoadsCandidates, Routed;
    CandidatesStand(p.db, r, candidates);
    var authorized, budget := p.db.runs[r].target.Some? && allowed, maxBudget - Spent(p.db.executions, r);
    RouteAllEffect(p, r, candidates, authorized, budget);
    EscalatedAreDistinct(p.db, r, candidates, authorized, budget);
  }

  /**
   Routing queues one Strix job per escalated finding, in order, and only on a run with a target, so
   that no job meets the missing-target error; with nothing escalated it concludes the run at once.
   */
  lemma RoutingOutcome(p: Progress, r: nat, candidates: seq<nat>, allowed: bool, maxBudget: real)
    requires p.live && p.left >= 2 * |candidates| + 4 && JustReviewed(p.db, r) && LoadsCandidates(p.db, r, candidates)
    ensures var q := Route(p, r, candidates, allowed, maxBudget);
            var queued := Queue(p.db, r, candidates, allowed, maxBudget);
            && Distinct(queued)
            && (forall f :: f in queued <==> f in candidates && IsEscalated(p.db, r, f, allowed, maxBudget))
            && q.live && Requeued(p.db, q.db, queued) && Touched(q.db.events, r) == Touched(p.db.events, r)
            && q.db.requests == p.db.requests + AfterRouting(r, queued, candidates)
            && Settled(p.db, q.db, r, queued, candidates)
            && (queued != [] ==> p.db.runs[r].target.Some?)
  {
    hide Touched, RouteAll, Escalated, Spent, SettleRouting, LoadsCandidates;
    LoopOutcome(p, r, candidates, allowed, maxBudget);
    var q := RoutingLoop(p, r, candidates, allowed, maxBudget);
    var queued := Queue(p.db, r, candidates, allowed, maxBudget);
    if queued != [] {
      SettleWithQueue(p.db, q, r, Touched(p.db.events, r), queued, candidates);
    } else {
      SettleWithoutQueue(p.db, q, r, Touched(p.db.events, r), candidates);
    }
  }

  /** Who gets a job: exactly the candidates that are to be escalated, and they are the ones that move. */
  lemma RoutingSelects(p: Progress, r: nat, candidates: seq<nat>, allowed: bool, maxBudget: real, f: nat)
    requires p.live && p.left >= 2 * |candidates| + 4 && JustReviewed(p.db, r) && LoadsCandidates(p.db, r, candidates)
    requires f in candidates
    ensures var q := Route(p, r, candidates, allowed, maxBudget);
            && |p.db.requests| <= |q.db.requests| && f < |p.db.findings| == |q.db.findings|
            && (StrixJob(r, f) in q.db.requests[|p.db.requests|..]
                <==> IsEscalated(p.db, r, f, allowed, maxBudget))
            && q.db.findings[f].status == if IsEscalated(p.db, r, f, allowed, maxBudget) then ValidationQueued
                                          else SourceConfirmed
  {
    hide Route, Touched, IsEscalated, Queue, LoadsCandidates, Settled, JustReviewed, AfterRouting;
    RoutingOutcome(p, r, candidates, allowed, maxBudget);
    CandidatesStand(p.db, r, candidates);
    var queued := Queue(p.db, r, candidates, allowed, maxBudget);
    SentIffQueued(r, queued, candidates, f);
    var q := Route(p, r, candidates, allowed, maxBudget);
    assert q.db.requests[|p.db.requests|..] == AfterRouting(r, queued, candidates);
    var i :| 0 <= i < |candidates| && candidates[i] == f;
    hide StrixJobs;
  }

  lemma SentIffQueued(r: nat, queued: seq<nat>, candidates: seq<nat>, f: nat)
    ensures StrixJob(r, f) in AfterRouting(r, queued, candidates) <==> f in queued
  {
    if f in queued {
      var i :| 0 <= i < |queued| && queued[i] == f;
      assert AfterRouting(r, queued, candidates)[i] == StrixJob(r, f);
    }
  }

  /** One decision is recorded per candidate, in order, with what became of it. */
  function Judgements(db: Db, r: nat, candidates: seq<nat>, authorized: bool, budget: real): seq<Decision> {
    if candidates == [] then [] else
    var n := |candidates| - 1;
    Judgements(db, r, candidates[..n], authorized, budget)
    + [Decision(r, candidates[n], EscalatesNow(db, r, candidates[n], authorized, budget))]
  }

  lemma {:induction false} LoopRecords(p: Progress, r: nat, candidates: seq<nat>, authorized: bool, budget: real)
    requires p.live && p.left >= 2 * |candidates| && r < |p.db.runs| && Distinct(candidates)
    requires forall i | 0 <= i < |candidates| ::
               candidates[i] < |p.db.findings| && p.db.findings[candidates[i]].status == SourceConfirmed
               && candidates[i] in Touched(p.db.events, r)
    ensures RouteAll(p, r, candidates, authorized, budget).db.decisions
         == p.db.decisions + Judgements(p.db, r, candidates, authorized, budget)
  {
    hide Touched;
    if candidates != [] {
      var n := |candidates| - 1;
      var f := candidates[n];
      LoopRecords(p, r, candidates[..n], authorized, budget);
      RouteAllEffect(p, r, candidates[..n], authorized, budget);
      var q := RouteAll(p, r, candidates[..n], authorized, budget);
      var before := Escalated(p.db, r, candidates[..n], authorized, budget);
      assert f !in candidates[..n] && f !in before;
      assert EscalatesNow(q.db, r, f, authorized, budget) == EscalatesNow(p.db, r, f, authorized, budget);
      hide EscalatesNow;
      OneRecord(q, r, f, authorized, budget);
    }
  }

  lemma OneRecord(p: Progress, r: nat, f: nat, authorized: bool, budget: real)
    requires p.live && p.left >= 2 && r < |p.db.runs| && f < |p.db.findings|
    requires p.db.findings[f].status == SourceConfirmed
    ensures RouteOne(p, r, f, authorized, budget).db.decisions
         == p.db.decisions + [Decision(r, f, EscalatesNow(p.db, r, f, authorized, budget))]
  {
    hide EscalatesNow;
  }

  lemma {:induction false} JudgementsAre(db: Db, r: nat, candidates: seq<nat>, allowed: bool, maxBudget: real)
    requires r < |db.runs|
    ensures var judged := Judgements(db, r, candidates, db.runs[r].target.Some? && allowed,
                                     maxBudget - Spent(db.executions, r));
            && |judged| == |candidates|
            && forall i | 0 <= i < |candidates| ::
                 judged[i] == Decision(r, candidates[i], IsEscalated(db, r, candidates[i], allowed, maxBudget))
  {
    hide EscalatesNow, IsEscalated, Spent;
    if candidates != [] {
      var n := |candidates| - 1;
      JudgementsAre(db, r, candidates[..n], allowed, maxBudget);
      EscalatesIff(db, r, candidates[n], allowed, maxBudget);
      assert forall i | 0 <= i < n :: candidates[..n][i] == candidates[i];
    }
  }

  lemma RoutingRecords(p: Progress, r: nat, candidates: seq<nat>, allowed: bool, maxBudget: real)
    requires p.live && p.left >= 2 * |candidates| && r < |p.db.runs| && LoadsCandidates(p.db, r, candidates)
    ensures var q := Route(p, r, candidates, allowed, maxBudget);
            && |q.db.decisions| == |p.db.decisions| + |candidates| && p.db.decisions <= q.db.decisions
            && forall i | 0 <= i < |candidates| ::
                 q.db.decisions[|p.db.decisions| + i]
                 == Decision(r, candidates[i], IsEscalated(p.db, r, candidates[i], allowed, maxBudget))
  {
    hide Touched, RouteAll, Spent, LoadsCandidates, SettleRouting, IsEscalated;
    CandidatesStand(p.db, r, candidates);
    LoopRecords(p, r, candidates, p.db.runs[r].target.Some? && allowed, maxBudget - Spent(p.db.executions, r));
    JudgementsAre(p.db, r, candidates, allowed, maxBudget);
    SettlingRecordsNothing(RoutingLoop(p, r, candidates, allowed, maxBudget), r, Touched(p.db.events, r));
    hide Judgements;
  }

  lemma SettlingRecordsNothing(p: Progress, r: nat, ids: set<nat>)
    ensures SettleRouting(p, r, ids).db.decisions == p.db.decisions
  {
    hide AnyWith, Touched;
  }

  /** A job per queued finding, or else what concluding the run sends out. */
  function AfterRouting(r: nat, queued: seq<nat>, candidates: seq<nat>): seq<Request> {
    if queued != [] then StrixJobs(r, queued)
    else [ReceiptJob(r), CompletedWebhook(r, if candidates != [] then AwaitingFix else Completed)]
  }

  /** The run's status after routing; its other columns are unchanged. */
  ghost predicate Settled(a: Db, b: Db, r: nat, queued: seq<nat>, candidates: seq<nat>)
    requires r < |a.runs|
  {
    && r < |b.runs| && b.runs[r].headSha == a.runs[r].headSha && b.runs[r].target == a.runs[r].target
    && b.runs[r].status == if queued != [] then ValidationRunning
                           else if candidates != [] then AwaitingFix else Completed
  }

  lemma SettleWithQueue(a: Db, p: Progress, r: nat, ids: set<nat>, queued: seq<nat>, candidates: seq<nat>)
    requires p.live && p.left >= 4 && r < |p.db.runs| && p.db.runs == a.runs && JustReviewed(a, r)
    requires LoadsCandidates(a, r, candidates) && ids == Touched(a.events, r) == Touched(p.db.events, r)
    requires Requeued(a, p.db, queued) && queued != [] && forall f | f in queued :: f in candidates
    ensures var q := SettleRouting(p, r, ids);
            && q.live && q.db.findings == p.db.findings && Touched(q.db.events, r) == ids
            && q.db.requests == p.db.requests && Settled(a, q.db, r, queued, candidates)
  {
    assert queued[0] in queued && queued[0] in candidates && queued[0] in ids;
    assert AnyWith(p.db, ids, {ValidationQueued});
    TouchedExtends(p.db.events, RunMoved(r, SourceReviewCompleted, ValidationRunning), r);
  }

  lemma SettleWithoutQueue(a: Db, p: Progress, r: nat, ids: set<nat>, candidates: seq<nat>)
    requires p.live && p.left >= 4 && r < |p.db.runs| && p.db.runs == a.runs && JustReviewed(a, r)
    requires LoadsCandidates(a, r, candidates) && ids == Touched(a.events, r) == Touched(p.db.events, r)
    requires Requeued(a, p.db, [])
    ensures var q := SettleRouting(p, r, ids);
            && q.live && q.db.findings == p.db.findings && Touched(q.db.events, r) == ids
            && q.db.requests == p.db.requests + AfterRouting(r, [], candidates) && Settled(a, q.db, r, [], candidates)
  {
    NothingToBlock(a, p.db, r, ids, candidates);
    var to := if candidates != [] then AwaitingFix else Completed;
    TouchedExtends(p.db.events, RunMoved(r, SourceReviewCompleted, to), r);
    FinalizedTo(p, r, ids, to);
    hide Touched, AnyWith, Disposition, LoadsCandidates, Requeued, FinalizeRun, JustReviewed;
  }

  /** With nobody queued, the candidates that are left decide the disposition. */
  lemma NothingToBlock(a: Db, db: Db, r: nat, ids: set<nat>, candidates: seq<nat>)
    requires r < |a.runs| && JustReviewed(a, r) && LoadsCandidates(a, r, candidates) && ids == Touched(a.events, r)
    requires Requeued(a, db, [])
    ensures !AnyWith(db, ids, {ValidationQueued})
    ensures Disposition(db, ids) == if candidates != [] then AwaitingFix else Completed
  {
    hide Touched;
    assert !AnyWith(db, ids, {Confirmed, StillExploitable});
    if candidates != [] {
      assert candidates[0] in candidates && candidates[0] in ids;
      assert AnyWith(db, ids, {SourceConfirmed, FixPending});
    } else {
      assert forall f | f in ids :: f !in candidates;
      assert !AnyWith(db, ids, {SourceConfirmed, FixPending});
    }
  }

  lemma FinalizedTo(p: Progress, r: nat, ids: set<nat>, to: RunStatus)
    requires p.live && p.left >= 4 && r < |p.db.runs| && p.db.runs[r].status == SourceReviewCompleted
    requires ids == Touched(p.db.events, r) && to == Disposition(p.db, ids) && to in [AwaitingFix, Completed]
    ensures var q := FinalizeRun(p, r);
            && q.live && q.db.findings == p.db.findings
            && q.db.requests == p.db.requests + [ReceiptJob(r), CompletedWebhook(r, to)]
            && q.db.events == p.db.events + [RunMoved(r, SourceReviewCompleted, to)]
            && |q.db.runs| == |p.db.runs| && q.db.runs[r].headSha == p.db.runs[r].headSha
            && q.db.runs[r].target == p.db.runs[r].target && q.db.runs[r].status == to
  {
    hide Touched, Disposition;
  }

  // ---------------------------------------------------------------- validation

  /** Whatever else happens in between leaves the run and the findings it touched alone. */
  ghost predicate Undisturbed(a: Db, b: Db, r: nat) {
    && r < |a.runs| && r < |b.runs| && a.runs[r] == b.runs[r]
    && Touched(a.events, r) == Touched(b.events, r)
    && forall f | f in Touched(a.events, r) ::
         f < |a.findings| && f < |b.findings| && a.findings[f].status == b.findings[f].status
  }

  /** Each job of `order` runs once to its end, with unrelated activity after each. */
  ghost predicate ValidatesInOrder(
    states: seq<Db>, r: nat, order: seq<nat>, verdicts: map<nat, Verdict>, costs: seq<real>, rooms: seq<nat>)
  {
    && |states| == |order| + 1 && |costs| == |order| == |rooms| && (forall i | 0 <= i < |rooms| :: rooms[i] >= 5)
    && (forall f | f in order :: f in verdicts)
    && forall i | 0 <= i < |order| ::
         Undisturbed(ValidateStrix(Progress(states[i], rooms[i], true), r, order[i], verdicts[order[i]], costs[i]).db,
                     states[i + 1], r)
  }

  /** A validation run before its first verdict: the findings of `order`, and no others, are queued. */
  ghost predicate AwaitsVerdicts(db: Db, r: nat, order: seq<nat>) {
    && r < |db.runs| && db.runs[r].status == ValidationRunning && db.runs[r].target.Some?
    && Distinct(order) && order != []
    && (forall f | f in order :: f in Touched(db.events, r))
    && forall f | f in Touched(db.events, r) ::
         f < |db.findings| && db.findings[f].status in [Suspected, SourceConfirmed, ValidationQueued]
         && (db.findings[f].status == ValidationQueued <==> f in order)
  }

  /** Where a mission on the head leaves a queued finding, unless it fails; no commit is no evidence. */
  function Verdicted(headSha: string, verdict: Verdict): Option<FindingStatus> {
    match verdict
    case Exploited => Some(if headSha == "" then Inconclusive else Confirmed)
    case NotExploited => Some(if headSha == "" then Inconclusive else NotReproduced)
    case NoConclusion => Some(Inconclusive)
    case MissionFailed => None
  }

  lemma VerdictedIs(headSha: string, verdict: Verdict)
    ensures ResolveFindingStatus(verdict, CommitMatchesBuild(headSha, headSha), true) == Verdicted(headSha, verdict)
  {
    hide Lower, Trim;
  }

  /** A finding that had its job has moved as its verdict says; the others are where they were. */
  ghost predicate Midway(a: Db, db: Db, r: nat, done: seq<nat>, verdicts: map<nat, Verdict>)
    requires r < |a.runs| && forall f | f in done :: f in verdicts
  {
    && r < |db.runs| && db.runs[r] == a.runs[r]
    && Touched(db.events, r) == Touched(a.events, r)
    && forall f | f in Touched(a.events, r) ::
         && f < |a.findings| && f < |db.findings|
         && db.findings[f].status ==
            if f in done && Verdicted(a.runs[r].headSha, verdicts[f]).Some?
            then Verdicted(a.runs[r].headSha, verdicts[f]).value else a.findings[f].status
  }

  ghost predicate Stalls(order: seq<nat>, verdicts: map<nat, Verdict>)
    requires forall f | f in order :: f in verdicts
  {
    exists f | f in order :: verdicts[f] == MissionFailed
  }

  /** The disposition the findings call for, whatever the order of the verdicts. */
  ghost function Called(a: Db, r: nat, order: seq<nat>, verdicts: map<nat, Verdict>): RunStatus
    requires r < |a.runs| && forall f | f in order :: f in verdicts
  {
    if a.runs[r].headSha != "" && exists f | f in order :: verdicts[f] == Exploited then Blocked
    else if AnyWith(a, Touched(a.events, r), {SourceConfirmed}) then AwaitingFix
    else Completed
  }

  /** The evidence of one job, before the handler looks whether it was the last. */
  lemma VerdictEffect(
    a: Db, p: Progress, r: nat, done: seq<nat>, f: nat, verdicts: map<nat, Verdict>, cost: real)
    requires r < |a.runs| && a.runs[r].status == ValidationRunning
    requires (forall g | g in done + [f] :: g in verdicts) && f !in done && f in Touched(a.events, r)
    requires p.live && p.left >= 5 && Midway(a, p.db, r, done, verdicts)
    requires a.findings[f].status == ValidationQueued
    ensures var head := a.runs[r].headSha;
            var q := Commit(p, CorrelateKnown(p.db, r, f, head, head, true, verdicts[f], cost));
            q.live && q.left >= 4 && Midway(a, q.db, r, done + [f], verdicts)
  {
    hide Touched;
    var head := a.runs[r].headSha;
    VerdictedIs(head, verdicts[f]);
    hide ResolveFindingStatus;
    var to := Verdicted(head, verdicts[f]);
    if to.Some? {
      TouchedExtends(p.db.events, FindingMoved(f, Some(r), Some(ValidationQueued), to.value), r);
    }
    hide CommitMatchesBuild;
  }

  /** While another job is due, or one failed, somebody is still queued; otherwise nobody is. */
  lemma StillQueued(a: Db, db: Db, r: nat, order: seq<nat>, k: nat, verdicts: map<nat, Verdict>)
    requires AwaitsVerdicts(a, r, order) && k <= |order| && forall f | f in order :: f in verdicts
    requires Midway(a, db, r, order[..k], verdicts)
    ensures AnyWith(db, Touched(db.events, r), {ValidationQueued}) <==> k < |order| || Stalls(order, verdicts)
  {
    if k < |order| {
      var f := order[k];
      assert f in order && f !in order[..k];
      assert f in Touched(db.events, r) && db.findings[f].status == ValidationQueued;
    } else {
      assert order[..k] == order;
      if Stalls(order, verdicts) {
        var f :| f in order && verdicts[f] == MissionFailed;
        assert f in Touched(db.events, r) && db.findings[f].status == ValidationQueued;
      }
    }
  }

  lemma BlockingFindings(a: Db, db: Db, r: nat, order: seq<nat>, verdicts: map<nat, Verdict>)
    requires AwaitsVerdicts(a, r, order) && (forall f | f in order :: f in verdicts)
    requires Midway(a, db, r, order, verdicts)
    ensures AnyWith(db, Touched(db.events, r), {Confirmed, StillExploitable})
            <==> a.runs[r].headSha != "" && exists f | f in order :: verdicts[f] == Exploited
  {
    var ids := Touched(a.events, r);
    hide Touched;
    if a.runs[r].headSha != "" && exists f | f in order :: verdicts[f] == Exploited {
      var f :| f in order && verdicts[f] == Exploited;
      assert f in ids && db.findings[f].status == Confirmed;
    }
  }

  lemma SkippedFindings(a: Db, db: Db, r: nat, order: seq<nat>, verdicts: map<nat, Verdict>)
    requires AwaitsVerdicts(a, r, order) && (forall f | f in order :: f in verdicts)
    requires Midway(a, db, r, order, verdicts)
    ensures AnyWith(db, Touched(db.events, r), {SourceConfirmed, FixPending})
            <==> AnyWith(a, Touched(a.events, r), {SourceConfirmed})
  {
    var ids := Touched(a.events, r);
    hide Touched;
    if AnyWith(a, ids, {SourceConfirmed}) {
      var f :| f in ids && f < |a.findings| && a.findings[f].status == SourceConfirmed;
      assert f !in order;
      assert db.findings[f].status == SourceConfirmed;
    }
  }

  lemma CalledDisposition(a: Db, db: Db, r: nat, order: seq<nat>, verdicts: map<nat, Verdict>)
    requires AwaitsVerdicts(a, r, order) && (forall f | f in order :: f in verdicts)
    requires Midway(a, db, r, order, verdicts)
    ensures Disposition(db, Touched(db.events, r)) == Called(a, r, order, verdicts)
  {
    BlockingFindings(a, db, r, order, verdicts);
    SkippedFindings(a, db, r, order, verdicts);
    hide Touched, AnyWith, AwaitsVerdicts, Midway;
  }

  lemma JobEffect(
    a: Db, db: Db, r: nat, order: seq<nat>, k: nat, verdicts: map<nat, Verdict>, cost: real, room: nat)
    requires AwaitsVerdicts(a, r, order) && k < |order| && room >= 5 && forall f | f in order :: f in verdicts
    requires Midway(a, db, r, order[..k], verdicts)
    ensures var q := ValidateStrix(Progress(db, room, true), r, order[k], verdicts[order[k]], cost);
            && q.live
            && (k + 1 < |order| || Stalls(order, verdicts) ==> Midway(a, q.db, r, order[..k + 1], verdicts))
            && (k + 1 == |order| && !Stalls(order, verdicts) ==>
                  r < |q.db.runs| && q.db.runs[r].status == Called(a, r, order, verdicts))
  {
    var p, f, head := Progress(db, room, true), order[k], a.runs[r].headSha;
    assert f in order && f !in order[..k] && order[..k] + [f] == order[..k + 1];
    assert f in Touched(a.events, r) && f < |db.findings|;
    VerdictEffect(a, p, r, order[..k], f, verdicts, cost);
    var q := Commit(p, CorrelateKnown(db, r, f, head, head, true, verdicts[f], cost));
    StillQueued(a, q.db, r, order, k + 1, verdicts);
    if k + 1 == |order| && !Stalls(order, verdicts) {
      assert order[..k + 1] == order;
      CalledDisposition(a, q.db, r, order, verdicts);
    }
    hide CorrelateKnown, Commit, Disposition, Called, AnyWith, Touched;
    assert ValidateStrix(p, r, f, verdicts[f], cost) == if AnyWith(q.db, Touched(q.db.events, r), {ValidationQueued})
                                                        then q else FinalizeRun(q, r);
    if !AnyWith(q.db, Touched(q.db.events, r), {ValidationQueued}) { FinalizeFromValidation(q, r); }
  }

  lemma FinalizeFromValidation(p: Progress, r: nat)
    requires p.live && p.left >= 4 && r < |p.db.runs| && p.db.runs[r].status == ValidationRunning
    ensures var q := FinalizeRun(p, r);
            q.live && r < |q.db.runs| && q.db.runs[r].status == Disposition(p.db, Touched(p.db.events, r))
  {}

  lemma OrderIsRun(
    states: seq<Db>, r: nat, order: seq<nat>, verdicts: map<nat, Verdict>, costs: seq<real>, rooms: seq<nat>)
    requires ValidatesInOrder(states, r, order, verdicts, costs, rooms)
    ensures |states| == |order| + 1 && |costs| == |rooms| == |order|
    ensures (forall f | f in order :: f in verdicts) && forall i | 0 <= i < |rooms| :: rooms[i] >= 5
  {
    hide ValidateStrix, Undisturbed;
  }

  lemma NextBegins(
    states: seq<Db>, r: nat, order: seq<nat>, verdicts: map<nat, Verdict>, costs: seq<real>, rooms: seq<nat>, k: nat)
    requires ValidatesInOrder(states, r, order, verdicts, costs, rooms) && k < |order|
    ensures Undisturbed(
              ValidateStrix(Progress(states[k], rooms[k], true), r, order[k], verdicts[order[k]], costs[k]).db,
              states[k + 1], r)
  {
    hide ValidateStrix, Undisturbed;
  }

  lemma NothingValidated(a: Db, r: nat, order: seq<nat>, verdicts: map<nat, Verdict>)
    requires AwaitsVerdicts(a, r, order)
    ensures r < |a.runs| && Midway(a, a, r, order[..0], verdicts)
  {
    hide Touched;
  }

  lemma StillMidway(a: Db, b: Db, c: Db, r: nat, done: seq<nat>, verdicts: map<nat, Verdict>)
    requires r < |a.runs| && (forall f | f in done :: f in verdicts)
    requires Midway(a, b, r, done, verdicts) && Undisturbed(b, c, r)
    ensures Midway(a, c, r, done, verdicts)
  {
    hide Touched, Verdicted;
  }

  lemma {:induction false} ValidationPrefix(
    states: seq<Db>, r: nat, order: seq<nat>, verdicts: map<nat, Verdict>, costs: seq<real>, rooms: seq<nat>, k: nat)
    requires ValidatesInOrder(states, r, order, verdicts, costs, rooms) && AwaitsVerdicts(states[0], r, order)
    requires k < |order| || (k == |order| && Stalls(order, verdicts))
    ensures Midway(states[0], states[k], r, order[..k], verdicts)
  {
    hide *;
    OrderIsRun(states, r, order, verdicts, costs, rooms);
    NothingValidated(states[0], r, order, verdicts);
    if k > 0 {
      ValidationPrefix(states, r, order, verdicts, costs, rooms, k - 1);
      JobEffect(states[0], states[k - 1], r, order, k - 1, verdicts, costs[k - 1], rooms[k - 1]);
      NextBegins(states, r, order, verdicts, costs, rooms, k - 1);
      var q := ValidateStrix(
        Progress(states[k - 1], rooms[k - 1], true), r, order[k - 1], verdicts[order[k - 1]], costs[k - 1]);
      StillMidway(states[0], q.db, states[k], r, order[..k], verdicts);
    }
  }

  /**
   Only the last job concludes the run, and its disposition is `blocked` iff some verdict is a
   confirmed exploit, else `awaiting_fix` iff some candidate was skipped, else `completed`. (An empty
   head SHA never matches a build, so nothing is conclusive.) A failed mission leaves the run running.
   */
  lemma ValidationOutcome(
    states: seq<Db>, r: nat, order: seq<nat>, verdicts: map<nat, Verdict>, costs: seq<real>, rooms: seq<nat>)
    requires ValidatesInOrder(states, r, order, verdicts, costs, rooms) && AwaitsVerdicts(states[0], r, order)
    ensures forall k | 0 <= k < |order| :: r < |states[k].runs| && states[k].runs[r].status == ValidationRunning
    ensures r < |states[|order|].runs|
    ensures states[|order|].runs[r].status
            == if Stalls(order, verdicts) then ValidationRunning else Called(states[0], r, order, verdicts)
  {
    forall k | 0 <= k < |order|
      ensures r < |states[k].runs| && states[k].runs[r].status == ValidationRunning
    {
      ValidationPrefix(states, r, order, verdicts, costs, rooms, k);
    }
    var n := |order| - 1;
    ValidationPrefix(states, r, order, verdicts, costs, rooms, n);
    JobEffect(states[0], states[n], r, order, n, verdicts, costs[n], rooms[n]);
    if Stalls(order, verdicts) {
      ValidationPrefix(states, r, order, verdicts, costs, rooms, n + 1);
    }
    hide ValidateStrix, Called, Touched, Verdicted, Stalls;
  }

  /** Two schedules of the same jobs with the same verdicts give the run the same status. */
  lemma OrderDoesNotMatter(
    a: Db, r: nat, verdicts: map<nat, Verdict>, rooms1: seq<nat>, rooms2: seq<nat>,
    states1: seq<Db>, order1: seq<nat>, costs1: seq<real>, states2: seq<Db>, order2: seq<nat>, costs2: seq<real>)
    requires AwaitsVerdicts(a, r, order1) && states1 != [] && states2 != []
    requires Distinct(order2) && forall f :: f in order1 <==> f in order2
    requires Undisturbed(a, states1[0], r) && Undisturbed(a, states2[0], r)
    requires ValidatesInOrder(states1, r, order1, verdicts, costs1, rooms1)
    requires ValidatesInOrder(states2, r, order2, verdicts, costs2, rooms2)
    ensures r < |states1[|order1|].runs| && r < |states2[|order2|].runs|
    ensures states1[|order1|].runs[r].status == states2[|order2|].runs[r].status
  {
    assert order1[0] in order1;
    assert order2 != [] by { assert order1[0] in order2; }
    AwaitsSame(a, states1[0], r, order1, order1);
    AwaitsSame(a, states2[0], r, order1, order2);
    ValidationOutcome(states1, r, order1, verdicts, costs1, rooms1);
    ValidationOutcome(states2, r, order2, verdicts, costs2, rooms2);
    CalledSame(a, states1[0], r, order1, order1, verdicts);
    CalledSame(a, states2[0], r, order1, order2, verdicts);
  }

  lemma AwaitsSame(a: Db, b: Db, r: nat, order: seq<nat>, other: seq<nat>)
    requires AwaitsVerdicts(a, r, order) && Undisturbed(a, b, r)
    requires Distinct(other) && other != [] && forall f :: f in order <==> f in other
    ensures AwaitsVerdicts(b, r, other)
  {}

  lemma CalledSame(a: Db, b: Db, r: nat, order: seq<nat>, other: seq<nat>, verdicts: map<nat, Verdict>)
    requires Undisturbed(a, b, r) && (forall f :: f in order <==> f in other)
    requires forall f | f in order :: f in verdicts
    ensures Called(a, r, order, verdicts) == Called(b, r, other, verdicts)
  {
    var ids := Touched(a.events, r);
    assert AnyWith(a, ids, {SourceConfirmed}) <==> AnyWith(b, ids, {SourceConfirmed});
  }

  /** From the end of the review to the disposition: routing, then the escalated jobs, if any, in any order. */
  lemma ReviewOutcome(
    p: Progress, r: nat, candidates: seq<nat>, allowed: bool, maxBudget: real, states: seq<Db>, order: seq<nat>,
    verdicts: map<nat, Verdict>, costs: seq<real>, rooms: seq<nat>)
    requires p.live && p.left >= 2 * |candidates| + 4 && JustReviewed(p.db, r) && LoadsCandidates(p.db, r, candidates)
    requires Distinct(order) && forall f :: f in Queue(p.db, r, candidates, allowed, maxBudget) <==> f in order
    requires ValidatesInOrder(states, r, order, verdicts, costs, rooms)
    requires Undisturbed(Route(p, r, candidates, allowed, maxBudget).db, states[0], r)
    ensures var last := states[|order|];
            && r < |last.runs|
            && last.runs[r].status ==
               if Stalls(order, verdicts) then ValidationRunning
               else if p.db.runs[r].headSha != "" && (exists f | f in order :: verdicts[f] == Exploited) then Blocked
               else if exists f | f in candidates :: f !in order then AwaitingFix
               else Completed
  {
    hide Route, Touched, AnyWith, Queue, AwaitsVerdicts, LoadsCandidates, JustReviewed, IsEscalated;
    var queued := Queue(p.db, r, candidates, allowed, maxBudget);
    var db := Route(p, r, candidates, allowed, maxBudget).db;
    RoutingOutcome(p, r, candidates, allowed, maxBudget);
    if order == [] {
      EmptyTogether(queued, order);
      assert candidates != [] ==> candidates[0] in candidates;
    } else {
      assert order[0] in queued;
      assert Requeued(p.db, db, order);
      RoutedAwaits(p.db, db, r, candidates, order);
      AwaitsSame(db, states[0], r, order, order);
      CalledSame(db, states[0], r, order, order, verdicts);
      ValidationOutcome(states, r, order, verdicts, costs, rooms);
    }
  }

  lemma EmptyTogether(a: seq<nat>, b: seq<nat>)
    requires forall f :: f in a <==> f in b
    ensures a == [] <==> b == []
  {
    if a != [] { assert a[0] in b; }
    if b != [] { assert b[0] in a; }
  }

  lemma RoutedAwaits(a: Db, db: Db, r: nat, candidates: seq<nat>, order: seq<nat>)
    requires JustReviewed(a, r) && LoadsCandidates(a, r, candidates) && Distinct(order) && order != []
    requires (forall f | f in order :: f in candidates) && Requeued(a, db, order)
    requires Touched(db.events, r) == Touched(a.events, r) && r < |db.runs|
    requires db.runs[r].status == ValidationRunning && db.runs[r].target.Some?
    ensures AwaitsVerdicts(db, r, order)
    ensures AnyWith(db, Touched(db.events, r), {SourceConfirmed}) <==> exists f | f in candidates :: f !in order
  {
    if exists f | f in candidates :: f !in order {
      var f :| f in candidates && f !in order;
      assert f in Touched(db.events, r) && db.findings[f].status == SourceConfirmed;
    }
  }
}
