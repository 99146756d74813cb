/** A run is concluded at most once, whatever jobs are re-run and wherever handlers stop. */
module Dispositions {
  import opened Options
  import opened Records
  import opened Handlers
  import opened AuditTrail
  import opened Lawfulness

  function Disposals(events: seq<Event>, r: nat): nat {
    if events == [] then 0 else
    var e := events[|events| - 1];
    Disposals(events[..|events| - 1], r) + if OfRun(e, r) && IsDisposition(e.to) then 1 else 0
  }

  lemma {:induction false} ChainDisposesOnce(events: seq<Event>, r: nat, s: RunStatus)
    requires RunChain(events, r, s)
    requires forall i | 0 <= i < |events| :: events[i].RunMoved? ==> events[i].to != FixVerificationRunning
    ensures Disposals(events, r) <= 1
    ensures Disposals(events, r) == 1 <==> DispositionOf(events, r).Some?
    ensures !IsDisposition(s) && s != Cancelled ==> Disposals(events, r) == 0
    ensures s != Cancelled ==> DispositionOf(events, r) == if IsDisposition(s) then Some(s) else None
  {
    if events != [] {
      var e, earlier := events[|events| - 1], events[..|events| - 1];
      ChainDisposesOnce(earlier, r, if OfRun(e, r) then e.from else s);
    }
  }

  /**
   In every reachable state a run has at most one disposition event, and what was sent out about it is
   an initial part of one receipt job, one completion webhook and, if that disposition is `blocked`,
   one alert: so at most one of each, and nothing before the disposition.
   */
  lemma RunIsConcludedOnce(states: seq<Db>, steps: seq<Step>, k: nat, r: nat)
    requires IsExecution(states, steps) && k < |states|
    ensures Disposals(states[k].events, r) <= 1
    ensures Finals(states[k].requests, r) <= Package(r, DispositionOf(states[k].events, r))
    ensures r < |states[k].runs| && IsDisposition(states[k].runs[r].status) ==>
              DispositionOf(states[k].events, r) == Some(states[k].runs[r].status)
  {
    var db := states[k];
    ExecutionKeepsLedger(states, steps, k);
    assert RunChain(db.events, r, RunStatusOf(db, r));
    ChainDisposesOnce(db.events, r, RunStatusOf(db, r));
  }

  /** Finalizing a concluded run changes nothing, and it throws exactly when the run awaits a fix. */
  lemma FinalizingAgainChangesNothing(p: Progress, r: nat)
    requires Ledger(p.db) && p.live && r < |p.db.runs| && DispositionOf(p.db.events, r).Some?
    ensures FinalizeRun(p, r) == p.(live := p.db.runs[r].status != AwaitingFix)
  {
    hide RunChain, DispositionOf, FinalizeRun;
    assert RunChain(p.db.events, r, RunStatusOf(p.db, r));
    ChainDisposesOnce(p.db.events, r, p.db.runs[r].status);
    hide Ledger;
    if p.db.runs[r].status == AwaitingFix {
      AwaitingFixThrows(p, r);
    } else {
      TerminalIsLeft(p, r);
    }
  }

  /** No disposition follows `awaiting_fix`. */
  lemma AwaitingFixThrows(p: Progress, r: nat)
    requires p.live && r < |p.db.runs| && p.db.runs[r].status == AwaitingFix
    ensures FinalizeRun(p, r) == Throw(p)
  {
    hide AnyWith, Touched;
  }

  lemma TerminalIsLeft(p: Progress, r: nat)
    requires p.live && r < |p.db.runs| && p.db.runs[r].status in [Completed, Blocked, Cancelled]
    ensures FinalizeRun(p, r) == p
  {}

  /** Left to finish, the first call gives the disposition and sends the whole package. */
  lemma FinalizingDelivers(p: Progress, r: nat)
    requires Ledger(p.db) && p.live && p.left >= 4 && r < |p.db.runs|
    requires p.db.runs[r].status in [SourceReviewCompleted, ValidationRunning]
    ensures var q := FinalizeRun(p, r); var d := Disposition(p.db, Touched(p.db.events, r));
            && q.live && q.db.runs[r].status == d
            && DispositionOf(q.db.events, r) == Some(d) && Finals(q.db.requests, r) == Package(r, Some(d))
  {
    var d := Disposition(p.db, Touched(p.db.events, r));
    DispositionIsFirst(p.db, r, d);
    SendOutDelivers(CommitRun(p, r, d), r, d);
    hide Ledger, Finals, DispositionOf, SendOut, Package;
  }

  lemma SendOutDelivers(p: Progress, r: nat, d: RunStatus)
    requires p.live && p.left >= 3 && Finals(p.db.requests, r) == []
    ensures var q := SendOut(p, r, d);
            && q.live && q.db.runs == p.db.runs && q.db.events == p.db.events
            && Finals(q.db.requests, r) == Package(r, Some(d))
  {
    hide Finals;
    EnqueueFinals(p.db, ReceiptJob(r), r);
    var p1 := CommitRequest(p, ReceiptJob(r));
    EnqueueFinals(p1.db, CompletedWebhook(r, d), r);
    EnqueueFinals(CommitRequest(p1, CompletedWebhook(r, d)).db, BlockedWebhook(r), r);
  }
}
