/** What a job's state says about the calls its handler received, over any sequence of operations. */
module QueueAccounting {
  import opened Options
  import opened JobQueues

  /** The life of the jobs: when one was created or replayed, and every call of a handler. */
  datatype Entry = Began(id: string) | Called(id: string, outcome: Outcome)

  datatype Queue = Queue(jobs: seq<Job>, log: seq<Entry>)

  datatype Operation =
    | EnqueueOp(request: Enqueuing)
    | CancelOp(id: string)
    | ReplayOp(id: string)
    | TurnOp(reply: Reply)

  /** The outcomes of the calls for the job since it was last created or replayed. */
  function Since(log: seq<Entry>, id: string): seq<Outcome> {
    if log == [] then [] else
    var e, earlier := log[|log| - 1], log[..|log| - 1];
    if e.id != id then Since(earlier, id)
    else if e.Began? then []
    else Since(earlier, id) + [e.outcome]
  }

  predicate Creates(jobs: seq<Job>, e: Enqueuing) {
    var i := Find(jobs, IdOf(e));
    i.None? || jobs[i.value].state == Cancelled
  }

  function DoEnqueue(q: Queue, e: Enqueuing): Queue {
    Queue(Enqueue(q.jobs, e), if Creates(q.jobs, e) then q.log + [Began(IdOf(e))] else q.log)
  }

  function DoEnqueueAll(q: Queue, es: seq<Enqueuing>): (r: Queue)
    ensures r.jobs == EnqueueAll(q.jobs, es)
  {
    if es == [] then q else DoEnqueue(DoEnqueueAll(q, es[..|es| - 1]), es[|es| - 1])
  }

  function DoReplay(q: Queue, id: string): Queue {
    var i := Find(q.jobs, id);
    Queue(Replay(q.jobs, id), if i.Some? && q.jobs[i.value].state == Failed then q.log + [Began(id)] else q.log)
  }

  function DoTurn(q: Queue, reply: Reply): (r: Queue)
    ensures r.jobs == Turn(q.jobs, reply)
  {
    var next := Next(q.jobs);
    if next.None? then q else
    var i := next.value;
    var active := Queue(q.jobs[i := Activate(q.jobs[i])], q.log);
    var after := DoEnqueueAll(active, reply.enqueued);
    EnqueueAllKeepsActive(active.jobs, reply.enqueued, i);
    Queue(after.jobs[i := Settle(after.jobs[i], reply.outcome)], after.log + [Called(q.jobs[i].id, reply.outcome)])
  }

  function Do(q: Queue, op: Operation): Queue {
    match op
    case EnqueueOp(e) => DoEnqueue(q, e)
    case CancelOp(id) => Queue(Cancel(q.jobs, id), q.log)
    case ReplayOp(id) => DoReplay(q, id)
    case TurnOp(reply) => DoTurn(q, reply)
  }

  function DoAll(q: Queue, ops: seq<Operation>): Queue {
    if ops == [] then q else Do(DoAll(q, ops[..|ops| - 1]), ops[|ops| - 1])
  }

  // ---------------------------------------------------------------- the account of one job

  function Allowed(job: Job): nat { if job.maxAttempts < 1 then 1 else job.maxAttempts }

  predicate AllThrew(outcomes: seq<Outcome>) { forall k | 0 <= k < |outcomes| :: outcomes[k].Throws? }

  /** As many calls as attempts, never more than allowed, and an ending that matches the state. */
  ghost predicate Accounts(job: Job, calls: seq<Outcome>) {
    && |calls| == job.attemptsMade <= Allowed(job)
    && match job.state
       case Waiting => job.attemptsMade < Allowed(job) && AllThrew(calls)
       case Delayed => calls == []
       case Active => job.attemptsMade >= 1 && AllThrew(calls[..|calls| - 1])
       case Completed => calls != [] && AllThrew(calls[..|calls| - 1]) && calls[|calls| - 1] == Succeeds
       case Failed => job.attemptsMade == Allowed(job) && AllThrew(calls)
       case Cancelled => calls == [] || (AllThrew(calls[..|calls| - 1]) && !calls[|calls| - 1].Succeeds?)
  }

  ghost predicate UniqueIds(jobs: seq<Job>) {
    forall i, k | 0 <= i < k < |jobs| :: jobs[i].id != jobs[k].id
  }

  ghost predicate Balanced(q: Queue) {
    && UniqueIds(q.jobs)
    && (forall i | 0 <= i < |q.jobs| :: Accounts(q.jobs[i], Since(q.log, q.jobs[i].id)))
    && (forall i | 0 <= i < |q.jobs| :: q.jobs[i].state != Active)
  }

  /** Jobs stay where they were inserted, and a delayed job is not touched unless `by` cancels it. */
  ghost predicate InPlace(a: seq<Job>, b: seq<Job>) {
    && |a| <= |b|
    && forall i | 0 <= i < |a| :: a[i].id == b[i].id && (a[i].state == Delayed ==> b[i] == a[i])
  }

  lemma SinceSnoc(log: seq<Entry>, e: Entry, id: string)
    ensures Since(log + [e], id)
            == if e.id != id then Since(log, id) else if e.Began? then [] else Since(log, id) + [e.outcome]
  {
    assert (log + [e])[..|log|] == log;
  }

  lemma FindUnique(jobs: seq<Job>, i: nat)
    requires UniqueIds(jobs) && i < |jobs|
    ensures Find(jobs, jobs[i].id) == Some(i)
  {}

  /** Balanced but for the jobs that are running. */
  ghost predicate Holds(q: Queue) {
    && UniqueIds(q.jobs)
    && forall i | 0 <= i < |q.jobs| :: q.jobs[i].state != Active ==> Accounts(q.jobs[i], Since(q.log, q.jobs[i].id))
  }

  lemma EnqueueKeeps(q: Queue, e: Enqueuing)
    requires Holds(q)
    ensures Holds(DoEnqueue(q, e)) && InPlace(q.jobs, DoEnqueue(q, e).jobs)
    ensures forall i | 0 <= i < |q.jobs| && q.jobs[i].state == Active ::
              && DoEnqueue(q, e).jobs[i] == q.jobs[i]
              && Since(DoEnqueue(q, e).log, q.jobs[i].id) == Since(q.log, q.jobs[i].id)
    ensures forall i | |q.jobs| <= i < |DoEnqueue(q, e).jobs| :: DoEnqueue(q, e).jobs[i].state != Active
  {
    hide IdOf;
    var b := DoEnqueue(q, e);
    forall i | 0 <= i < |b.jobs|
      ensures b.jobs[i].state != Active ==> Accounts(b.jobs[i], Since(b.log, b.jobs[i].id))
    {
      if Creates(q.jobs, e) { SinceSnoc(q.log, Began(IdOf(e)), b.jobs[i].id); }
    }
    forall i | 0 <= i < |q.jobs| && q.jobs[i].state == Active
      ensures b.jobs[i] == q.jobs[i] && Since(b.log, q.jobs[i].id) == Since(q.log, q.jobs[i].id)
    {
      FindUnique(q.jobs, i);
      if Creates(q.jobs, e) { SinceSnoc(q.log, Began(IdOf(e)), q.jobs[i].id); }
    }
  }

  lemma {:induction false} EnqueueAllKeeps(q: Queue, es: seq<Enqueuing>, i: nat)
    requires Holds(q) && i < |q.jobs| && q.jobs[i].state == Active
    requires forall k | 0 <= k < |q.jobs| && k != i :: q.jobs[k].state != Active
    ensures var b := DoEnqueueAll(q, es);
            && Holds(b) && InPlace(q.jobs, b.jobs)
            && b.jobs[i] == q.jobs[i] && Since(b.log, q.jobs[i].id) == Since(q.log, q.jobs[i].id)
            && forall k | 0 <= k < |b.jobs| && k != i :: b.jobs[k].state != Active
  {
    if es != [] {
      var n := |es| - 1;
      EnqueueAllKeeps(q, es[..n], i);
      EnqueueKeeps(DoEnqueueAll(q, es[..n]), es[n]);
      hide Holds, DoEnqueue, Since;
      EnqueueKeepsIdle(DoEnqueueAll(q, es[..n]), es[n], i);
    }
  }

  lemma EnqueueKeepsIdle(q: Queue, e: Enqueuing, i: nat)
    requires forall k | 0 <= k < |q.jobs| && k != i :: q.jobs[k].state != Active
    ensures forall k | 0 <= k < |DoEnqueue(q, e).jobs| && k != i :: DoEnqueue(q, e).jobs[k].state != Active
  {
    hide IdOf;
  }

  lemma TurnKeeps(q: Queue, reply: Reply)
    requires Balanced(q)
    ensures Balanced(DoTurn(q, reply)) && InPlace(q.jobs, DoTurn(q, reply).jobs)
  {
    var next := Next(q.jobs);
    if next.Some? {
      var i := next.value;
      TurnIs(q, i, reply);
      hide DoTurn, Settle, Next, Balanced;
      ActiveTurnKeeps(q, i, reply);
    }
  }

  /** A turn in its three parts: activate, let the handler enqueue, settle. */
  lemma TurnIs(q: Queue, i: nat, reply: Reply)
    requires Next(q.jobs) == Some(i)
    ensures var after := DoEnqueueAll(Queue(q.jobs[i := Activate(q.jobs[i])], q.log), reply.enqueued);
            && i < |after.jobs|
            && DoTurn(q, reply) == Queue(after.jobs[i := Settle(after.jobs[i], reply.outcome)],
                                         after.log + [Called(q.jobs[i].id, reply.outcome)])
  {
    EnqueueAllKeepsActive(q.jobs[i := Activate(q.jobs[i])], reply.enqueued, i);
  }

  lemma ActiveTurnKeeps(q: Queue, i: nat, reply: Reply)
    requires Balanced(q) && i < |q.jobs| && q.jobs[i].state == Waiting
    ensures var after := DoEnqueueAll(Queue(q.jobs[i := Activate(q.jobs[i])], q.log), reply.enqueued);
            && i < |after.jobs|
            && var b := Queue(after.jobs[i := Settle(after.jobs[i], reply.outcome)],
                              after.log + [Called(q.jobs[i].id, reply.outcome)]);
            Balanced(b) && InPlace(q.jobs, b.jobs)
  {
    var active := Queue(q.jobs[i := Activate(q.jobs[i])], q.log);
    assert Holds(active);
    EnqueueAllKeeps(active, reply.enqueued, i);
    var after := DoEnqueueAll(active, reply.enqueued);
    assert Accounts(q.jobs[i], Since(q.log, q.jobs[i].id));
    hide DoEnqueueAll, EnqueueAll, Holds, Balanced, Since, Accounts;
    SettleKeeps(after, i, q.jobs[i], Since(q.log, q.jobs[i].id), reply.outcome);
  }

  lemma SettleKeeps(q: Queue, i: nat, job: Job, calls: seq<Outcome>, outcome: Outcome)
    requires Holds(q) && i < |q.jobs| && forall k | 0 <= k < |q.jobs| && k != i :: q.jobs[k].state != Active
    requires job.state == Waiting && Accounts(job, calls) && q.jobs[i] == Activate(job)
    requires Since(q.log, job.id) == calls
    ensures var b := Queue(q.jobs[i := Settle(q.jobs[i], outcome)], q.log + [Called(job.id, outcome)]);
            Balanced(b) && b.jobs[i].id == job.id && b.jobs[i].state != Delayed
  {
    var b := Queue(q.jobs[i := Settle(q.jobs[i], outcome)], q.log + [Called(job.id, outcome)]);
    forall k | 0 <= k < |b.jobs| ensures Accounts(b.jobs[k], Since(b.log, b.jobs[k].id)) {
      SinceSnoc(q.log, Called(job.id, outcome), b.jobs[k].id);
      if k == i { SettleAccounts(job, calls, outcome); }
    }
  }

  lemma SettleAccounts(job: Job, calls: seq<Outcome>, outcome: Outcome)
    requires job.state == Waiting && Accounts(job, calls)
    ensures Accounts(Settle(Activate(job), outcome), calls + [outcome])
  {
    assert (calls + [outcome])[..|calls|] == calls;
  }

  lemma DoKeeps(q: Queue, op: Operation)
    requires Balanced(q)
    ensures Balanced(Do(q, op))
    ensures |q.jobs| <= |Do(q, op).jobs|
    ensures forall i | 0 <= i < |q.jobs| :: q.jobs[i].id == Do(q, op).jobs[i].id
    ensures !op.CancelOp? ==> InPlace(q.jobs, Do(q, op).jobs)
  {
    match op
    case EnqueueOp(e) => EnqueueOpKeeps(q, e);
    case CancelOp(id) => CancelKeeps(q, id);
    case ReplayOp(id) => ReplayKeeps(q, id);
    case TurnOp(reply) => TurnKeeps(q, reply); hide DoTurn, Balanced;
  }

  lemma EnqueueOpKeeps(q: Queue, e: Enqueuing)
    requires Balanced(q)
    ensures Balanced(DoEnqueue(q, e)) && InPlace(q.jobs, DoEnqueue(q, e).jobs)
  {
    EnqueueKeeps(q, e);
    EnqueueKeepsIdle(q, e, |q.jobs| + 1);
    hide DoEnqueue, Since, Accounts;
  }

  lemma CancelKeeps(q: Queue, id: string)
    requires Balanced(q)
    ensures var b := Queue(Cancel(q.jobs, id), q.log);
            && Balanced(b) && |b.jobs| == |q.jobs| && forall i | 0 <= i < |q.jobs| :: q.jobs[i].id == b.jobs[i].id
  {}

  lemma ReplayKeeps(q: Queue, id: string)
    requires Balanced(q)
    ensures Balanced(DoReplay(q, id)) && InPlace(q.jobs, DoReplay(q, id).jobs)
  {
    var b := DoReplay(q, id);
    forall i | 0 <= i < |q.jobs| ensures Accounts(b.jobs[i], Since(b.log, b.jobs[i].id)) {
      SinceSnoc(q.log, Began(id), q.jobs[i].id);
    }
  }

  /**
   Over any sequence of enqueues, cancellations, replays and drain turns: ids are unique; every job has
   had exactly `attemptsMade` calls since it was created or replayed, at most its allowance; a completed
   job had one success and it came last; a failed one used its whole allowance without any.
   */
  lemma {:induction false} QueueIsBalanced(ops: seq<Operation>)
    ensures Balanced(DoAll(Queue([], []), ops))
  {
    if ops != [] {
      QueueIsBalanced(ops[..|ops| - 1]);
      DoKeeps(DoAll(Queue([], []), ops[..|ops| - 1]), ops[|ops| - 1]);
    }
  }

  /** Later operations leave every job at the place where it was inserted. */
  lemma {:induction false} InsertionOrderIsKept(q: Queue, ops: seq<Operation>)
    requires Balanced(q)
    ensures Balanced(DoAll(q, ops)) && |q.jobs| <= |DoAll(q, ops).jobs|
    ensures forall i | 0 <= i < |q.jobs| :: q.jobs[i].id == DoAll(q, ops).jobs[i].id
  {
    if ops != [] {
      InsertionOrderIsKept(q, ops[..|ops| - 1]);
      DoKeeps(DoAll(q, ops[..|ops| - 1]), ops[|ops| - 1]);
    }
  }

  /** Without cancellation, a delayed job is never touched: the queue does not promote it. */
  lemma {:induction false} DelayedJobsWait(q: Queue, ops: seq<Operation>, i: nat)
    requires Balanced(q) && i < |q.jobs| && q.jobs[i].state == Delayed
    requires forall k | 0 <= k < |ops| :: !ops[k].CancelOp?
    ensures i < |DoAll(q, ops).jobs| && DoAll(q, ops).jobs[i] == q.jobs[i]
  {
    InsertionOrderIsKept(q, ops);
    if ops != [] {
      InsertionOrderIsKept(q, ops[..|ops| - 1]);
      DelayedJobsWait(q, ops[..|ops| - 1], i);
      DoKeeps(DoAll(q, ops[..|ops| - 1]), ops[|ops| - 1]);
    }
  }

  /** The dead letter lists exactly the failed jobs, in the order of their insertion. */
  lemma {:induction false} DeadLetterIsTheFailed(jobs: seq<Job>, t: Option<JobType>) returns (at: seq<nat>)
    ensures |at| == |DeadLetter(jobs, t)| && forall k | 0 <= k < |at| ::
              at[k] < |jobs| && jobs[at[k]] == DeadLetter(jobs, t)[k]
    ensures forall k, l | 0 <= k < l < |at| :: at[k] < at[l]
    ensures forall i | 0 <= i < |jobs| ::
              i in at <==> jobs[i].state == Failed && (t.None? || t.value == jobs[i].jobType)
  {
    at := [];
    if jobs != [] {
      var n := |jobs| - 1;
      at := DeadLetterIsTheFailed(jobs[..n], t);
      if jobs[n].state == Failed && (t.None? || t.value == jobs[n].jobType) { at := at + [n]; }
    }
  }
}
