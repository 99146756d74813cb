/** The queue object: it changes its jobs in place, and its drain loop always ends. */
module InMemoryQueue {
  import opened Options
  import opened JobQueues
  import opened QueueAccounting
  import opened QueueTermination

  /** The queue after its first k handler calls, the n-th of which replies `script(n)`. */
  function Turns(q: Queue, script: nat -> Reply, k: nat): Queue {
    if k == 0 then q else DoTurn(Turns(q, script, k - 1), script(k - 1))
  }

  class InMemoryJobQueue {
    var jobs: seq<Job>
    var handlers: set<JobType>
    var started: bool
    ghost var log: seq<Entry>

    ghost function View(): Queue
      reads this
    {
      Queue(jobs, log)
    }

    constructor ()
      ensures View() == Queue([], []) && handlers == {} && !started
    {
      jobs, handlers, started, log := [], {}, false, [];
    }

    method RegisterHandler(t: JobType)
      modifies this`handlers
      ensures handlers == old(handlers) + {t}
    {
      handlers := handlers + {t};
    }

    method EnqueueJob(e: Enqueuing) returns (id: string, deduplicated: bool)
      modifies this`jobs, this`log
      ensures View() == DoEnqueue(old(View()), e)
      ensures id == IdOf(e) && deduplicated == !old(Creates(jobs, e))
      ensures old(Balanced(View())) ==> Balanced(View())
    {
      ghost var before := View();
      id := JobId(e.organization, e.jobType, e.key);
      var existing := Find(jobs, id);
      if existing.Some? && jobs[existing.value].state != Cancelled {
        deduplicated := true;
      } else {
        deduplicated := false;
        jobs := if existing.Some? then jobs[existing.value := NewJob(e)] else jobs + [NewJob(e)];
        log := log + [Began(id)];
      }
      hide IdOf;
      if Balanced(before) { DoKeeps(before, EnqueueOp(e)); }
    }

    method CancelJob(id: string) returns (cancelled: bool)
      requires Balanced(View())
      modifies this`jobs
      ensures Balanced(View()) && View() == Do(old(View()), CancelOp(id))
      ensures cancelled <==> exists i | 0 <= i < |old(jobs)| ::
                old(jobs)[i].id == id && old(jobs)[i].state in {Waiting, Delayed}
    {
      ghost var before := View();
      var at := Find(jobs, id);
      cancelled := at.Some? && jobs[at.value].state in {Waiting, Delayed};
      if cancelled {
        jobs := jobs[at.value := jobs[at.value].(state := Cancelled)];
      }
      DoKeeps(before, CancelOp(id));
    }

    method GetDeadLetterJobs(t: Option<JobType>) returns (dead: seq<Job>)
      ensures dead == DeadLetter(jobs, t)
    {
      dead := [];
      for n := 0 to |jobs|
        invariant dead == DeadLetter(jobs[..n], t)
      {
        assert jobs[..n + 1][..n] == jobs[..n];
        if jobs[n].state == Failed && (t.None? || t.value == jobs[n].jobType) {
          dead := dead + [jobs[n]];
        }
      }
      assert jobs[..|jobs|] == jobs;
    }

    /** Runs one attempt of the job at position i. */
    method RunNext(i: nat, reply: Reply)
      requires Balanced(View()) && Next(jobs) == Some(i) && jobs[i].jobType in handlers
      modifies this`jobs, this`log
      ensures Balanced(View()) && View() == DoTurn(old(View()), reply)
    {
      hide Balanced, InPlace, Turn, DoTurn, DoEnqueueAll, Settle, Next;
      ghost var before := View();
      TurnIs(before, i, reply);
      TurnKeeps(before, reply);
      jobs := jobs[i := jobs[i].(state := Active, attemptsMade := jobs[i].attemptsMade + 1)];
      EnqueueReply(reply.enqueued);
      SettleJob(i, reply.outcome);
      log := log + [Called(before.jobs[i].id, reply.outcome)];
    }

    /** What the handler enqueues while its job is active. */
    method EnqueueReply(es: seq<Enqueuing>)
      modifies this`jobs, this`log
      ensures View() == DoEnqueueAll(old(View()), es)
    {
      for n := 0 to |es|
        invariant View() == DoEnqueueAll(old(View()), es[..n])
      {
        hide Balanced, DoEnqueue;
        assert es[..n + 1][..n] == es[..n];
        var id, deduplicated := EnqueueJob(es[n]);
      }
      assert es[..|es|] == es;
    }

    method SettleJob(i: nat, outcome: Outcome)
      requires i < |jobs|
      modifies this`jobs
      ensures jobs == old(jobs)[i := Settle(old(jobs)[i], outcome)]
    {
      match outcome {
        case Succeeds => jobs := jobs[i := jobs[i].(state := Completed)];
        case Aborted => jobs := jobs[i := jobs[i].(state := Cancelled)];
        case Throws(reason) =>
          if jobs[i].attemptsMade >= jobs[i].maxAttempts {
            jobs := jobs[i := jobs[i].(state := Failed, failedReason := Some(reason))];
          } else {
            jobs := jobs[i := jobs[i].(state := Waiting)];
          }
      }
    }

    /**
     Runs waiting jobs until none is left, or one has no handler. It ends for every way the handlers may
     reply, provided what they enqueue draws its ids from a finite set and they are cancelled only
     finitely often (all calls from the `quiet`-th on are not).
     */
    method Drain(script: nat -> Reply, ghost ids: set<string>, ghost quiet: nat) returns (ok: bool, calls: nat)
      requires Balanced(View())
      requires forall n: nat :: DrawsFrom(script(n).enqueued, ids) && (n >= quiet ==> script(n).outcome != Aborted)
      modifies this`jobs, this`log
      ensures Balanced(View()) && View() == Turns(old(View()), script, calls)
      ensures ok ==> forall i | 0 <= i < |jobs| :: jobs[i].state != Waiting && jobs[i].state != Active
      ensures !ok ==> Next(jobs).Some? && jobs[Next(jobs).value].jobType !in handlers
    {
      hide Balanced, Turn, DoTurn, Live, Work, DrawsFrom, Next;
      calls := 0;
      var next := Next(jobs);
      while next.Some?
        invariant Balanced(View()) && View() == Turns(old(View()), script, calls) && next == Next(jobs)
        decreases if calls < quiet then quiet - calls else 0, |ids - Live(jobs)|, Work(jobs)
      {
        if jobs[next.value].jobType !in handlers { return false, calls; }
        var reply := script(calls);
        assert DrawsFrom(reply.enqueued, ids) && (calls >= quiet ==> reply.outcome != Aborted);
        TurnProgress(View(), reply, ids, calls >= quiet);
        RunNext(next.value, reply);
        calls := calls + 1;
        next := Next(jobs);
      }
      Drained(View());
      ok := true;
    }

    method Start(script: nat -> Reply, ghost ids: set<string>, ghost quiet: nat) returns (ok: bool, calls: nat)
      requires Balanced(View())
      requires forall n: nat :: DrawsFrom(script(n).enqueued, ids) && (n >= quiet ==> script(n).outcome != Aborted)
      modifies this`jobs, this`log, this`started
      ensures started && Balanced(View()) && View() == Turns(old(View()), script, calls)
      ensures ok ==> forall i | 0 <= i < |jobs| :: jobs[i].state != Waiting && jobs[i].state != Active
    {
      started := true;
      ok, calls := Drain(script, ids, quiet);
    }

    method ReplayDeadLetterJob(id: string, script: nat -> Reply, ghost ids: set<string>, ghost quiet: nat)
      returns (ok: bool, calls: nat)
      requires Balanced(View())
      requires forall n: nat :: DrawsFrom(script(n).enqueued, ids) && (n >= quiet ==> script(n).outcome != Aborted)
      modifies this`jobs, this`log
      ensures Balanced(View()) && View() == Turns(DoReplay(old(View()), id), script, calls)
      ensures var failed := exists i | 0 <= i < |old(jobs)| :: old(jobs)[i].id == id && old(jobs)[i].state == Failed;
              if failed && started then
                if ok then forall i | 0 <= i < |jobs| :: jobs[i].state != Waiting && jobs[i].state != Active
                else Next(jobs).Some? && jobs[Next(jobs).value].jobType !in handlers
              else ok && calls == 0
    {
      ghost var before := View();
      var at := Find(jobs, id);
      ok, calls := true, 0;
      if at.Some? && jobs[at.value].state == Failed {
        jobs := jobs[at.value := jobs[at.value].(state := Waiting, attemptsMade := 0)];
        log := log + [Began(id)];
        assert View() == DoReplay(before, id);
        DoKeeps(before, ReplayOp(id));
        if started { ok, calls := Drain(script, ids, quiet); }
      }
    }
  }

  lemma Drained(q: Queue)
    requires Balanced(q) && Next(q.jobs).None?
    ensures forall i | 0 <= i < |q.jobs| :: q.jobs[i].state != Waiting && q.jobs[i].state != Active
  {
    NextIsLeast(q.jobs);
  }

  lemma TurnProgress(q: Queue, reply: Reply, ids: set<string>, uncancelled: bool)
    requires Balanced(q) && Next(q.jobs).Some? && DrawsFrom(reply.enqueued, ids)
    requires uncancelled ==> reply.outcome != Aborted
    ensures Work(q.jobs) >= 0
    ensures uncancelled ==>
              var b := DoTurn(q, reply).jobs;
              && Work(b) >= 0
              && (|| |ids - Live(b)| < |ids - Live(q.jobs)|
                  || (|ids - Live(b)| == |ids - Live(q.jobs)| && Work(b) < Work(q.jobs)))
  {
    assert UniqueIds(q.jobs) && AttemptsLeft(q.jobs);
    WorkIsNatural(q.jobs);
    if uncancelled { TurnDecreases(q.jobs, reply, ids); }
    hide DoTurn, Live, Work;
  }
}
