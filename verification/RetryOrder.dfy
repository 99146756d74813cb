/** In which order a whole drain calls its jobs when handlers fail and enqueue more. */
module RetryOrder {
  import opened Options
  import opened JobQueues
  import opened QueueAccounting
  import opened QueueOrder
  import opened InMemoryQueue

  ghost predicate NoneCancelled(jobs: seq<Job>) { forall k | 0 <= k < |jobs| :: jobs[k].state != JobState.Cancelled }

  /** The first k calls are not cancelled while they run. */
  ghost predicate Uncancelled(script: nat -> Reply, k: nat) { forall n: nat | n < k :: script(n).outcome != Aborted }

  /** A turn changes the job that ran, and otherwise only appends. */
  lemma TurnChangesOne(jobs: seq<Job>, reply: Reply)
    requires NoneCancelled(jobs) && Next(jobs).Some? && reply.outcome != Aborted
    ensures var i, b := Next(jobs).value, Turn(jobs, reply);
            && NoneCancelled(b) && |jobs| <= |b|
            && (forall k | 0 <= k < |jobs| && k != i :: b[k] == jobs[k])
            && b[i] == Settle(Activate(jobs[i]), reply.outcome) && b[i].id == jobs[i].id
  {
    var i := Next(jobs).value;
    var active := jobs[i := Activate(jobs[i])];
    hide Next;
    EnqueueAllAppends(active, reply.enqueued);
    hide EnqueueAll;
    var after := EnqueueAll(active, reply.enqueued);
    assert Turn(jobs, reply) == after[i := Settle(after[i], reply.outcome)] by { TurnParts(jobs, reply); }
    assert forall k | 0 <= k < |jobs| :: after[k] == active[k];
  }

  lemma TurnParts(jobs: seq<Job>, reply: Reply)
    requires Next(jobs).Some?
    ensures var i := Next(jobs).value;
            var after := EnqueueAll(jobs[i := Activate(jobs[i])], reply.enqueued);
            i < |after| && Turn(jobs, reply) == after[i := Settle(after[i], reply.outcome)]
  {
    EnqueueAllKeepsActive(jobs[Next(jobs).value := Activate(jobs[Next(jobs).value])], reply.enqueued, Next(jobs).value);
  }

  lemma {:induction false} TurnsGrow(jobs: seq<Job>, script: nat -> Reply, m: nat, n: nat)
    requires NoneCancelled(jobs) && Uncancelled(script, n) && m <= n
    ensures NoneCancelled(TurnsOf(jobs, script, n)) && |TurnsOf(jobs, script, m)| <= |TurnsOf(jobs, script, n)|
    ensures forall k | 0 <= k < |TurnsOf(jobs, script, m)| ::
              TurnsOf(jobs, script, n)[k].id == TurnsOf(jobs, script, m)[k].id
    decreases n
  {
    hide Turn, Settle, Activate;
    if n > 0 {
      TurnsGrow(jobs, script, if m < n then m else n - 1, n - 1);
      var before := TurnsOf(jobs, script, n - 1);
      if Next(before).Some? { TurnChangesOne(before, script(n - 1)); } else { TurnAtRest(before, script(n - 1)); }
    }
  }

  lemma TurnAtRest(jobs: seq<Job>, reply: Reply)
    requires Next(jobs).None?
    ensures Turn(jobs, reply) == jobs
  {}

  /** A job that is not waiting stays as it is: it will not be called again. */
  lemma {:induction false} SettledStays(jobs: seq<Job>, script: nat -> Reply, m: nat, n: nat, p: nat)
    requires NoneCancelled(jobs) && Uncancelled(script, n) && m <= n
    requires p < |TurnsOf(jobs, script, m)| && TurnsOf(jobs, script, m)[p].state != JobState.Waiting
    ensures p < |TurnsOf(jobs, script, n)| && TurnsOf(jobs, script, n)[p] == TurnsOf(jobs, script, m)[p]
    decreases n
  {
    hide Turn, Settle, Activate;
    if m < n {
      SettledStays(jobs, script, m, n - 1, p);
      TurnsGrow(jobs, script, m, n - 1);
      var before := TurnsOf(jobs, script, n - 1);
      if Next(before).Some? { TurnChangesOne(before, script(n - 1)); } else { TurnAtRest(before, script(n - 1)); }
    }
  }

  /** The n-th call is for the job at position p. */
  ghost predicate Calls(jobs: seq<Job>, script: nat -> Reply, n: nat, p: nat) {
    Next(TurnsOf(jobs, script, n)) == Some(p)
  }

  /** In the n-th call, for the job at position p, the handler enqueued one with a smaller priority number. */
  ghost predicate Yields(jobs: seq<Job>, script: nat -> Reply, n: nat, p: nat) {
    p < |TurnsOf(jobs, script, n)| && Overtaken(TurnsOf(jobs, script, n), TurnsOf(jobs, script, n + 1), p)
  }

  /** A job that is called again later is waiting after each of its calls, and next unless it yielded. */
  lemma CalledAgain(jobs: seq<Job>, script: nat -> Reply, i: nat, j: nat, p: nat)
    requires NoneCancelled(jobs) && Uncancelled(script, j) && i < j
    requires Calls(jobs, script, i, p) && Calls(jobs, script, j, p)
    ensures Calls(jobs, script, i + 1, p) <==> !Yields(jobs, script, i, p)
  {
    hide Turn, Settle, Activate, Overtaken;
    var now, after := TurnsOf(jobs, script, i), TurnsOf(jobs, script, i + 1);
    TurnsGrow(jobs, script, i, i);
    TurnChangesOne(now, script(i));
    if after[p].state != JobState.Waiting {
      SettledStays(jobs, script, i + 1, j, p);
      assert false;
    }
    RetriedAfter(now[p], script(i).outcome);
    RetryIsNext(now, script(i));
  }

  lemma RetriedAfter(job: Job, outcome: Outcome)
    requires outcome != Aborted && Settle(Activate(job), outcome).state == JobState.Waiting
    ensures outcome.Throws? && job.attemptsMade + 1 < job.maxAttempts
  {}

  /** Between two calls of a job that never yields, no other job is called. */
  lemma {:induction false} CallsStayTogether(jobs: seq<Job>, script: nat -> Reply, i: nat, j: nat, p: nat, n: nat)
    requires NoneCancelled(jobs) && Uncancelled(script, j) && i <= n <= j
    requires Calls(jobs, script, i, p) && Calls(jobs, script, j, p)
    requires forall m | i <= m < j && Calls(jobs, script, m, p) :: !Yields(jobs, script, m, p)
    ensures Calls(jobs, script, n, p)
    decreases j - i
  {
    hide Calls, Yields;
    if i < n {
      CalledAgain(jobs, script, i, j, p);
      CallsStayTogether(jobs, script, i + 1, j, p, n);
    }
  }

  // ---------------------------------------------------------------- in the log

  /** The ids of the calls in the log. */
  function CalledIds(log: seq<Entry>): seq<string> {
    if log == [] then [] else
    var e := log[|log| - 1];
    CalledIds(log[..|log| - 1]) + if e.Called? then [e.id] else []
  }

  lemma CalledSnoc(log: seq<Entry>, e: Entry)
    ensures CalledIds(log + [e]) == CalledIds(log) + if e.Called? then [e.id] else []
  {
    assert (log + [e])[..|log|] == log;
  }

  lemma {:induction false} EnqueuingCallsNobody(q: Queue, es: seq<Enqueuing>)
    ensures CalledIds(DoEnqueueAll(q, es).log) == CalledIds(q.log)
  {
    if es != [] {
      var n := |es| - 1;
      EnqueuingCallsNobody(q, es[..n]);
      CalledSnoc(DoEnqueueAll(q, es[..n]).log, Began(IdOf(es[n])));
      hide IdOf, Enqueue, Creates;
    }
  }

  /** Every turn of a queue with a waiting job logs exactly one call, for the job that was next. */
  lemma TurnLogsOneCall(q: Queue, reply: Reply)
    requires Next(q.jobs).Some?
    ensures CalledIds(DoTurn(q, reply).log) == CalledIds(q.log) + [q.jobs[Next(q.jobs).value].id]
  {
    var i := Next(q.jobs).value;
    var active := Queue(q.jobs[i := Activate(q.jobs[i])], q.log);
    TurnIs(q, i, reply);
    EnqueuingCallsNobody(active, reply.enqueued);
    CalledSnoc(DoEnqueueAll(active, reply.enqueued).log, Called(q.jobs[i].id, reply.outcome));
    hide DoTurn, DoEnqueueAll, CalledIds, Next, Settle;
  }

  lemma {:induction false} TurnsAreTurnsOf(q: Queue, script: nat -> Reply, k: nat)
    ensures Turns(q, script, k).jobs == TurnsOf(q.jobs, script, k)
  {
    if k > 0 {
      TurnsAreTurnsOf(q, script, k - 1);
      hide DoTurn, Turn;
    }
  }

  /** The drain is not over before its k-th turn. */
  ghost predicate Busy(q: Queue, script: nat -> Reply, k: nat) {
    forall n: nat | n < k :: Next(TurnsOf(q.jobs, script, n)).Some?
  }

  /** The id of the job that the n-th turn calls. */
  function CalledAt(q: Queue, script: nat -> Reply, n: nat): string {
    var now := TurnsOf(q.jobs, script, n);
    if Next(now).Some? then now[Next(now).value].id else ""
  }

  function CallsOf(q: Queue, script: nat -> Reply, k: nat): (r: seq<string>)
    ensures |r| == k && forall n | 0 <= n < k :: r[n] == CalledAt(q, script, n)
  {
    seq(k, n requires 0 <= n < k => CalledAt(q, script, n))
  }

  lemma OneMoreCall(q: Queue, script: nat -> Reply, k: nat)
    requires k > 0 && Next(TurnsOf(q.jobs, script, k - 1)).Some?
    ensures CalledIds(Turns(q, script, k).log)
         == CalledIds(Turns(q, script, k - 1).log) + [CalledAt(q, script, k - 1)]
  {
    hide *;
    TurnsAreTurnsOf(q, script, k - 1);
    TurnLogsOneCall(Turns(q, script, k - 1), script(k - 1));
    LastTurn(q, script, k);
    CalledAtNext(q, script, k - 1);
  }

  lemma LastTurn(q: Queue, script: nat -> Reply, k: nat)
    requires k > 0
    ensures Turns(q, script, k) == DoTurn(Turns(q, script, k - 1), script(k - 1))
  {
    hide DoTurn;
  }

  lemma CalledAtNext(q: Queue, script: nat -> Reply, n: nat)
    requires Next(TurnsOf(q.jobs, script, n)).Some?
    ensures CalledAt(q, script, n) == TurnsOf(q.jobs, script, n)[Next(TurnsOf(q.jobs, script, n)).value].id
  {
    hide TurnsOf, Next;
  }

  lemma BusyBefore(q: Queue, script: nat -> Reply, k: nat)
    requires Busy(q, script, k) && k > 0
    ensures Busy(q, script, k - 1) && Next(TurnsOf(q.jobs, script, k - 1)).Some?
  {
    hide TurnsOf, Next;
  }

  lemma CallsOfSnoc(q: Queue, script: nat -> Reply, k: nat)
    requires k > 0
    ensures CallsOf(q, script, k) == CallsOf(q, script, k - 1) + [CalledAt(q, script, k - 1)]
  {
    hide CalledAt;
  }

  /** The calls that k turns add to the log are those of the turns, in order. */
  lemma {:induction false} LogOfTurns(q: Queue, script: nat -> Reply, k: nat)
    requires Busy(q, script, k)
    ensures CalledIds(Turns(q, script, k).log) == CalledIds(q.log) + CallsOf(q, script, k)
  {
    hide CalledIds, TurnsOf, Next, CalledAt, Busy;
    if k == 0 {
      assert CallsOf(q, script, 0) == [];
    } else {
      hide Turns;
      BusyBefore(q, script, k);
      LogOfTurns(q, script, k - 1);
      OneMoreCall(q, script, k);
      CallsOfSnoc(q, script, k);
    }
  }

  lemma {:induction false} TurnsStayBalanced(q: Queue, script: nat -> Reply, k: nat)
    requires Balanced(q)
    ensures Balanced(Turns(q, script, k))
  {
    hide Balanced, DoTurn, InPlace, Turn;
    if k > 0 {
      TurnsStayBalanced(q, script, k - 1);
      TurnKeeps(Turns(q, script, k - 1), script(k - 1));
    }
  }

  /** Two calls of the same id are calls for the job at the same position. */
  lemma SamePosition(q: Queue, script: nat -> Reply, i: nat, j: nat)
    requires Balanced(q) && NoneCancelled(q.jobs) && Uncancelled(script, j) && i <= j
    requires Next(TurnsOf(q.jobs, script, i)).Some? && Next(TurnsOf(q.jobs, script, j)).Some?
    requires CalledAt(q, script, i) == CalledAt(q, script, j)
    ensures Next(TurnsOf(q.jobs, script, i)) == Next(TurnsOf(q.jobs, script, j))
  {
    var a, b := TurnsOf(q.jobs, script, i), TurnsOf(q.jobs, script, j);
    TurnsGrow(q.jobs, script, i, j);
    TurnsStayBalanced(q, script, j);
    TurnsAreTurnsOf(q, script, j);
    assert UniqueIds(b);
    hide TurnsOf, Turns, Balanced, NoneCancelled, Uncancelled;
    IdsAreUnique(b, Next(a).value, Next(b).value);
  }

  lemma IdsAreUnique(jobs: seq<Job>, i: nat, k: nat)
    requires UniqueIds(jobs) && i < |jobs| && k < |jobs| && jobs[i].id == jobs[k].id
    ensures i == k
  {}

  /**
   Over a whole drain without cancellation, of a queue that may have been drained before, the calls of a
   job are consecutive in what it adds to the log, unless one of its handler calls in between enqueued a
   job with a strictly smaller priority number.
   */
  lemma AttemptsAreConsecutive(q: Queue, script: nat -> Reply, k: nat, i: nat, j: nat, n: nat)
    requires Balanced(q) && NoneCancelled(q.jobs)
    requires Busy(q, script, k) && Uncancelled(script, k) && i <= n <= j < k
    requires CallsOf(q, script, k)[i] == CallsOf(q, script, k)[j]
    requires forall m, p | i <= m < j && Calls(q.jobs, script, m, p) && Calls(q.jobs, script, i, p) ::
               !Yields(q.jobs, script, m, p)
    ensures var log, start := CalledIds(Turns(q, script, k).log), |CalledIds(q.log)|;
            |log| == start + k && log[start + i] == log[start + j] == log[start + n]
  {
    hide Yields, Turns, CalledIds, Next, TurnsOf;
    LogOfTurns(q, script, k);
    assert Next(TurnsOf(q.jobs, script, i)).Some? && Next(TurnsOf(q.jobs, script, j)).Some?;
    SamePosition(q, script, i, j);
    var p := Next(TurnsOf(q.jobs, script, i)).value;
    CallsStayTogether(q.jobs, script, i, j, p, n);
    TurnsGrow(q.jobs, script, i, n);
  }
}
