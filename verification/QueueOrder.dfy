/** In what order the drain loop calls handlers. */
module QueueOrder {
  import opened JobQueues

  ghost predicate Sorted(jobs: seq<Job>) {
    forall i, k | 0 <= i < k < |jobs| :: jobs[i].priority <= jobs[k].priority
  }

  function OfPriority(jobs: seq<Job>, priority: int): seq<Job> {
    if jobs == [] then [] else
    (if jobs[0].priority == priority then [jobs[0]] else []) + OfPriority(jobs[1..], priority)
  }

  lemma {:induction false} InsertKeepsElements(job: Job, sorted: seq<Job>)
    ensures multiset(Insert(job, sorted)) == multiset(sorted) + multiset{job}
  {
    if sorted != [] && job.priority >= sorted[0].priority {
      InsertKeepsElements(job, sorted[1..]);
      var rest := Insert(job, sorted[1..]);
      assert Insert(job, sorted) == [sorted[0]] + rest;
      assert sorted == [sorted[0]] + sorted[1..];
      hide Insert;
      assert multiset([sorted[0]] + rest) == multiset{sorted[0]} + multiset(rest);
    }
  }

  lemma {:induction false} InsertKeepsSorted(job: Job, sorted: seq<Job>)
    requires Sorted(sorted)
    ensures Sorted(Insert(job, sorted))
  {
    if sorted == [] || job.priority < sorted[0].priority {
      SortedCons(job, sorted);
    } else {
      var rest := Insert(job, sorted[1..]);
      InsertKeepsSorted(job, sorted[1..]);
      InsertKeepsElements(job, sorted[1..]);
      forall x | x in rest ensures sorted[0].priority <= x.priority {
        assert x in multiset(rest);
      }
      hide Insert, Sorted;
      SortedCons(sorted[0], rest);
    }
  }

  lemma SortedCons(job: Job, rest: seq<Job>)
    requires Sorted(rest) && forall x | x in rest :: job.priority <= x.priority
    ensures Sorted([job] + rest)
  {}

  lemma OfPriorityCons(job: Job, rest: seq<Job>, priority: int)
    ensures OfPriority([job] + rest, priority)
            == (if job.priority == priority then [job] else []) + OfPriority(rest, priority)
  {
    assert ([job] + rest)[1..] == rest;
  }

  lemma {:induction false} InsertGoesBehind(job: Job, sorted: seq<Job>, priority: int)
    requires Sorted(sorted)
    ensures OfPriority(Insert(job, sorted), priority)
            == OfPriority(sorted, priority) + if job.priority == priority then [job] else []
  {
    if sorted == [] || job.priority < sorted[0].priority {
      OfPriorityCons(job, sorted, priority);
      if job.priority == priority { NoneOfPriority(sorted, priority); }
      hide OfPriority;
    } else {
      var first, rest := sorted[0], sorted[1..];
      InsertGoesBehind(job, rest, priority);
      OfPriorityCons(first, rest, priority);
      OfPriorityCons(first, Insert(job, rest), priority);
      hide OfPriority;
      assert sorted == [first] + rest && Insert(job, sorted) == [first] + Insert(job, rest);
      Regroup(if first.priority == priority then [first] else [], OfPriority(rest, priority),
              if job.priority == priority then [job] else []);
    }
  }

  lemma {:induction false} NoneOfPriority(jobs: seq<Job>, priority: int)
    requires forall i | 0 <= i < |jobs| :: jobs[i].priority > priority
    ensures OfPriority(jobs, priority) == []
  {
    if jobs != [] { NoneOfPriority(jobs[1..], priority); }
  }

  lemma {:induction false} OfPrioritySnoc(jobs: seq<Job>, job: Job, priority: int)
    ensures OfPriority(jobs + [job], priority)
            == OfPriority(jobs, priority) + if job.priority == priority then [job] else []
  {
    if jobs == [] {
      assert (jobs + [job])[1..] == [];
    } else {
      hide OfPriority;
      var first, rest := jobs[0], jobs[1..];
      OfPrioritySnoc(rest, job, priority);
      OfPriorityCons(first, rest, priority);
      OfPriorityCons(first, rest + [job], priority);
      assert jobs == [first] + rest && jobs + [job] == [first] + (rest + [job]);
      Regroup(if first.priority == priority then [first] else [], OfPriority(rest, priority),
              if job.priority == priority then [job] else []);
    }
  }

  lemma Regroup(a: seq<Job>, b: seq<Job>, c: seq<Job>)
    ensures a + (b + c) == (a + b) + c
  {}

  lemma NothingToSort(priority: int)
    ensures SortByPriority([]) == [] && Sorted([]) && OfPriority([], priority) == []
  {}

  /** The sort orders by priority, loses nothing, and keeps the order within each priority. */
  lemma {:induction false} SortIsStable(jobs: seq<Job>, priority: int)
    ensures Sorted(SortByPriority(jobs)) && multiset(SortByPriority(jobs)) == multiset(jobs)
    ensures OfPriority(SortByPriority(jobs), priority) == OfPriority(jobs, priority)
  {
    hide Sorted, OfPriority, Insert;
    if jobs == [] {
      NothingToSort(priority);
    } else {
      var n := |jobs| - 1;
      SortIsStable(jobs[..n], priority);
      InsertKeepsElements(jobs[n], SortByPriority(jobs[..n]));
      InsertKeepsSorted(jobs[n], SortByPriority(jobs[..n]));
      InsertGoesBehind(jobs[n], SortByPriority(jobs[..n]), priority);
      assert jobs == jobs[..n] + [jobs[n]];
      OfPrioritySnoc(jobs[..n], jobs[n], priority);
    }
  }

  // ---------------------------------------------------------------- successful handlers

  const SUCCESS := Reply(Succeeds, [])

  /** Completing the next job takes exactly the head off the pending list. */
  lemma {:induction false} CompletingTakesTheHead(jobs: seq<Job>)
    requires Next(jobs).Some?
    ensures var i := Next(jobs).value;
            Pending(jobs) != [] && Pending(jobs[i := Settle(Activate(jobs[i]), Succeeds)]) == Pending(jobs)[1..]
  {
    hide Pending;
    NextIsLeast(jobs);
    NextIsHeadOfPending(jobs);
    var n := |jobs| - 1;
    var i := Next(jobs).value;
    var after := jobs[i := Settle(Activate(jobs[i]), Succeeds)];
    PendingSnoc(jobs);
    PendingSnoc(after);
    if i == n {
      assert after[..n] == jobs[..n];
      NextIsHeadOfPending(jobs[..n]);
    } else {
      CompletingTakesTheHead(jobs[..n]);
      NextIsHeadOfPending(jobs[..n]);
      assert after[..n] == jobs[..n][i := Settle(Activate(jobs[i]), Succeeds)];
    }
  }

  /** A turn whose handler enqueues nothing changes the job that ran, and no other. */
  lemma PlainTurn(jobs: seq<Job>, reply: Reply)
    requires Next(jobs).Some? && reply.enqueued == []
    ensures var i := Next(jobs).value; Turn(jobs, reply) == jobs[i := Settle(Activate(jobs[i]), reply.outcome)]
  {
    var i := Next(jobs).value;
    assert EnqueueAll(jobs[i := Activate(jobs[i])], []) == jobs[i := Activate(jobs[i])];
  }

  /**
   With handlers that succeed and enqueue nothing, the k-th call is for the k-th job of the stable
   priority sort of the jobs that were waiting at the start, and after the last of them none waits.
   */
  lemma {:induction false} DrainFollowsStableSort(jobs: seq<Job>, script: nat -> Reply, k: nat)
    requires k <= |Pending(jobs)| && forall n: nat | n < k :: script(n) == SUCCESS
    ensures Pending(TurnsOf(jobs, script, k)) == Pending(jobs)[k..]
    ensures k < |Pending(jobs)| ==>
              var now := TurnsOf(jobs, script, k);
              Next(now).Some? && now[Next(now).value] == Pending(jobs)[k]
  {
    if k > 0 {
      DrainFollowsStableSort(jobs, script, k - 1);
      var before := TurnsOf(jobs, script, k - 1);
      assert script(k - 1) == SUCCESS;
      NextIsHeadOfPending(before);
      CompletingTakesTheHead(before);
      PlainTurn(before, SUCCESS);
      hide Pending, Turn;
    }
    NextIsHeadOfPending(TurnsOf(jobs, script, k));
  }

  // ---------------------------------------------------------------- retries

  /** A job enqueued during the turn from `jobs` to `after` is to go before the job at position i. */
  ghost predicate Overtaken(jobs: seq<Job>, after: seq<Job>, i: nat)
    requires i < |jobs|
  {
    exists k | |jobs| <= k < |after| :: after[k].state == Waiting && after[k].priority < jobs[i].priority
  }

  lemma {:induction false} EnqueueAllAppends(jobs: seq<Job>, es: seq<Enqueuing>)
    requires forall k | 0 <= k < |jobs| :: jobs[k].state != Cancelled
    ensures jobs <= EnqueueAll(jobs, es)
    ensures forall k | 0 <= k < |EnqueueAll(jobs, es)| :: EnqueueAll(jobs, es)[k].state != Cancelled
  {
    hide IdOf;
    if es != [] { EnqueueAllAppends(jobs, es[..|es| - 1]); }
  }

  /**
   With no cancelled job around, a job that throws with attempts left is called again at once, unless
   (and only unless) its handler enqueued a job with a strictly smaller priority number.
   */
  lemma RetryIsNext(jobs: seq<Job>, reply: Reply)
    requires forall k | 0 <= k < |jobs| :: jobs[k].state != Cancelled
    requires Next(jobs).Some? && reply.outcome.Throws?
    requires jobs[Next(jobs).value].attemptsMade + 1 < jobs[Next(jobs).value].maxAttempts
    ensures var after := Turn(jobs, reply);
            && |jobs| <= |after|
            && (Next(after) == Next(jobs) <==> !Overtaken(jobs, after, Next(jobs).value))
  {
    hide Turn, Next, Overtaken;
    var i := Next(jobs).value;
    NextIsLeast(jobs);
    RetriedInPlace(jobs, reply);
    var after := Turn(jobs, reply);
    NextIsLeast(after);
    StillLeast(jobs, after, i);
    if Next(after).Some? && !Overtaken(jobs, after, i) { LeastIsUnique(after, i, Next(after).value); }
  }

  /** The turn puts the job back where it was, and appends what its handler enqueued. */
  lemma RetriedInPlace(jobs: seq<Job>, reply: Reply)
    requires forall k | 0 <= k < |jobs| :: jobs[k].state != Cancelled
    requires Next(jobs).Some? && reply.outcome.Throws?
    requires jobs[Next(jobs).value].attemptsMade + 1 < jobs[Next(jobs).value].maxAttempts
    ensures var i, after := Next(jobs).value, Turn(jobs, reply);
            && |jobs| <= |after| && (forall k | 0 <= k < |jobs| && k != i :: after[k] == jobs[k])
            && after[i].state == Waiting && after[i].priority == jobs[i].priority
  {
    hide Next, EnqueueAll;
    var i := Next(jobs).value;
    EnqueueAllAppends(jobs[i := Activate(jobs[i])], reply.enqueued);
  }

  lemma StillLeast(jobs: seq<Job>, after: seq<Job>, i: nat)
    requires IsLeast(jobs, i) && |jobs| <= |after|
    requires forall k | 0 <= k < |jobs| && k != i :: after[k] == jobs[k]
    requires after[i].state == Waiting && after[i].priority == jobs[i].priority
    ensures IsLeast(after, i) <==> !Overtaken(jobs, after, i)
  {
    if Overtaken(jobs, after, i) {
      var k :| |jobs| <= k < |after| && after[k].state == Waiting && after[k].priority < jobs[i].priority;
      assert !IsLeast(after, i);
    }
  }
}
