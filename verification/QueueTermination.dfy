/** Why the drain loop ends, and when it does not. */
module QueueTermination {
  import opened Collections
  import opened Options
  import opened JobQueues
  import opened QueueAccounting

  /** The ids that an enqueue would find taken. */
  ghost function Live(jobs: seq<Job>): set<string> {
    set i | 0 <= i < |jobs| && jobs[i].state != Cancelled :: jobs[i].id
  }

  /** The attempts that the waiting jobs still have. */
  ghost function Work(jobs: seq<Job>): int {
    if jobs == [] then 0 else
    var last := jobs[|jobs| - 1];
    Work(jobs[..|jobs| - 1]) + if last.state == Waiting then Allowed(last) - last.attemptsMade else 0
  }

  ghost predicate AttemptsLeft(jobs: seq<Job>) {
    forall i | 0 <= i < |jobs| :: jobs[i].state == Waiting ==> jobs[i].attemptsMade < Allowed(jobs[i])
  }

  lemma {:induction false} WorkIsNatural(jobs: seq<Job>)
    requires AttemptsLeft(jobs)
    ensures Work(jobs) >= 0
  {
    if jobs != [] {
      assert AttemptsLeft(jobs[..|jobs| - 1]);
      WorkIsNatural(jobs[..|jobs| - 1]);
    }
  }

  lemma {:induction false} WorkOfUpdate(jobs: seq<Job>, i: nat, job: Job)
    requires i < |jobs|
    ensures Work(jobs[i := job]) - Work(jobs)
            == (if job.state == Waiting then Allowed(job) - job.attemptsMade else 0)
               - (if jobs[i].state == Waiting then Allowed(jobs[i]) - jobs[i].attemptsMade else 0)
  {
    var n := |jobs| - 1;
    if i < n {
      WorkOfUpdate(jobs[..n], i, job);
      assert jobs[i := job][..n] == jobs[..n][i := job];
    } else {
      assert jobs[i := job][..n] == jobs[..n];
    }
  }

  lemma SmallerSet<T>(a: set<T>, b: set<T>, x: T)
    requires a <= b && x in b && x !in a
    ensures |a| < |b|
  {
    assert a <= b - {x};
    SubsetSize(a, b - {x});
  }

  ghost predicate DrawsFrom(es: seq<Enqueuing>, ids: set<string>) {
    forall k | 0 <= k < |es| :: IdOf(es[k]) in ids
  }

  lemma EnqueueLive(jobs: seq<Job>, e: Enqueuing)
    requires UniqueIds(jobs)
    ensures UniqueIds(Enqueue(jobs, e)) && Live(jobs) <= Live(Enqueue(jobs, e))
    ensures Enqueue(jobs, e) != jobs ==> IdOf(e) !in Live(jobs) && IdOf(e) in Live(Enqueue(jobs, e))
  {
    hide IdOf;
    var b := Enqueue(jobs, e);
    forall id | id in Live(jobs) ensures id in Live(b) {
      var i :| 0 <= i < |jobs| && jobs[i].id == id && jobs[i].state != Cancelled;
      FindUnique(jobs, i);
      assert b[i] == jobs[i];
    }
    if b != jobs {
      var at := if |b| > |jobs| then |jobs| else Find(jobs, IdOf(e)).value;
      assert b[at].id == IdOf(e) && b[at].state != Cancelled;
    }
  }

  /** What a handler enqueues changes nothing, or takes a further id out of the finite supply. */
  lemma {:induction false} EnqueueAllLive(jobs: seq<Job>, es: seq<Enqueuing>, ids: set<string>) returns (id: string)
    requires UniqueIds(jobs) && DrawsFrom(es, ids)
    ensures UniqueIds(EnqueueAll(jobs, es)) && Live(jobs) <= Live(EnqueueAll(jobs, es))
    ensures EnqueueAll(jobs, es) != jobs ==> id in ids && id !in Live(jobs) && id in Live(EnqueueAll(jobs, es))
  {
    id := "";
    if es != [] {
      var n := |es| - 1;
      id := EnqueueAllLive(jobs, es[..n], ids);
      var before := EnqueueAll(jobs, es[..n]);
      EnqueueLive(before, es[n]);
      if before == jobs { id := IdOf(es[n]); }
      hide IdOf, Live;
    }
  }

  lemma EnqueueAttempts(jobs: seq<Job>, e: Enqueuing)
    requires AttemptsLeft(jobs)
    ensures AttemptsLeft(Enqueue(jobs, e))
  {
    hide IdOf, Find;
  }

  lemma {:induction false} EnqueueAllAttempts(jobs: seq<Job>, es: seq<Enqueuing>)
    requires AttemptsLeft(jobs)
    ensures AttemptsLeft(EnqueueAll(jobs, es))
  {
    if es != [] {
      hide Enqueue, AttemptsLeft;
      EnqueueAllAttempts(jobs, es[..|es| - 1]);
      EnqueueAttempts(EnqueueAll(jobs, es[..|es| - 1]), es[|es| - 1]);
    }
  }

  lemma LiveOfUpdate(jobs: seq<Job>, i: nat, job: Job)
    requires UniqueIds(jobs) && i < |jobs| && job.id == jobs[i].id
    requires job.state != Cancelled && jobs[i].state != Cancelled
    ensures UniqueIds(jobs[i := job]) && Live(jobs[i := job]) == Live(jobs)
  {
    forall id ensures id in Live(jobs[i := job]) <==> id in Live(jobs) {
      if id in Live(jobs) {
        var k :| 0 <= k < |jobs| && jobs[k].id == id && jobs[k].state != Cancelled;
        assert jobs[i := job][k].id == id;
      }
      if id in Live(jobs[i := job]) {
        var k :| 0 <= k < |jobs| && jobs[i := job][k].id == id && jobs[i := job][k].state != Cancelled;
        assert jobs[k].id == id && jobs[k].state != Cancelled;
      }
    }
  }

  /**
   A turn whose handler is not cancelled, and draws the ids of what it enqueues from a finite set,
   lowers the pair (ids not yet taken, attempts left) in lexicographic order.
   */
  lemma TurnDecreases(jobs: seq<Job>, reply: Reply, ids: set<string>)
    requires UniqueIds(jobs) && AttemptsLeft(jobs) && Next(jobs).Some?
    requires DrawsFrom(reply.enqueued, ids) && reply.outcome != Aborted
    ensures var b := Turn(jobs, reply);
            && UniqueIds(b) && AttemptsLeft(b) && Work(b) >= 0
            && (|ids - Live(b)| < |ids - Live(jobs)| || (|ids - Live(b)| == |ids - Live(jobs)| && Work(b) < Work(jobs)))
  {
    var i := Next(jobs).value;
    var active := jobs[i := Activate(jobs[i])];
    var after := EnqueueAll(active, reply.enqueued);
    var b := Turn(jobs, reply);
    LiveOfUpdate(jobs, i, active[i]);
    var id := EnqueueAllLive(active, reply.enqueued, ids);
    EnqueueAllAttempts(active, reply.enqueued);
    EnqueueAllKeepsActive(active, reply.enqueued, i);
    var settled := Settle(after[i], reply.outcome);
    LiveOfUpdate(after, i, settled);
    assert b == after[i := settled];
    WorkIsNatural(b);
    if after != active {
      SmallerSet(ids - Live(b), ids - Live(jobs), id);
    } else {
      WorkOfUpdate(jobs, i, settled);
      assert b == jobs[i := settled];
    }
    hide EnqueueAll, Live, Work, Next;
  }

  // ---------------------------------------------------------------- without that

  function PingPong(which: bool): Enqueuing {
    Enqueuing("", PrepareRepository, if which then "a" else "b", ForRun(0), None, None, None)
  }

  /** The state of the two jobs when `which` is due: the other one has just been cancelled. */
  function PingPongJobs(which: bool): seq<Job> {
    var due, other := NewJob(PingPong(which)), NewJob(PingPong(!which)).(state := Cancelled, attemptsMade := 1);
    if which then [due, other] else [other, due]
  }

  lemma PingPongTurn(which: bool)
    ensures Turn(PingPongJobs(which), Reply(Aborted, [PingPong(!which)])) == PingPongJobs(!which)
    ensures Next(PingPongJobs(which)).Some?
  {
    var jobs, es := PingPongJobs(which), [PingPong(!which)];
    var i := if which then 0 else 1;
    assert IdOf(PingPong(true))[|IdOf(PingPong(true))| - 1] == 'a';
    assert IdOf(PingPong(false))[|IdOf(PingPong(false))| - 1] == 'b';
    hide IdOf;
    NextIsLeast(jobs);
    assert jobs[i].state == Waiting && Next(jobs) == Some(i);
    var active := jobs[i := Activate(jobs[i])];
    FindUnique(active, 1 - i);
    assert es[..0] == [] && EnqueueAll(active, es[..0]) == active;
    assert EnqueueAll(active, es) == Enqueue(active, PingPong(!which));
  }

  /**
   Cancellation is the one way to drain for ever: two jobs whose handlers are cancelled, each after
   enqueueing the other again, keep the queue busy with only two ids.
   */
  lemma {:induction false} CancellationNeverDrains(k: nat)
    ensures var script := (n: nat) => Reply(Aborted, [PingPong(n % 2 != 0)]);
            TurnsOf(PingPongJobs(true), script, k) == PingPongJobs(k % 2 == 0)
            && Next(TurnsOf(PingPongJobs(true), script, k)).Some?
  {
    hide Turn, PingPongJobs, PingPong, Next;
    if k > 0 {
      CancellationNeverDrains(k - 1);
      PingPongTurn((k - 1) % 2 == 0);
    }
    PingPongTurn(k % 2 == 0);
  }
}
