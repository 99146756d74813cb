/** Outbound webhooks: the delivery rows, the handler that sends them, and the queue that retries it. */
module Webhooks {
  import opened Collections
  import opened Options
  import opened JobQueues
  import opened QueueAccounting
  import opened QueueOrder
  import opened InMemoryQueue

  datatype DeliveryStatus = Unsent | Delivered | Exhausted

  datatype Delivery = Delivery(endpoint: nat, key: string, status: DeliveryStatus, attempts: nat)

  /** One POST that was made for the delivery in this row, and whether it was answered with success. */
  datatype Post = Post(delivery: nat, ok: bool)

  datatype Hooks = Hooks(queue: Queue, deliveries: seq<Delivery>, posts: seq<Post>)

  /** The database's row ids: opaque and unique, so any injective text does. */
  function RowId(n: nat): string { seq(n, _ => 'c') }

  function DeliveryJob(organization: string, n: nat): Enqueuing {
    Enqueuing(organization, DeliverWebhook, "deliver:" + RowId(n), ForDelivery(n), None, None, None)
  }

  function FindDelivery(deliveries: seq<Delivery>, endpoint: nat, key: string): (n: Option<nat>)
    ensures n.Some? ==> n.value < |deliveries| && deliveries[n.value].endpoint == endpoint
                        && deliveries[n.value].key == key
    ensures n.None? ==> forall i | 0 <= i < |deliveries| ::
                          deliveries[i].endpoint != endpoint || deliveries[i].key != key
  {
    FindLast(deliveries, (d: Delivery) => d.endpoint == endpoint && d.key == key)
  }

  /** The row for this occurrence at this endpoint, created at the first call. */
  function RowFor(deliveries: seq<Delivery>, endpoint: nat, key: string): nat {
    var found := FindDelivery(deliveries, endpoint, key);
    if found.Some? then found.value else |deliveries|
  }

  function Upsert(deliveries: seq<Delivery>, endpoint: nat, key: string): seq<Delivery> {
    if FindDelivery(deliveries, endpoint, key).Some? then deliveries
    else deliveries + [Delivery(endpoint, key, Unsent, 0)]
  }

  function FanOutOne(h: Hooks, organization: string, endpoint: nat, key: string): Hooks {
    Hooks(DoEnqueue(h.queue, DeliveryJob(organization, RowFor(h.deliveries, endpoint, key))),
          Upsert(h.deliveries, endpoint, key), h.posts)
  }

  /** One row and one job per subscribed endpoint. */
  function FanOut(h: Hooks, organization: string, endpoints: seq<nat>, key: string): Hooks {
    if endpoints == [] then h else
    FanOutOne(FanOut(h, organization, endpoints[..|endpoints| - 1], key), organization,
              endpoints[|endpoints| - 1], key)
  }

  lemma FanOutNobody(h: Hooks, organization: string, key: string)
    ensures FanOut(h, organization, [], key) == h && forall deliveries :: NamesRows(deliveries, [], [], key)
  {}

  lemma FanOutSnoc(h: Hooks, organization: string, endpoints: seq<nat>, i: nat, key: string)
    requires i < |endpoints|
    ensures FanOut(h, organization, endpoints[..i + 1], key)
         == FanOutOne(FanOut(h, organization, endpoints[..i], key), organization, endpoints[i], key)
  {
    assert endpoints[..i + 1][..i] == endpoints[..i];
  }

  /** The ids name the rows of this occurrence, endpoint by endpoint. */
  predicate NamesRows(deliveries: seq<Delivery>, ids: seq<nat>, endpoints: seq<nat>, key: string) {
    && |ids| == |endpoints|
    && forall i | 0 <= i < |ids| ::
         ids[i] < |deliveries| && deliveries[ids[i]].endpoint == endpoints[i] && deliveries[ids[i]].key == key
  }

  lemma NamesOneMore(
    a: seq<Delivery>, b: seq<Delivery>, ids: seq<nat>, endpoints: seq<nat>, key: string, n: nat, endpoint: nat)
    requires NamesRows(a, ids, endpoints, key) && |a| <= |b| && forall k | 0 <= k < |a| :: b[k] == a[k]
    requires n < |b| && b[n].endpoint == endpoint && b[n].key == key
    ensures NamesRows(b, ids + [n], endpoints + [endpoint], key)
  {}

  const LAST_ATTEMPT := 3

  /** The row after one call of the handler; a delivered row is not sent again. */
  function Sent(row: Delivery, attempt: nat, ok: bool): Delivery {
    if row.status == Delivered then row else
    row.(attempts := row.attempts + 1,
         status := if ok then Delivered else if attempt >= LAST_ATTEMPT then Exhausted else Unsent)
  }

  function HandlerReply(row: Delivery, ok: bool): Reply {
    Reply(if row.status == Delivered || ok then Succeeds else Throws("Webhook delivery failed"), [])
  }

  /** One turn of the queue: `ok` is whether the POST, if one is made, succeeds. */
  function DeliverNext(h: Hooks, ok: bool): Hooks {
    var next := Next(h.queue.jobs);
    if next.None? then h else
    var job := h.queue.jobs[next.value];
    if !job.payload.ForDelivery? || job.payload.delivery >= |h.deliveries| then
      h.(queue := DoTurn(h.queue, Reply(Throws("No row was found"), [])))
    else
      var n := job.payload.delivery;
      var row := h.deliveries[n];
      Hooks(DoTurn(h.queue, HandlerReply(row, ok)),
            h.deliveries[n := Sent(row, job.attemptsMade + 1, ok)],
            if row.status == Delivered then h.posts else h.posts + [Post(n, ok)])
  }

  datatype HookStep = FanOutStep(endpoints: seq<nat>, key: string) | DeliverStep(ok: bool)

  function HookRun(organization: string, steps: seq<HookStep>): Hooks {
    if steps == [] then Hooks(Queue([], []), [], []) else
    var h := HookRun(organization, steps[..|steps| - 1]);
    match steps[|steps| - 1]
    case FanOutStep(endpoints, key) => FanOut(h, organization, endpoints, key)
    case DeliverStep(ok) => DeliverNext(h, ok)
  }

  // ---------------------------------------------------------------- rows, jobs and posts agree

  function PostsOf(posts: seq<Post>, n: nat): seq<bool> {
    if posts == [] then [] else
    var last := posts[|posts| - 1];
    PostsOf(posts[..|posts| - 1], n) + if last.delivery == n then [last.ok] else []
  }

  predicate NoneOk(oks: seq<bool>) { forall k | 0 <= k < |oks| :: !oks[k] }

  ghost predicate Agrees(job: Job, row: Delivery, oks: seq<bool>) {
    && |oks| == row.attempts == job.attemptsMade <= LAST_ATTEMPT
    && match job.state
       case Waiting => row.status == Unsent && NoneOk(oks) && row.attempts < LAST_ATTEMPT
       case Completed => row.status == Delivered && oks != [] && oks[|oks| - 1] && NoneOk(oks[..|oks| - 1])
       case Failed => row.status == Exhausted && NoneOk(oks) && row.attempts == LAST_ATTEMPT
       case _ => false
  }

  /** The n-th job is the one for the n-th row. */
  ghost predicate JobFor(organization: string, job: Job, n: nat) {
    && job.id == IdOf(DeliveryJob(organization, n)) && job.payload == ForDelivery(n)
    && job.jobType == DeliverWebhook && job.priority == 0 && job.maxAttempts == DEFAULT_MAX_ATTEMPTS
  }

  ghost predicate Tracked(organization: string, h: Hooks) {
    && |h.queue.jobs| == |h.deliveries|
    && (forall n | 0 <= n < |h.deliveries| ::
          JobFor(organization, h.queue.jobs[n], n) && Agrees(h.queue.jobs[n], h.deliveries[n], PostsOf(h.posts, n)))
    && (forall i, k | 0 <= i < k < |h.deliveries| ::
          h.deliveries[i].endpoint != h.deliveries[k].endpoint || h.deliveries[i].key != h.deliveries[k].key)
    && (forall k | 0 <= k < |h.posts| :: h.posts[k].delivery < |h.deliveries|)
  }

  lemma DeliveryIdsDiffer(organization: string, n: nat, m: nat)
    ensures IdOf(DeliveryJob(organization, n)) == IdOf(DeliveryJob(organization, m)) <==> n == m
  {
    assert |IdOf(DeliveryJob(organization, n))| - n == |IdOf(DeliveryJob(organization, m))| - m;
  }

  lemma FindTracked(organization: string, jobs: seq<Job>, n: nat)
    requires forall m | 0 <= m < |jobs| :: JobFor(organization, jobs[m], m)
    ensures Find(jobs, IdOf(DeliveryJob(organization, n))) == if n < |jobs| then Some(n) else None
  {
    var at := Find(jobs, IdOf(DeliveryJob(organization, n)));
    if at.Some? { DeliveryIdsDiffer(organization, n, at.value); }
    if n < |jobs| { assert JobFor(organization, jobs[n], n); }
  }

  lemma {:induction false} NoPostsYet(posts: seq<Post>, n: nat)
    requires forall k | 0 <= k < |posts| :: posts[k].delivery < n
    ensures PostsOf(posts, n) == []
  {
    if posts != [] { NoPostsYet(posts[..|posts| - 1], n); }
  }

  lemma NewJobAgrees(organization: string, h: Hooks, row: Delivery)
    requires Tracked(organization, h) && row.status == Unsent && row.attempts == 0
    ensures var n := |h.deliveries|; var job := NewJob(DeliveryJob(organization, n));
            && DoEnqueue(h.queue, DeliveryJob(organization, n)).jobs == h.queue.jobs + [job]
            && JobFor(organization, job, n) && Agrees(job, row, PostsOf(h.posts, n))
  {
    var n := |h.deliveries|;
    assert forall m | 0 <= m < |h.queue.jobs| :: JobFor(organization, h.queue.jobs[m], m);
    FindTracked(organization, h.queue.jobs, n);
    NoPostsYet(h.posts, n);
    hide IdOf, Tracked;
  }

  lemma NewRowIsTracked(organization: string, h: Hooks, row: Delivery)
    requires Tracked(organization, h) && row.status == Unsent && row.attempts == 0
    requires FindDelivery(h.deliveries, row.endpoint, row.key).None?
    ensures Tracked(organization, h.(
              queue := DoEnqueue(h.queue, DeliveryJob(organization, |h.deliveries|)),
              deliveries := h.deliveries + [row]))
  {
    hide IdOf, PostsOf, JobFor, Agrees, DoEnqueue, Enqueue, NewJob, DeliveryJob, FindDelivery;
    NewJobAgrees(organization, h, row);
  }

  /** A repeated fan-out reuses the row and its job. */
  lemma FanOutOneKeeps(organization: string, h: Hooks, endpoint: nat, key: string)
    requires Tracked(organization, h)
    ensures Tracked(organization, FanOutOne(h, organization, endpoint, key))
    ensures FindDelivery(h.deliveries, endpoint, key).Some? ==> FanOutOne(h, organization, endpoint, key) == h
  {
    var found := FindDelivery(h.deliveries, endpoint, key);
    if found.Some? {
      FindTracked(organization, h.queue.jobs, found.value);
      assert Agrees(h.queue.jobs[found.value], h.deliveries[found.value], PostsOf(h.posts, found.value));
    } else {
      NewRowIsTracked(organization, h, Delivery(endpoint, key, Unsent, 0));
    }
    hide IdOf, PostsOf, Tracked, DeliveryJob;
  }

  lemma {:induction false} FanOutKeeps(organization: string, h: Hooks, endpoints: seq<nat>, key: string)
    requires Tracked(organization, h)
    ensures Tracked(organization, FanOut(h, organization, endpoints, key))
  {
    if endpoints != [] {
      var n := |endpoints| - 1;
      FanOutKeeps(organization, h, endpoints[..n], key);
      FanOutOneKeeps(organization, FanOut(h, organization, endpoints[..n], key), endpoints[n], key);
      hide Tracked, FanOutOne;
    }
  }

  lemma SentAgrees(job: Job, row: Delivery, oks: seq<bool>, ok: bool)
    requires Agrees(job, row, oks) && job.state == Waiting && job.maxAttempts == DEFAULT_MAX_ATTEMPTS
    ensures Agrees(Settle(Activate(job), HandlerReply(row, ok).outcome), Sent(row, job.attemptsMade + 1, ok),
                   oks + [ok])
  {
    assert (oks + [ok])[..|oks|] == oks;
  }

  lemma PostsAfter(posts: seq<Post>, n: nat, ok: bool, m: nat)
    ensures PostsOf(posts + [Post(n, ok)], m) == PostsOf(posts, m) + if m == n then [ok] else []
  {
    var more := posts + [Post(n, ok)];
    assert more[..|posts|] == posts;
  }

  lemma SettledIsJobFor(organization: string, job: Job, n: nat, outcome: Outcome)
    requires JobFor(organization, job, n)
    ensures JobFor(organization, Settle(Activate(job), outcome), n)
  {
    hide IdOf, DeliveryJob;
  }

  lemma TrackedAt(organization: string, h: Hooks, n: nat)
    requires Tracked(organization, h) && n < |h.deliveries|
    ensures |h.queue.jobs| == |h.deliveries|
    ensures JobFor(organization, h.queue.jobs[n], n) && Agrees(h.queue.jobs[n], h.deliveries[n], PostsOf(h.posts, n))
  {
    hide JobFor, Agrees, PostsOf;
  }

  /** One more POST for the row of the job that ran, and nothing else. */
  lemma SentIsTracked(organization: string, h: Hooks, n: nat, log: seq<Entry>, ok: bool)
    requires Tracked(organization, h) && n < |h.deliveries| && h.queue.jobs[n].state == Waiting
    ensures var job, row := h.queue.jobs[n], h.deliveries[n];
            Tracked(organization, Hooks(
                      Queue(h.queue.jobs[n := Settle(Activate(job), HandlerReply(row, ok).outcome)], log),
                      h.deliveries[n := Sent(row, job.attemptsMade + 1, ok)], h.posts + [Post(n, ok)]))
  {
    TrackedAt(organization, h, n);
    var job, row := h.queue.jobs[n], h.deliveries[n];
    JobIsDefault(organization, job, n);
    SentAgrees(job, row, PostsOf(h.posts, n), ok);
    SettledIsJobFor(organization, job, n, HandlerReply(row, ok).outcome);
    var settled, sent := Settle(Activate(job), HandlerReply(row, ok).outcome), Sent(row, job.attemptsMade + 1, ok);
    assert sent.endpoint == row.endpoint && sent.key == row.key;
    forall m: nat ensures PostsOf(h.posts + [Post(n, ok)], m) == PostsOf(h.posts, m) + if m == n then [ok] else [] {
      PostsAfter(h.posts, n, ok, m);
    }
    hide Settle, Activate, HandlerReply, Sent;
    RowIsTracked(organization, h, n, log, settled, sent, ok);
  }

  lemma JobIsDefault(organization: string, job: Job, n: nat)
    requires JobFor(organization, job, n)
    ensures job.maxAttempts == DEFAULT_MAX_ATTEMPTS
  {}

  /** Replacing the n-th row and its job after one POST keeps all others. */
  lemma RowIsTracked(organization: string, h: Hooks, n: nat, log: seq<Entry>, job: Job, row: Delivery, ok: bool)
    requires Tracked(organization, h) && n < |h.deliveries|
    requires row.endpoint == h.deliveries[n].endpoint && row.key == h.deliveries[n].key
    requires JobFor(organization, job, n) && Agrees(job, row, PostsOf(h.posts, n) + [ok])
    requires forall m: nat :: PostsOf(h.posts + [Post(n, ok)], m) == PostsOf(h.posts, m) + if m == n then [ok] else []
    ensures Tracked(organization, Hooks(
                      Queue(h.queue.jobs[n := job], log), h.deliveries[n := row], h.posts + [Post(n, ok)]))
  {
    hide JobFor, Agrees, PostsOf;
    var b := Hooks(Queue(h.queue.jobs[n := job], log), h.deliveries[n := row], h.posts + [Post(n, ok)]);
    forall m | 0 <= m < |b.deliveries|
      ensures JobFor(organization, b.queue.jobs[m], m)
      ensures Agrees(b.queue.jobs[m], b.deliveries[m], PostsOf(b.posts, m))
    {
      if m != n {
        TrackedAt(organization, h, m);
        assert PostsOf(b.posts, m) == PostsOf(h.posts, m);
      }
    }
  }

  lemma DeliverNextKeeps(organization: string, h: Hooks, ok: bool)
    requires Tracked(organization, h)
    ensures Tracked(organization, DeliverNext(h, ok))
  {
    var next := Next(h.queue.jobs);
    if next.Some? {
      var n := next.value;
      assert JobFor(organization, h.queue.jobs[n], n)
             && Agrees(h.queue.jobs[n], h.deliveries[n], PostsOf(h.posts, n));
      SentIsTracked(organization, h, n, DoTurn(h.queue, HandlerReply(h.deliveries[n], ok)).log, ok);
      PlainTurn(h.queue.jobs, HandlerReply(h.deliveries[n], ok));
      hide IdOf, Next, Tracked, DoTurn, Turn;
    }
  }

  /**
   Over any sequence of fan-outs and handler calls, whatever the POSTs return: one row per endpoint and
   occurrence, one job per row; the job has completed iff the row is delivered and failed iff it is
   exhausted; `attempts` counts the POSTs made, at most three, of which only the last may have succeeded.
   */
  lemma {:induction false} DeliveriesAreTracked(organization: string, steps: seq<HookStep>)
    ensures Tracked(organization, HookRun(organization, steps))
  {
    if steps != [] {
      var h := HookRun(organization, steps[..|steps| - 1]);
      DeliveriesAreTracked(organization, steps[..|steps| - 1]);
      match steps[|steps| - 1]
      case FanOutStep(endpoints, key) => FanOutKeeps(organization, h, endpoints, key);
      case DeliverStep(ok) => DeliverNextKeeps(organization, h, ok);
    }
  }

  /** Once no job waits, every delivery has got through or used its three attempts. */
  lemma DrainSettlesDeliveries(organization: string, steps: seq<HookStep>, n: nat)
    requires var h := HookRun(organization, steps); Next(h.queue.jobs).None? && n < |h.deliveries|
    ensures var h := HookRun(organization, steps);
            var oks := PostsOf(h.posts, n);
            && n < |h.queue.jobs| && |oks| == h.deliveries[n].attempts <= 3
            && match h.deliveries[n].status
               case Unsent => false
               case Delivered => h.queue.jobs[n].state == Completed && oks != [] && oks[|oks| - 1]
                                 && NoneOk(oks[..|oks| - 1])
               case Exhausted => h.queue.jobs[n].state == Failed && |oks| == 3 && NoneOk(oks)
  {
    var h := HookRun(organization, steps);
    DeliveriesAreTracked(organization, steps);
    hide HookRun;
    NextIsLeast(h.queue.jobs);
    assert Agrees(h.queue.jobs[n], h.deliveries[n], PostsOf(h.posts, n));
    assert h.queue.jobs[n].state != Waiting;
    hide PostsOf, Tracked, Next;
  }

  // ---------------------------------------------------------------- the drain ends

  /** The POSTs that a delivery may still need. */
  function PostsLeft(row: Delivery): nat {
    if row.status == Unsent && row.attempts < LAST_ATTEMPT then LAST_ATTEMPT - row.attempts else 0
  }

  function Owed(deliveries: seq<Delivery>): nat {
    if deliveries == [] then 0
    else Owed(deliveries[..|deliveries| - 1]) + PostsLeft(deliveries[|deliveries| - 1])
  }

  lemma {:induction false} OwedAtMost(deliveries: seq<Delivery>)
    ensures Owed(deliveries) <= LAST_ATTEMPT * |deliveries|
  {
    if deliveries != [] { OwedAtMost(deliveries[..|deliveries| - 1]); }
  }

  lemma {:induction false} OwedAtLeast(deliveries: seq<Delivery>, n: nat)
    requires n < |deliveries|
    ensures Owed(deliveries) >= PostsLeft(deliveries[n])
  {
    if n < |deliveries| - 1 { OwedAtLeast(deliveries[..|deliveries| - 1], n); }
  }

  lemma {:induction false} OwedOfUpdate(deliveries: seq<Delivery>, n: nat, row: Delivery)
    requires n < |deliveries|
    ensures Owed(deliveries[n := row]) - Owed(deliveries) == PostsLeft(row) - PostsLeft(deliveries[n])
  {
    var last := |deliveries| - 1;
    if n < last {
      OwedOfUpdate(deliveries[..last], n, row);
      assert deliveries[n := row][..last] == deliveries[..last][n := row];
    } else {
      assert deliveries[n := row][..last] == deliveries[..last];
    }
  }

  /** A call of the handler pays at least one of the POSTs owed; with nothing to call, nothing changes. */
  lemma DeliverNextPays(organization: string, h: Hooks, ok: bool)
    requires Tracked(organization, h)
    ensures |DeliverNext(h, ok).deliveries| == |h.deliveries|
    ensures if Next(h.queue.jobs).None? then DeliverNext(h, ok) == h
            else Owed(DeliverNext(h, ok).deliveries) < Owed(h.deliveries)
  {
    var next := Next(h.queue.jobs);
    if next.Some? {
      hide IdOf, Next, Tracked, DoTurn, Turn, PostsOf, Owed;
      var n := next.value;
      QueueIsRows(organization, h);
      TrackedAt(organization, h, n);
      var job, row := h.queue.jobs[n], h.deliveries[n];
      OwedOfUpdate(h.deliveries, n, Sent(row, job.attemptsMade + 1, ok));
    }
  }

  lemma QueueIsRows(organization: string, h: Hooks)
    requires Tracked(organization, h)
    ensures |h.queue.jobs| == |h.deliveries|
  {
    hide JobFor, Agrees, PostsOf;
  }

  function Delivering(oks: seq<bool>): seq<HookStep> {
    seq(|oks|, i requires 0 <= i < |oks| => DeliverStep(oks[i]))
  }

  lemma DeliveringSnoc(organization: string, steps: seq<HookStep>, oks: seq<bool>)
    requires oks != []
    ensures var n := |oks| - 1;
            HookRun(organization, steps + Delivering(oks))
            == DeliverNext(HookRun(organization, steps + Delivering(oks[..n])), oks[n])
  {
    var n := |oks| - 1;
    var all := steps + Delivering(oks);
    assert all[..|all| - 1] == steps + Delivering(oks[..n]);
    assert all[|all| - 1] == DeliverStep(oks[n]);
    hide DeliverNext;
  }

  lemma {:induction false} DeliveringPays(organization: string, steps: seq<HookStep>, oks: seq<bool>)
    ensures var h0, h := HookRun(organization, steps), HookRun(organization, steps + Delivering(oks));
            && |h.deliveries| == |h0.deliveries|
            && (Next(h.queue.jobs).None? || Owed(h.deliveries) + |oks| <= Owed(h0.deliveries))
  {
    hide HookRun, Next, DeliverNext, Owed, Tracked;
    if oks == [] {
      assert steps + Delivering(oks) == steps;
    } else {
      var n := |oks| - 1;
      DeliveringPays(organization, steps, oks[..n]);
      DeliveringSnoc(organization, steps, oks);
      var before := steps + Delivering(oks[..n]);
      DeliveriesAreTracked(organization, before);
      DeliverNextPays(organization, HookRun(organization, before), oks[n]);
    }
  }

  /**
   After any fan-outs and calls, three further calls of the handler per delivery are enough, whatever
   the POSTs return: then no job waits, and every delivery has got through or used its three attempts.
   */
  lemma DrainIsReached(organization: string, steps: seq<HookStep>, oks: seq<bool>)
    requires |oks| >= LAST_ATTEMPT * |HookRun(organization, steps).deliveries|
    ensures var h := HookRun(organization, steps + Delivering(oks));
            && |h.deliveries| == |HookRun(organization, steps).deliveries|
            && Next(h.queue.jobs).None? && Owed(h.deliveries) == 0
            && forall n | 0 <= n < |h.deliveries| :: h.deliveries[n].status in {Delivered, Exhausted}
  {
    hide *;
    var all := steps + Delivering(oks);
    var h0, h := HookRun(organization, steps), HookRun(organization, all);
    DeliveringPays(organization, steps, oks);
    OwedAtMost(h0.deliveries);
    DeliveriesAreTracked(organization, all);
    if Next(h.queue.jobs).Some? {
      WaitingOwes(organization, h);
      assert false;
    }
    forall n | 0 <= n < |h.deliveries| ensures h.deliveries[n].status in {Delivered, Exhausted} {
      DrainSettlesDeliveries(organization, all, n);
    }
    SettledOwesNothing(h.deliveries);
  }

  /** A delivery whose job waits still needs a POST. */
  lemma WaitingOwes(organization: string, h: Hooks)
    requires Tracked(organization, h) && Next(h.queue.jobs).Some?
    ensures Owed(h.deliveries) > 0
  {
    hide Tracked, Next, Owed, PostsOf, IdOf;
    var n := Next(h.queue.jobs).value;
    QueueIsRows(organization, h);
    TrackedAt(organization, h, n);
    OwedAtLeast(h.deliveries, n);
  }

  lemma {:induction false} SettledOwesNothing(deliveries: seq<Delivery>)
    requires forall n | 0 <= n < |deliveries| :: deliveries[n].status in {Delivered, Exhausted}
    ensures Owed(deliveries) == 0
  {
    if deliveries != [] { SettledOwesNothing(deliveries[..|deliveries| - 1]); }
  }

  // ---------------------------------------------------------------- the services

  class WebhookService {
    var deliveries: seq<Delivery>
    ghost var posts: seq<Post>
    const queue: InMemoryJobQueue

    constructor (queue: InMemoryJobQueue)
      ensures this.queue == queue && deliveries == [] && posts == []
    {
      this.queue := queue;
      deliveries, posts := [], [];
    }

    ghost function View(): Hooks
      reads this, queue
    {
      Hooks(queue.View(), deliveries, posts)
    }

    method EnqueueWebhookDelivery(organization: string, endpoints: seq<nat>, key: string) returns (ids: seq<nat>)
      modifies this`deliveries, queue`jobs, queue`log
      ensures View() == FanOut(old(View()), organization, endpoints, key)
      ensures NamesRows(deliveries, ids, endpoints, key)
    {
      hide *;
      ids := [];
      ghost var start := View();
      FanOutNobody(start, organization, key);
      for i := 0 to |endpoints|
        invariant View() == FanOut(start, organization, endpoints[..i], key)
        invariant NamesRows(deliveries, ids, endpoints[..i], key)
      {
        FanOutSnoc(start, organization, endpoints, i, key);
        ghost var before := deliveries;
        var n := EnqueueForEndpoint(organization, endpoints[i], key);
        NamesOneMore(before, deliveries, ids, endpoints[..i], key, n, endpoints[i]);
        assert endpoints[..i + 1] == endpoints[..i] + [endpoints[i]];
        ids := ids + [n];
      }
      assert endpoints[..|endpoints|] == endpoints;
    }

    /** Upserts the row of the endpoint and enqueues its job; rows that exist keep their place. */
    method EnqueueForEndpoint(organization: string, endpoint: nat, key: string) returns (n: nat)
      modifies this`deliveries, queue`jobs, queue`log
      ensures View() == FanOutOne(old(View()), organization, endpoint, key)
      ensures |old(deliveries)| <= |deliveries|
      ensures forall k | 0 <= k < |old(deliveries)| :: deliveries[k] == old(deliveries)[k]
      ensures n < |deliveries| && deliveries[n].endpoint == endpoint && deliveries[n].key == key
    {
      hide DoEnqueue, DeliveryJob;
      var found := FindDelivery(deliveries, endpoint, key);
      n := if found.Some? then found.value else |deliveries|;
      if found.None? {
        deliveries := deliveries + [Delivery(endpoint, key, Unsent, 0)];
      }
      var id, deduplicated := queue.EnqueueJob(DeliveryJob(organization, n));
    }

    /** The handler; `response` is what the POST returns, None if it throws. It throws unless it succeeded. */
    method Deliver(n: nat, attempt: nat, response: Option<int>) returns (threw: bool)
      requires n < |deliveries|
      modifies this`deliveries, this`posts
      ensures var ok := response.Some? && 200 <= response.value < 300;
              var row := old(deliveries)[n];
              && deliveries == old(deliveries)[n := Sent(row, attempt, ok)]
              && posts == (if row.status == Delivered then old(posts) else old(posts) + [Post(n, ok)])
              && (threw <==> HandlerReply(row, ok).outcome.Throws?)
    {
      if deliveries[n].status == Delivered { return false; }
      var succeeded := false;
      if response.Some? { succeeded := 200 <= response.value < 300; }
      posts := posts + [Post(n, succeeded)];
      deliveries := deliveries[n := deliveries[n].(
        attempts := deliveries[n].attempts + 1,
        status := if succeeded then Delivered else if attempt >= 3 then Exhausted else Unsent)];
      threw := !succeeded;
    }
  }
}
