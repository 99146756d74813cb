/** The in-memory job queue: what its operations do to the jobs, in the order they were inserted. */
module JobQueues {
  import opened Collections
  import opened Options
  import opened Text

  datatype JobType =
    | ClassifyChange | PrepareRepository | RunDeepSecDiff | RunDeepSecFull | NormalizeDeepSecOutput
    | ApplyRoutingPolicy | WaitForTarget | RunStrixValidation | NormalizeStrixOutput | CorrelateFindings
    | RunDeepSecRevalidation | RunStrixRetest | GenerateReceipt | DeliverWebhook

  function TypeName(t: JobType): string {
    match t
    case ClassifyChange => "classify_change"
    case PrepareRepository => "prepare_repository"
    case RunDeepSecDiff => "run_deepsec_diff"
    case RunDeepSecFull => "run_deepsec_full"
    case NormalizeDeepSecOutput => "normalize_deepsec_output"
    case ApplyRoutingPolicy => "apply_routing_policy"
    case WaitForTarget => "wait_for_target"
    case RunStrixValidation => "run_strix_validation"
    case NormalizeStrixOutput => "normalize_strix_output"
    case CorrelateFindings => "correlate_findings"
    case RunDeepSecRevalidation => "run_deepsec_revalidation"
    case RunStrixRetest => "run_strix_retest"
    case GenerateReceipt => "generate_receipt"
    case DeliverWebhook => "deliver_webhook"
  }

  datatype Payload = ForRun(run: nat) | ForFinding(run: nat, finding: nat) | ForDelivery(delivery: nat)

  datatype JobState = Waiting | Delayed | Active | Completed | Failed | Cancelled

  datatype Job = Job(
    id: string, jobType: JobType, payload: Payload, priority: int, maxAttempts: int, attemptsMade: nat,
    state: JobState, failedReason: Option<string>)

  /** A missing option is None; the delay counts only if it is not zero. */
  datatype Enqueuing = Enqueuing(
    organization: string, jobType: JobType, key: string, payload: Payload, priority: Option<int>,
    maxAttempts: Option<int>, delay: Option<int>)

  const DEFAULT_MAX_ATTEMPTS := 3

  function JobId(organization: string, t: JobType, key: string): string {
    organization + ":" + TypeName(t) + ":" + key
  }

  function IdOf(e: Enqueuing): string { JobId(e.organization, e.jobType, e.key) }

  /** Each type has its own name, without a colon: length, first and last letter tell them apart. */
  lemma TypeNames(t: JobType, u: JobType)
    ensures ':' !in TypeName(t) && (TypeName(t) == TypeName(u) <==> t == u)
  {
    hide TypeName, Ends;
    NameEnds(t);
    NameEnds(u);
    NoColon(t);
  }

  function Ends(name: string): (int, char, char) {
    (|name|, if name == "" then ' ' else name[0], if name == "" then ' ' else name[|name| - 1])
  }

  function EndsOf(t: JobType): (int, char, char) {
    match t
    case ClassifyChange => (15, 'c', 'e')
    case PrepareRepository => (18, 'p', 'y')
    case RunDeepSecDiff => (16, 'r', 'f')
    case RunDeepSecFull => (16, 'r', 'l')
    case NormalizeDeepSecOutput => (24, 'n', 't')
    case ApplyRoutingPolicy => (20, 'a', 'y')
    case WaitForTarget => (15, 'w', 't')
    case RunStrixValidation => (20, 'r', 'n')
    case NormalizeStrixOutput => (22, 'n', 't')
    case CorrelateFindings => (18, 'c', 's')
    case RunDeepSecRevalidation => (24, 'r', 'n')
    case RunStrixRetest => (16, 'r', 't')
    case GenerateReceipt => (16, 'g', 't')
    case DeliverWebhook => (15, 'd', 'k')
  }

  lemma NameEnds(t: JobType)
    ensures Ends(TypeName(t)) == EndsOf(t)
  {
    hide Ends;
    match t
    case ClassifyChange => EndsAre(TypeName(t), 15);
    case PrepareRepository => EndsAre(TypeName(t), 18);
    case RunDeepSecDiff => EndsAre(TypeName(t), 16);
    case RunDeepSecFull => EndsAre(TypeName(t), 16);
    case NormalizeDeepSecOutput => EndsAre(TypeName(t), 24);
    case ApplyRoutingPolicy => EndsAre(TypeName(t), 20);
    case WaitForTarget => EndsAre(TypeName(t), 15);
    case RunStrixValidation => EndsAre(TypeName(t), 20);
    case NormalizeStrixOutput => EndsAre(TypeName(t), 22);
    case CorrelateFindings => EndsAre(TypeName(t), 18);
    case RunDeepSecRevalidation => EndsAre(TypeName(t), 24);
    case RunStrixRetest => EndsAre(TypeName(t), 16);
    case GenerateReceipt => EndsAre(TypeName(t), 16);
    case DeliverWebhook => EndsAre(TypeName(t), 15);
  }

  lemma EndsAre(name: string, length: nat)
    requires |name| == length > 0
    ensures Ends(name) == (length, name[0], name[length - 1])
  {}

  lemma NoColon(t: JobType)
    ensures ':' !in TypeName(t)
  {
    if t in {ClassifyChange, PrepareRepository, RunDeepSecDiff, RunDeepSecFull, NormalizeDeepSecOutput} {
      NoColonInSource(t);
    } else if t in {ApplyRoutingPolicy, WaitForTarget, RunStrixValidation, NormalizeStrixOutput} {
      NoColonInRuntime(t);
    } else {
      NoColonElsewhere(t);
    }
    hide TypeName;
  }

  lemma NoColonInSource(t: JobType)
    requires t in {ClassifyChange, PrepareRepository, RunDeepSecDiff, RunDeepSecFull, NormalizeDeepSecOutput}
    ensures ':' !in TypeName(t)
  {}

  lemma NoColonInRuntime(t: JobType)
    requires t in {ApplyRoutingPolicy, WaitForTarget, RunStrixValidation, NormalizeStrixOutput}
    ensures ':' !in TypeName(t)
  {}

  lemma NoColonElsewhere(t: JobType)
    requires t in {CorrelateFindings, RunDeepSecRevalidation, RunStrixRetest, GenerateReceipt, DeliverWebhook}
    ensures ':' !in TypeName(t)
  {}

  /**
   Deduplication by id is deduplication by organization, type and key, as long as no organization has a
   colon in its name.
   */
  lemma IdsAreFaithful(d: Enqueuing, e: Enqueuing)
    requires ':' !in d.organization && ':' !in e.organization
    ensures IdOf(d) == IdOf(e) <==> d.organization == e.organization && d.jobType == e.jobType && d.key == e.key
  {
    hide TypeName, Split;
    TypeNames(d.jobType, e.jobType);
    TypeNames(e.jobType, d.jobType);
    IdParts(d);
    IdParts(e);
    if IdOf(d) == IdOf(e) {
      assert Split(IdOf(d), ':')[0] == Split(IdOf(e), ':')[0];
      assert Split(IdOf(d), ':')[1] == Split(IdOf(e), ':')[1];
      var n := |d.organization| + |TypeName(d.jobType)| + 2;
      assert IdOf(d)[n..] == d.key && IdOf(e)[n..] == e.key;
    }
  }

  lemma IdParts(e: Enqueuing)
    requires ':' !in e.organization && ':' !in TypeName(e.jobType)
    ensures Split(IdOf(e), ':') == [e.organization, TypeName(e.jobType)] + Split(e.key, ':')
  {
    hide TypeName;
    var rest := TypeName(e.jobType) + [':'] + e.key;
    SplitFirst(TypeName(e.jobType), ':', e.key);
    SplitFirst(e.organization, ':', rest);
    assert IdOf(e) == e.organization + [':'] + rest;
  }

  function NewJob(e: Enqueuing): Job {
    Job(IdOf(e), e.jobType, e.payload,
        if e.priority.Some? then e.priority.value else 0,
        if e.maxAttempts.Some? then e.maxAttempts.value else DEFAULT_MAX_ATTEMPTS,
        0, if e.delay.None? || e.delay.value == 0 then Waiting else Delayed, None)
  }

  /** A new job has made no attempt, and waits unless a delay other than zero was asked for. */
  lemma NewJobIsExact(e: Enqueuing)
    ensures var job := NewJob(e);
            && job.id == IdOf(e) && job.jobType == e.jobType && job.payload == e.payload
            && job.attemptsMade == 0 && job.failedReason == None
            && job.state in {Waiting, Delayed}
            && (job.state == Delayed <==> exists delay: int :: e.delay == Some(delay) && delay != 0)
            && (forall p: int :: e.priority == Some(p) ==> job.priority == p)
            && (e.priority == None ==> job.priority == 0)
            && (forall n: int :: e.maxAttempts == Some(n) ==> job.maxAttempts == n)
            && (e.maxAttempts == None ==> job.maxAttempts == 3)
  {
    hide IdOf;
    if e.delay.Some? && e.delay.value != 0 { assert e.delay == Some(e.delay.value); }
  }

  /** The position of the job with this id. */
  function Find(jobs: seq<Job>, id: string): (i: Option<nat>)
    ensures i.Some? ==> i.value < |jobs| && jobs[i.value].id == id
    ensures i.None? ==> forall k | 0 <= k < |jobs| :: jobs[k].id != id
  {
    FindLast(jobs, (job: Job) => job.id == id)
  }

  /** Deduplicates by id, except that a cancelled job is replaced, at its old position. */
  function Enqueue(jobs: seq<Job>, e: Enqueuing): seq<Job> {
    match Find(jobs, IdOf(e))
    case None => jobs + [NewJob(e)]
    case Some(i) => if jobs[i].state == Cancelled then jobs[i := NewJob(e)] else jobs
  }

  function EnqueueAll(jobs: seq<Job>, es: seq<Enqueuing>): seq<Job> {
    if es == [] then jobs else Enqueue(EnqueueAll(jobs, es[..|es| - 1]), es[|es| - 1])
  }

  function Cancel(jobs: seq<Job>, id: string): seq<Job> {
    match Find(jobs, id)
    case None => jobs
    case Some(i) => if jobs[i].state in {Waiting, Delayed} then jobs[i := jobs[i].(state := Cancelled)] else jobs
  }

  function Replay(jobs: seq<Job>, id: string): seq<Job> {
    match Find(jobs, id)
    case None => jobs
    case Some(i) =>
      if jobs[i].state == Failed then jobs[i := jobs[i].(state := Waiting, attemptsMade := 0)] else jobs
  }

  function DeadLetter(jobs: seq<Job>, t: Option<JobType>): seq<Job> {
    if jobs == [] then [] else
    var last := jobs[|jobs| - 1];
    DeadLetter(jobs[..|jobs| - 1], t)
    + if last.state == Failed && (t.None? || t.value == last.jobType) then [last] else []
  }

  // ---------------------------------------------------------------- scheduling

  function WaitingJobs(jobs: seq<Job>): seq<Job> {
    if jobs == [] then [] else
    var last := jobs[|jobs| - 1];
    WaitingJobs(jobs[..|jobs| - 1]) + if last.state == Waiting then [last] else []
  }

  function Insert(job: Job, sorted: seq<Job>): seq<Job> {
    if sorted == [] || job.priority < sorted[0].priority then [job] + sorted
    else [sorted[0]] + Insert(job, sorted[1..])
  }

  /** A stable sort by priority: a job goes behind those of the same priority that came before it. */
  function SortByPriority(jobs: seq<Job>): seq<Job> {
    if jobs == [] then [] else Insert(jobs[|jobs| - 1], SortByPriority(jobs[..|jobs| - 1]))
  }

  function Pending(jobs: seq<Job>): seq<Job> { SortByPriority(WaitingJobs(jobs)) }

  /** The position of the job that the drain loop takes next. */
  function Next(jobs: seq<Job>): (i: Option<nat>)
    ensures i.Some? ==> i.value < |jobs| && jobs[i.value].state == Waiting
  {
    if jobs == [] then None else
    var n := |jobs| - 1;
    var earlier := Next(jobs[..n]);
    if jobs[n].state == Waiting && (earlier.None? || jobs[n].priority < jobs[earlier.value].priority) then Some(n)
    else earlier
  }

  datatype Outcome = Succeeds | Throws(reason: string) | Aborted

  /** What one call of a handler does: the jobs it enqueues, and how it ends. */
  datatype Reply = Reply(outcome: Outcome, enqueued: seq<Enqueuing>)

  function Settle(job: Job, outcome: Outcome): Job {
    match outcome
    case Succeeds => job.(state := Completed)
    case Aborted => job.(state := Cancelled)
    case Throws(reason) =>
      if job.attemptsMade >= job.maxAttempts then job.(state := Failed, failedReason := Some(reason))
      else job.(state := Waiting)
  }

  function Activate(job: Job): Job { job.(state := Active, attemptsMade := job.attemptsMade + 1) }

  lemma {:induction false} EnqueueAllKeepsActive(jobs: seq<Job>, es: seq<Enqueuing>, i: nat)
    requires i < |jobs| && jobs[i].state != Cancelled
    ensures |jobs| <= |EnqueueAll(jobs, es)| && EnqueueAll(jobs, es)[i] == jobs[i]
  {
    if es != [] { EnqueueAllKeepsActive(jobs, es[..|es| - 1], i); }
  }

  /** One attempt of the job at position i; its handler enqueues while the job is active. */
  function RunJob(jobs: seq<Job>, i: nat, reply: Reply): seq<Job>
    requires i < |jobs|
  {
    var active := jobs[i := Activate(jobs[i])];
    var after := EnqueueAll(active, reply.enqueued);
    EnqueueAllKeepsActive(active, reply.enqueued, i);
    after[i := Settle(after[i], reply.outcome)]
  }

  /** One turn of the drain loop. */
  function Turn(jobs: seq<Job>, reply: Reply): seq<Job> {
    if Next(jobs).None? then jobs else
    RunJob(jobs, Next(jobs).value, reply)
  }

  /** The jobs after k turns, the n-th of which replies `script(n)`. */
  function TurnsOf(jobs: seq<Job>, script: nat -> Reply, k: nat): seq<Job> {
    if k == 0 then jobs else Turn(TurnsOf(jobs, script, k - 1), script(k - 1))
  }

  // ---------------------------------------------------------------- which job is next

  /** Waiting, of least priority number, and first inserted among those. */
  ghost predicate IsLeast(jobs: seq<Job>, i: nat) {
    && i < |jobs| && jobs[i].state == Waiting
    && forall k | 0 <= k < |jobs| && jobs[k].state == Waiting ::
         jobs[i].priority < jobs[k].priority || (jobs[i].priority == jobs[k].priority && i <= k)
  }

  lemma {:induction false} NextIsLeast(jobs: seq<Job>)
    ensures Next(jobs).Some? ==> IsLeast(jobs, Next(jobs).value)
    ensures Next(jobs).None? ==> forall k | 0 <= k < |jobs| :: jobs[k].state != Waiting
  {
    if jobs != [] {
      var n := |jobs| - 1;
      NextIsLeast(jobs[..n]);
      assert forall k | 0 <= k < n :: jobs[..n][k] == jobs[k];
    }
  }

  /** The head of the sorted list of waiting jobs is the least job: priority first, then insertion order. */
  lemma {:induction false} NextIsHeadOfPending(jobs: seq<Job>)
    ensures Pending(jobs) == [] <==> Next(jobs).None?
    ensures Next(jobs).Some? ==> Pending(jobs)[0] == jobs[Next(jobs).value]
  {
    if jobs != [] {
      var n := |jobs| - 1;
      NextIsHeadOfPending(jobs[..n]);
      NextIsLeast(jobs[..n]);
      PendingSnoc(jobs);
    }
  }

  lemma PendingSnoc(jobs: seq<Job>)
    requires jobs != []
    ensures var n := |jobs| - 1;
            Pending(jobs) == if jobs[n].state == Waiting then Insert(jobs[n], Pending(jobs[..n]))
                             else Pending(jobs[..n])
  {
    var n := |jobs| - 1;
    var w := WaitingJobs(jobs[..n]);
    if jobs[n].state == Waiting {
      var all := w + [jobs[n]];
      assert all[..|all| - 1] == w;
      assert SortByPriority(all) == Insert(jobs[n], SortByPriority(w));
    } else {
      assert WaitingJobs(jobs) == w;
    }
  }

  lemma LeastIsUnique(jobs: seq<Job>, i: nat, k: nat)
    requires IsLeast(jobs, i) && IsLeast(jobs, k)
    ensures i == k
  {}
}
