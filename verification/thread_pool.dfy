/**
 * The priority job pool (ThreadPool.h / ThreadPool.cpp) as a sequential state machine.
 *
 * One `Pool` record holds the three job queues, the count of wake-up tokens in the signal
 * queue, the termination flag, the number of worker threads (and how many of them are
 * still inside their loop) and the log of jobs that ran. Every transition is one atomic
 * step: construction, `Start`, `Enqueue`, one iteration of a worker's loop, teardown.
 *
 * The worker's scan loop is modelled twice, selected by `ScanOrder`: `AsWritten` probes the
 * High queue on every iteration, as the source does; `Intended` probes queue `i` on
 * iteration `i`, the strict High-Medium-Low order the design describes.
 */
module ThreadPool {
  import opened Wrappers

  datatype Priority = High | Medium | Low

  /** `Priority::Count`: one job queue per priority. */
  const PriorityCount: nat := 3

  function Ordinal(p: Priority): (n: nat)
    ensures n < PriorityCount
  {
    match p
    case High => 0
    case Medium => 1
    case Low => 2
  }

  function PriorityAt(n: nat): Priority
    requires n < PriorityCount
  {
    if n == 0 then High else if n == 1 then Medium else Low
  }

  /** Ordinals are High = 0, Medium = 1, Low = 2, and they name the queues one-to-one. */
  lemma PriorityOrdinals(p: Priority, n: nat)
    requires n < PriorityCount
    ensures Ordinal(High) == 0 && Ordinal(Medium) == 1 && Ordinal(Low) == 2
    ensures PriorityAt(Ordinal(p)) == p && Ordinal(PriorityAt(n)) == n
  {
  }

  /** The priority `Enqueue` uses when the caller gives none. */
  const DefaultPriority: Priority := Medium

  /** A job is an opaque id; `Empty` is an empty `std::function`, which is dequeued but not run. */
  datatype Job = Callable(id: nat) | Empty

  type Queues = q: seq<seq<Job>> | |q| == PriorityCount witness [[], [], []]

  datatype Pool = Pool(
    queues: Queues,     // one FIFO per priority, indexed by ordinal
    tokens: nat,        // wake-up tokens waiting in the signal queue
    terminate: bool,    // the termination flag
    threads: nat,       // entries in the thread vector
    running: nat,       // workers that have not yet returned from their loop
    ran: seq<nat>)      // ids of the jobs executed so far, in order
  {
    /** Workers only leave their loop once the flag is set. */
    predicate Valid() {
      running <= threads && (!terminate ==> running == threads)
    }

    function Queue(p: Priority): seq<Job> {
      queues[Ordinal(p)]
    }
  }

  /** Jobs waiting in all three queues. */
  function Pending(p: Pool): nat {
    |p.queues[0]| + |p.queues[1]| + |p.queues[2]|
  }

  /** Ids of the runnable jobs of a queue, front first. */
  function Ids(q: seq<Job>): seq<nat> {
    if q == [] then []
    else (if q[0].Callable? then [q[0].id] else []) + Ids(q[1..])
  }

  lemma {:induction false} IdsAppend(a: seq<Job>, b: seq<Job>)
    ensures Ids(a + b) == Ids(a) + Ids(b)
    decreases |a|
  {
    if a == [] {
      assert a + b == b;
    } else {
      var head := if a[0].Callable? then [a[0].id] else [];
      assert (a + b)[0] == a[0] && (a + b)[1..] == a[1..] + b;
      assert Ids(a + b) == head + Ids(a[1..] + b);
      IdsAppend(a[1..], b);
      assert Ids(a) + Ids(b) == head + (Ids(a[1..]) + Ids(b));
    }
  }

  /** The constructor: no threads, no tokens, empty queues, flag clear. */
  function Construct(): (p: Pool)
    ensures p.Valid() && !p.terminate && p.threads == 0 && p.tokens == 0 && p.ran == []
    ensures forall pr :: p.Queue(pr) == []
  {
    Pool([[], [], []], 0, false, 0, 0, [])
  }

  /** `Start(numThreads)`: a non-positive count spawns nothing. */
  function Start(p: Pool, numThreads: int): (r: Pool)
    requires p.Valid()
    ensures r.Valid()
    ensures numThreads > 0 ==> r.threads == p.threads + numThreads
    ensures numThreads <= 0 ==> r.threads == p.threads
    ensures r.running - p.running == r.threads - p.threads
    ensures r.queues == p.queues && r.tokens == p.tokens && r.terminate == p.terminate
    ensures r.ran == p.ran
  {
    var spawned := if numThreads > 0 then numThreads else 0;
    p.(threads := p.threads + spawned, running := p.running + spawned)
  }

  /** `Enqueue(job, priority)`: push onto that priority's queue, then post one token. */
  function Enqueue(p: Pool, job: Job, priority: Priority): (r: Pool)
    requires p.Valid()
    ensures r.Valid()
    ensures r.Queue(priority) == p.Queue(priority) + [job]
    ensures forall q :: q != priority ==> r.Queue(q) == p.Queue(q)
    ensures r.tokens == p.tokens + 1 && Pending(r) == Pending(p) + 1
    ensures r.terminate == p.terminate && r.threads == p.threads && r.running == p.running
    ensures r.ran == p.ran
  {
    var k := Ordinal(priority);
    p.(queues := p.queues[k := p.queues[k] + [job]], tokens := p.tokens + 1)
  }

  /** `Enqueue(job)` with the default argument lands in the Medium queue. */
  lemma EnqueueDefaultsToMedium(p: Pool, job: Job)
    requires p.Valid()
    ensures Enqueue(p, job, DefaultPriority).Queue(Medium) == p.Queue(Medium) + [job]
    ensures Enqueue(p, job, DefaultPriority).Queue(High) == p.Queue(High)
  {
  }

  datatype ScanOrder = AsWritten | Intended

  /** The queue the scan loop probes on iteration `i`. */
  function Probed(order: ScanOrder, i: nat): (k: nat)
    requires i < PriorityCount
    ensures k < PriorityCount
  {
    match order
    case AsWritten => Ordinal(High)
    case Intended => i
  }

  datatype ScanResult = NotFound | Found(iteration: nat, queue: nat, job: Job)

  /**
   * The scan loop from iteration `i` on: the first probe that finds a non-empty queue
   * dequeues its front job and ends the loop.
   */
  function Scan(qs: Queues, order: ScanOrder, i: nat): (r: (Queues, ScanResult))
    requires i <= PriorityCount
    ensures r.1.NotFound? ==> r.0 == qs
    ensures r.1.NotFound? ==> forall j :: i <= j < PriorityCount ==> qs[Probed(order, j)] == []
    ensures r.1.Found? ==>
      && i <= r.1.iteration < PriorityCount
      && r.1.queue == Probed(order, r.1.iteration)
      && qs[r.1.queue] != []
      && r.1.job == qs[r.1.queue][0]
      && r.0 == qs[r.1.queue := qs[r.1.queue][1..]]
      && forall j :: i <= j < r.1.iteration ==> qs[Probed(order, j)] == []
    decreases PriorityCount - i
  {
    if i == PriorityCount then (qs, NotFound)
    else
      var k := Probed(order, i);
      if qs[k] != [] then (qs[k := qs[k][1..]], Found(i, k, qs[k][0]))
      else Scan(qs, order, i + 1)
  }

  /** What one wake-up of a worker did. */
  datatype Outcome =
    | Blocked    // no token: the worker stays asleep and nothing changes
    | Exited     // the flag was set: the worker returned from its loop
    | Idle       // woke, found no job, went back to waiting
    | Skipped    // dequeued an empty job, which is not called
    | Ran(id: nat)

  /** The runnable ids a scan result contributes to the log. */
  function RanIds(res: ScanResult): seq<nat> {
    if res.Found? then Ids([res.job]) else []
  }

  /**
   * One iteration of a live worker's loop: wait for a token, consume it, exit if the flag
   * is set, otherwise scan and run at most one job.
   */
  function WorkerStep(p: Pool, order: ScanOrder): (r: (Pool, Outcome))
    requires p.Valid() && p.running > 0
    ensures r.0.Valid()
    ensures r.1.Blocked? <==> p.tokens == 0
    ensures r.1.Blocked? ==> r.0 == p
    ensures !r.1.Blocked? ==> r.0.tokens == p.tokens - 1
    ensures r.0.threads == p.threads && r.0.terminate == p.terminate
    ensures p.tokens > 0 && p.terminate ==>
      r.1.Exited? && r.0 == p.(tokens := p.tokens - 1, running := p.running - 1)
    ensures !p.terminate ==> !r.1.Exited? && r.0.running == p.running
    ensures r.1.Ran? ==> r.0.ran == p.ran + [r.1.id]
    ensures !r.1.Ran? ==> r.0.ran == p.ran
    ensures r.1.Ran? || r.1.Skipped? ==> Pending(r.0) == Pending(p) - 1
    ensures !(r.1.Ran? || r.1.Skipped?) ==> r.0.queues == p.queues
  {
    if p.tokens == 0 then (p, Blocked)
    else
      var woke := p.(tokens := p.tokens - 1);
      if woke.terminate then (woke.(running := woke.running - 1), Exited)
      else
        var (qs, res) := Scan(woke.queues, order, 0);
        match res
        case NotFound => (woke, Idle)
        case Found(_, _, job) =>
          match job
          case Empty => (woke.(queues := qs), Skipped)
          case Callable(id) => (woke.(queues := qs, ran := woke.ran + [id]), Ran(id))
  }

  /** As written, a wake-up only ever dequeues from High: Medium and Low never shrink. */
  lemma AsWrittenStepTouchesOnlyHigh(p: Pool)
    requires p.Valid() && p.running > 0 && p.tokens > 0 && !p.terminate
    ensures var (r, out) := WorkerStep(p, AsWritten);
      && r.Queue(Medium) == p.Queue(Medium) && r.Queue(Low) == p.Queue(Low)
      && (p.Queue(High) == [] <==> out.Idle?)
      && (p.Queue(High) != [] ==> r.Queue(High) == p.Queue(High)[1..])
  {
    var (qs, res) := Scan(p.queues, AsWritten, 0);
    if res.Found? {
      assert res.queue == 0;
    } else {
      assert p.queues[Probed(AsWritten, 0)] == [];
    }
  }

  /** With the intended order, a wake-up takes the front job of the first non-empty queue. */
  lemma IntendedStepTakesFirstNonEmpty(p: Pool)
    requires p.Valid() && p.running > 0 && p.tokens > 0 && !p.terminate
    ensures var (r, out) := WorkerStep(p, Intended);
      && (Pending(p) == 0 <==> out.Idle?)
      && (p.Queue(High) != [] ==>
            r.Queue(High) == p.Queue(High)[1..] && r.Queue(Medium) == p.Queue(Medium)
            && r.Queue(Low) == p.Queue(Low))
      && (p.Queue(High) == [] && p.Queue(Medium) != [] ==>
            r.Queue(Medium) == p.Queue(Medium)[1..] && r.Queue(Low) == p.Queue(Low))
      && (p.Queue(High) == [] && p.Queue(Medium) == [] && p.Queue(Low) != [] ==>
            r.Queue(Low) == p.Queue(Low)[1..])
  {
    var (qs, res) := Scan(p.queues, Intended, 0);
    if res.Found? {
      assert res.queue == res.iteration;
      if p.queues[0] != [] {
        assert res.iteration == 0;
      } else if p.queues[1] != [] {
        assert res.iteration == 1;
      }
    } else {
      assert p.queues[Probed(Intended, 0)] == [] && p.queues[Probed(Intended, 1)] == [];
      assert p.queues[Probed(Intended, 2)] == [];
    }
  }

  /** The two scans agree whenever High has work ... */
  lemma {:induction false} ScansAgreeWhenHighNonEmpty(p: Pool)
    requires p.Valid() && p.running > 0 && p.Queue(High) != []
    ensures WorkerStep(p, AsWritten) == WorkerStep(p, Intended)
  {
    assert Scan(p.queues, AsWritten, 0) == Scan(p.queues, Intended, 0);
  }

  /** ... and differ exactly when High is empty and a lower queue is not. */
  lemma ScansDifferWhenOnlyLowerWork(p: Pool)
    requires p.Valid() && p.running > 0 && p.tokens > 0 && !p.terminate
    requires p.Queue(High) == [] && (p.Queue(Medium) != [] || p.Queue(Low) != [])
    ensures WorkerStep(p, AsWritten).1.Idle?
    ensures !WorkerStep(p, Intended).1.Idle?
    ensures Pending(WorkerStep(p, Intended).0) == Pending(p) - 1
  {
    AsWrittenStepTouchesOnlyHigh(p);
    IntendedStepTakesFirstNonEmpty(p);
  }

  /**
   * The jobs in the order they have run or will run if the queues are drained High first:
   * the log, then each queue front to back.
   */
  function Schedule(ran: seq<nat>, qs: Queues): seq<nat> {
    ran + Ids(qs[0]) + Ids(qs[1]) + Ids(qs[2])
  }

  /** Every job ever enqueued, as a bag: those that ran plus those still queued. */
  function Inventory(p: Pool): multiset<nat> {
    multiset(Schedule(p.ran, p.queues))
  }

  lemma IdsOfPop(q: seq<Job>)
    requires q != []
    ensures Ids(q) == Ids([q[0]]) + Ids(q[1..])
  {
    assert [q[0]][1..] == [];
  }

  /** Moving the front job of the first non-empty queue into the log keeps the schedule. */
  lemma PopFirstKeepsSchedule(ran: seq<nat>, qs: Queues, k: nat)
    requires k < PriorityCount && qs[k] != []
    requires forall j :: 0 <= j < k ==> qs[j] == []
    ensures Schedule(ran + Ids([qs[k][0]]), qs[k := qs[k][1..]]) == Schedule(ran, qs)
  {
    IdsOfPop(qs[k]);
    var qs' := qs[k := qs[k][1..]];
    if k == 0 {
      assert qs'[1] == qs[1] && qs'[2] == qs[2];
    } else if k == 1 {
      assert qs[0] == [] && qs'[0] == [] && qs'[2] == qs[2];
    } else {
      assert qs[0] == [] && qs[1] == [] && qs'[0] == [] && qs'[1] == [];
    }
  }

  /** A scan, in either order, takes from the first non-empty queue among those it reaches. */
  lemma ScanTakesFirstNonEmpty(qs: Queues, order: ScanOrder)
    ensures var (_, res) := Scan(qs, order, 0);
      res.Found? ==> forall j :: 0 <= j < res.queue ==> qs[j] == []
  {
    var (_, res) := Scan(qs, order, 0);
    if res.Found? && order.Intended? {
      forall j | 0 <= j < res.queue
        ensures qs[j] == []
      {
        assert qs[Probed(order, j)] == [];
      }
    }
  }

  /** A wake-up never reorders the schedule: a dequeued job moves from its queue into the log. */
  lemma StepKeepsSchedule(p: Pool, order: ScanOrder)
    requires p.Valid() && p.running > 0
    ensures var r := WorkerStep(p, order).0; Schedule(r.ran, r.queues) == Schedule(p.ran, p.queues)
  {
    if p.tokens > 0 && !p.terminate {
      var (qs, res) := Scan(p.queues, order, 0);
      if res.Found? {
        ScanTakesFirstNonEmpty(p.queues, order);
        PopFirstKeepsSchedule(p.ran, p.queues, res.queue);
        var r := WorkerStep(p, order).0;
        assert r.queues == qs;
        assert r.ran == p.ran + Ids([res.job]);
      }
    }
  }

  /** Enqueueing a runnable job adds exactly that job to the inventory. */
  lemma EnqueueAddsOneJob(p: Pool, id: nat, priority: Priority)
    requires p.Valid()
    ensures Inventory(Enqueue(p, Callable(id), priority)) == Inventory(p) + multiset{id}
  {
    var k := Ordinal(priority);
    IdsAppend(p.queues[k], [Callable(id)]);
    assert Ids([Callable(id)]) == [id];
  }

  /** A wake-up neither loses nor duplicates a job. */
  lemma StepConservesJobs(p: Pool, order: ScanOrder)
    requires p.Valid() && p.running > 0
    ensures Inventory(WorkerStep(p, order).0) == Inventory(p)
  {
    StepKeepsSchedule(p, order);
  }

  /** Every queued job has a token that will wake a worker for it. */
  predicate WakeupsCoverJobs(p: Pool) {
    Pending(p) <= p.tokens
  }

  lemma EnqueueKeepsWakeups(p: Pool, job: Job, priority: Priority)
    requires p.Valid() && WakeupsCoverJobs(p)
    ensures WakeupsCoverJobs(Enqueue(p, job, priority))
  {
  }

  /** With the intended order a wake-up that finds no job leaves no job behind. */
  lemma IntendedStepKeepsWakeups(p: Pool)
    requires p.Valid() && p.running > 0 && !p.terminate && WakeupsCoverJobs(p)
    ensures WakeupsCoverJobs(WorkerStep(p, Intended).0)
  {
    if p.tokens > 0 {
      IntendedStepTakesFirstNonEmpty(p);
    }
  }

  /** `k` successive wake-ups of live workers before teardown. */
  function RunSteps(p: Pool, order: ScanOrder, k: nat): (r: Pool)
    requires p.Valid() && !p.terminate && p.running > 0 && p.tokens >= k
    ensures r.Valid() && !r.terminate && r.running == p.running && r.threads == p.threads
    ensures r.tokens == p.tokens - k
    ensures Pending(r) <= Pending(p)
    decreases k
  {
    if k == 0 then p else RunSteps(WorkerStep(p, order).0, order, k - 1)
  }

  /** As written, no number of wake-ups ever takes a Medium or Low job. */
  lemma {:induction false} AsWrittenNeverRunsLower(p: Pool, k: nat)
    requires p.Valid() && !p.terminate && p.running > 0 && p.tokens >= k
    ensures RunSteps(p, AsWritten, k).Queue(Medium) == p.Queue(Medium)
    ensures RunSteps(p, AsWritten, k).Queue(Low) == p.Queue(Low)
    decreases k
  {
    if k > 0 {
      AsWrittenStepTouchesOnlyHigh(p);
      AsWrittenNeverRunsLower(WorkerStep(p, AsWritten).0, k - 1);
    }
  }

  /** With the intended order, a wake-up while jobs are queued takes one of them. */
  lemma IntendedStepMakesProgress(p: Pool)
    requires p.Valid() && p.running > 0 && p.tokens > 0 && !p.terminate && Pending(p) > 0
    ensures Pending(WorkerStep(p, Intended).0) == Pending(p) - 1
  {
    IntendedStepTakesFirstNonEmpty(p);
  }

  /**
   * With the intended order and a token per queued job, as many wake-ups as there are jobs
   * empty every queue and run exactly the schedule: the jobs that ran, then each queue.
   */
  lemma {:induction false} DrainRunsSchedule(p: Pool)
    requires p.Valid() && !p.terminate && p.running > 0 && WakeupsCoverJobs(p)
    ensures Pending(RunSteps(p, Intended, Pending(p))) == 0
    ensures RunSteps(p, Intended, Pending(p)).ran == Schedule(p.ran, p.queues)
    decreases Pending(p)
  {
    var n := Pending(p);
    if n == 0 {
      assert p.queues[0] == [] && p.queues[1] == [] && p.queues[2] == [];
    } else {
      var p1 := WorkerStep(p, Intended).0;
      IntendedStepMakesProgress(p);
      StepKeepsSchedule(p, Intended);
      assert RunSteps(p, Intended, n) == RunSteps(p1, Intended, n - 1);
      DrainRunsSchedule(p1);
    }
  }

  /** The schedule lists the queues High, Medium, Low. */
  lemma ScheduleByPriority(p: Pool)
    requires p.Valid()
    ensures Schedule(p.ran, p.queues) == p.ran + Ids(p.Queue(High)) + Ids(p.Queue(Medium)) + Ids(p.Queue(Low))
  {
  }

  /**
   * The drain in priority terms: the jobs run High first, then Medium, then Low, each queue
   * in FIFO order.
   */
  lemma IntendedDrainOrder(p: Pool)
    requires p.Valid() && !p.terminate && p.running > 0 && WakeupsCoverJobs(p)
    ensures Pending(RunSteps(p, Intended, Pending(p))) == 0
    ensures RunSteps(p, Intended, Pending(p)).ran
         == p.ran + Ids(p.Queue(High)) + Ids(p.Queue(Medium)) + Ids(p.Queue(Low))
  {
    DrainRunsSchedule(p);
    ScheduleByPriority(p);
  }

  /** Concrete case: one worker, one Medium job. As written, its token is spent and it strands. */
  lemma MediumJobStranded()
    ensures var p := Enqueue(Start(Construct(), 1), Callable(7), Medium);
      var (r, out) := WorkerStep(p, AsWritten);
      && out.Idle? && r.tokens == 0 && r.Queue(Medium) == [Callable(7)]
      && !WakeupsCoverJobs(r)
  {
    var p := Enqueue(Start(Construct(), 1), Callable(7), Medium);
    AsWrittenStepTouchesOnlyHigh(p);
  }

  /** The same case with the intended order runs the job. */
  lemma MediumJobRunsWhenScanIsStrict()
    ensures var p := Enqueue(Start(Construct(), 1), Callable(7), Medium);
      var (r, out) := WorkerStep(p, Intended);
      out == Ran(7) && r.ran == [7] && Pending(r) == 0
  {
    var p := Enqueue(Start(Construct(), 1), Callable(7), Medium);
    IntendedStepTakesFirstNonEmpty(p);
  }

  /** The join: every still-running worker wakes on a token, sees the flag and returns. */
  function JoinAll(p: Pool): (r: Pool)
    requires p.Valid() && p.terminate && p.tokens >= p.running
    ensures r.Valid() && r.terminate && r.running == 0
    ensures r.tokens == p.tokens - p.running
    ensures r.queues == p.queues && r.ran == p.ran && r.threads == p.threads
    decreases p.running
  {
    // With the flag set a worker returns before it scans, so the scan order is irrelevant.
    if p.running == 0 then p else JoinAll(WorkerStep(p, AsWritten).0)
  }

  /**
   * The destructor: set the flag, post two tokens per thread, join every worker and clear
   * the thread list. Queued jobs are left where they are and never run.
   */
  function Teardown(p: Pool): (r: Pool)
    requires p.Valid()
    ensures r.Valid() && r.terminate && r.threads == 0 && r.running == 0
    ensures r.tokens == p.tokens + 2 * p.threads - p.running
    ensures r.tokens >= p.threads
    ensures r.queues == p.queues && r.ran == p.ran
  {
    var signalled := p.(terminate := true, tokens := p.tokens + 2 * p.threads);
    JoinAll(signalled).(threads := 0)
  }
}
