/**
 * The generic worker pool of package `workerpool`, as a sequential model.
 *
 * The task channel and the result channel are the sequences `tasks` and
 * `results`; closing them is a flag. The `sync.Once` guard is `onceUsed`
 * (a fresh `Once` is `onceUsed == false`), and the `sync.WaitGroup` is the
 * integer `wgCounter`. The goroutines themselves are not modelled: one step
 * of a worker is `ProcessOne`, and a worker draining the queue on its own is
 * `RunWorker`. Go panics (a send on or a close of a closed channel, a
 * negative WaitGroup counter, a negative channel capacity) are
 * preconditions.
 */
module Workerpool {
  import opened Wrappers

  /** `Result[R]`: a value, or an error with Go's zero value in `value`. */
  datatype Result<R, E> = Result(value: R, err: Option<E>)

  /** The result `work` publishes for one task. */
  function Outcome<P, R, E>(job: P -> (R, Option<E>), zero: R, task: P): (res: Result<R, E>)
    ensures res.err == job(task).1
    ensures res.err.Some? ==> res.value == zero
    ensures res.err.None? ==> res.value == job(task).0
  {
    var (value, err) := job(task);
    if err.Some? then Result(zero, err) else Result(value, None)
  }

  /** The results of processing `ts` one after another, in order. */
  function ResultsOf<P, R, E>(job: P -> (R, Option<E>), zero: R, ts: seq<P>): (rs: seq<Result<R, E>>)
    ensures |rs| == |ts|
    ensures forall i :: 0 <= i < |ts| ==> rs[i] == Outcome(job, zero, ts[i])
  {
    if ts == [] then [] else [Outcome(job, zero, ts[0])] + ResultsOf(job, zero, ts[1..])
  }

  /** Processing a concatenation yields the concatenation of the results. */
  lemma {:induction false} ResultsOfAppend<P, R, E>(job: P -> (R, Option<E>), zero: R, a: seq<P>, b: seq<P>)
    ensures ResultsOf(job, zero, a + b) == ResultsOf(job, zero, a) + ResultsOf(job, zero, b)
  {
    if a == [] {
      assert a + b == b;
    } else {
      assert (a + b)[1..] == a[1..] + b;
      ResultsOfAppend(job, zero, a[1..], b);
    }
  }

  /** A job that always fails yields only error results, each with the zero value. */
  lemma AlwaysFailingJob<P, R, E>(job: P -> (R, Option<E>), zero: R, ts: seq<P>)
    requires forall p :: job(p).1.Some?
    ensures forall r :: r in ResultsOf(job, zero, ts) ==> r.err.Some? && r.value == zero
  {
  }

  /** A job that never fails yields exactly its values, in task order, and no errors. */
  lemma NeverFailingJob<P, R, E>(job: P -> (R, Option<E>), zero: R, ts: seq<P>)
    requires forall p :: job(p).1.None?
    ensures forall i :: 0 <= i < |ts| ==>
              ResultsOf(job, zero, ts)[i] == Result(job(ts[i]).0, None)
  {
  }

  /** How many workers `Start` spawns: the loop `for i := 0; i < n; i++` runs max(n, 0) times. */
  function Spawned(numWorkers: int): (n: nat)
    ensures numWorkers >= 0 ==> n == numWorkers
    ensures numWorkers < 0 ==> n == 0
  {
    if numWorkers > 0 then numWorkers else 0
  }

  const AlreadyStarted: string := "worker pool already started"
  const NotStarted: string := "worker pool not started"

  class WorkerPool<P, R, E> {
    const numWorkers: int
    const job: P -> (R, Option<E>)
    const bufferSize: int
    /** Go's zero value of R, which a failed result carries. */
    const zero: R

    var tasks: seq<P>
    var results: seq<Result<R, E>>
    var tasksClosed: bool
    var resultsClosed: bool
    var onceUsed: bool
    var started: bool
    var wgCounter: int

    /** Goroutines spawned so far, and tasks processed so far. */
    ghost var spawned: nat
    ghost var processed: nat

    ghost predicate Valid()
      reads this
    {
      && onceUsed == started
      && (resultsClosed ==> tasksClosed)
      && wgCounter == spawned - processed
    }

    /** `NewWorkerPool`. `make(chan T, n)` panics for a negative `n`. */
    constructor (numWorkers: int, job: P -> (R, Option<E>), bufferSize: int, zero: R)
      requires bufferSize >= 0
      ensures Valid()
      ensures this.numWorkers == numWorkers && this.job == job
      ensures this.bufferSize == bufferSize && this.zero == zero
      ensures tasks == [] && results == []
      ensures !started && !onceUsed && !tasksClosed && !resultsClosed
      ensures wgCounter == 0 && spawned == 0 && processed == 0
    {
      this.numWorkers := numWorkers;
      this.job := job;
      this.bufferSize := bufferSize;
      this.zero := zero;
      tasks, results := [], [];
      tasksClosed, resultsClosed := false, false;
      onceUsed, started := false, false;
      wgCounter := 0;
      spawned, processed := 0, 0;
    }

    /** `Start`: fails on a started pool; otherwise the once-guard spawns the workers. */
    method Start() returns (err: Option<string>)
      requires Valid()
      modifies this
      ensures Valid()
      ensures old(started) ==> err == Some(AlreadyStarted)
      ensures old(started) ==>
                started == old(started) && onceUsed == old(onceUsed)
                && wgCounter == old(wgCounter) && spawned == old(spawned)
      ensures !old(started) ==> err == None && started && onceUsed
      ensures !old(started) ==>
                spawned == old(spawned) + Spawned(numWorkers)
                && wgCounter == old(wgCounter) + Spawned(numWorkers)
      ensures tasks == old(tasks) && results == old(results)
      ensures tasksClosed == old(tasksClosed) && resultsClosed == old(resultsClosed)
      ensures processed == old(processed)
    {
      if started {
        return Some(AlreadyStarted);
      }
      if !onceUsed {
        onceUsed := true;
        var i := 0;
        while i < numWorkers
          invariant 0 <= i <= Spawned(numWorkers)
          invariant wgCounter == old(wgCounter) + i
          invariant spawned == old(spawned) + i
          invariant processed == old(processed)
          invariant tasks == old(tasks) && results == old(results)
          invariant tasksClosed == old(tasksClosed) && resultsClosed == old(resultsClosed)
          invariant onceUsed && started == old(started)
        {
          wgCounter := wgCounter + 1;
          spawned := spawned + 1;
          i := i + 1;
        }
        started := true;
      }
      return None;
    }

    /**
     * `work`: run the job on one task and publish exactly one result.
     * The deferred `wg.Done()` panics when the counter would go negative,
     * and the send panics once the result channel is closed.
     */
    method Work(task: P)
      requires Valid()
      requires wgCounter > 0
      requires !resultsClosed
      modifies this
      ensures Valid()
      ensures results == old(results) + [Outcome(job, zero, task)]
      ensures wgCounter == old(wgCounter) - 1 && processed == old(processed) + 1
      ensures tasks == old(tasks) && spawned == old(spawned)
      ensures started == old(started) && onceUsed == old(onceUsed)
      ensures tasksClosed == old(tasksClosed) && resultsClosed == old(resultsClosed)
    {
      results := results + [Outcome(job, zero, task)];
      wgCounter := wgCounter - 1;
      processed := processed + 1;
    }

    /** One iteration of a worker's `for job := range wp.tasksChan` loop. */
    method ProcessOne()
      requires Valid()
      requires tasks != []
      requires wgCounter > 0
      requires !resultsClosed
      modifies this
      ensures Valid()
      ensures tasks == old(tasks)[1..]
      ensures results == old(results) + [Outcome(job, zero, old(tasks)[0])]
      ensures wgCounter == old(wgCounter) - 1 && processed == old(processed) + 1
      ensures spawned == old(spawned)
      ensures started == old(started) && onceUsed == old(onceUsed)
      ensures tasksClosed == old(tasksClosed) && resultsClosed == old(resultsClosed)
    {
      var task := tasks[0];
      tasks := tasks[1..];
      Work(task);
    }

    /** A single worker consuming every queued task, in queue order. */
    method RunWorker()
      requires Valid()
      requires wgCounter >= |tasks|
      requires tasks != [] ==> !resultsClosed
      modifies this
      ensures Valid()
      ensures tasks == []
      ensures results == old(results) + ResultsOf(job, zero, old(tasks))
      ensures wgCounter == old(wgCounter) - |old(tasks)|
      ensures processed == old(processed) + |old(tasks)|
      ensures spawned == old(spawned)
      ensures started == old(started) && onceUsed == old(onceUsed)
      ensures tasksClosed == old(tasksClosed) && resultsClosed == old(resultsClosed)
    {
      ghost var queued := tasks;
      ghost var k := 0;
      while tasks != []
        invariant Valid()
        invariant 0 <= k <= |queued|
        invariant tasks == queued[k..]
        invariant results == old(results) + ResultsOf(job, zero, queued[..k])
        invariant wgCounter == old(wgCounter) - k && processed == old(processed) + k
        invariant spawned == old(spawned)
        invariant started == old(started) && onceUsed == old(onceUsed)
        invariant tasksClosed == old(tasksClosed) && resultsClosed == old(resultsClosed)
        decreases |tasks|
      {
        ghost var task := tasks[0];
        ProcessOne();
        assert queued[..k + 1] == queued[..k] + [task];
        ResultsOfAppend(job, zero, queued[..k], [task]);
        k := k + 1;
      }
      assert queued[..k] == queued;
    }

    /** `Results`: the result channel itself; reading it changes nothing. */
    method Results() returns (rs: seq<Result<R, E>>)
      ensures rs == results
    {
      rs := results;
    }

    /**
     * `Stop`: fails on an unstarted pool. Otherwise it closes the task
     * channel; the workers then drain the tasks still queued, one `wg.Done()`
     * each, and `wg.Wait()` returns once the counter is 0. After that the
     * result channel is closed and the once-guard and `started` are reset.
     * With at least one worker, `wg.Wait()` blocks for ever when the counter
     * stays above the number of queued tasks, and a `wg.Done()` panics when it
     * is below; both are excluded by requiring the counter to equal the queue
     * length. With no worker the counter is 0, `wg.Wait()` returns at once and
     * the queued tasks stay unread in the closed channel. Closing an already
     * closed channel panics, which a second `Stop` after a restart would do.
     */
    method Stop() returns (err: Option<string>)
      requires Valid()
      requires started ==> !tasksClosed && (wgCounter == |tasks| || numWorkers <= 0)
      modifies this
      ensures Valid()
      ensures !old(started) ==> err == Some(NotStarted)
      ensures !old(started) ==>
                started == old(started) && onceUsed == old(onceUsed)
                && tasksClosed == old(tasksClosed) && resultsClosed == old(resultsClosed)
                && tasks == old(tasks) && results == old(results)
                && wgCounter == old(wgCounter) && processed == old(processed)
      ensures old(started) ==> err == None
      ensures old(started) ==> tasksClosed && resultsClosed && !started && !onceUsed
      ensures old(started) && numWorkers > 0 ==>
                tasks == [] && results == old(results) + ResultsOf(job, zero, old(tasks))
                && wgCounter == 0 && processed == old(processed) + |old(tasks)|
      ensures old(started) && numWorkers <= 0 ==>
                tasks == old(tasks) && results == old(results)
                && wgCounter == old(wgCounter) && processed == old(processed)
      ensures spawned == old(spawned)
    {
      if !started {
        return Some(NotStarted);
      }
      tasksClosed := true;
      if numWorkers > 0 {
        RunWorker();
      }
      resultsClosed := true;
      onceUsed := false;
      started := false;
      return None;
    }

    /** `AddTasks`: send each task, in argument order; a send on a closed channel panics. */
    method AddTasks(ts: seq<P>)
      requires Valid()
      requires ts != [] ==> !tasksClosed
      modifies this
      ensures Valid()
      ensures tasks == old(tasks) + ts
      ensures results == old(results)
      ensures started == old(started) && onceUsed == old(onceUsed)
      ensures tasksClosed == old(tasksClosed) && resultsClosed == old(resultsClosed)
      ensures wgCounter == old(wgCounter) && spawned == old(spawned) && processed == old(processed)
    {
      for i := 0 to |ts|
        invariant Valid()
        invariant tasks == old(tasks) + ts[..i]
        invariant results == old(results)
        invariant started == old(started) && onceUsed == old(onceUsed)
        invariant tasksClosed == old(tasksClosed) && resultsClosed == old(resultsClosed)
        invariant wgCounter == old(wgCounter) && spawned == old(spawned) && processed == old(processed)
      {
        assert ts[..i + 1] == ts[..i] + [ts[i]];
        tasks := tasks + [ts[i]];
      }
      assert ts[..|ts|] == ts;
    }
  }

  /**
   * The lifecycle as a caller sees it: `Stop` before `Start` fails, a second
   * `Start` fails and spawns nothing, and a pool with one worker per task
   * and room in both channels for every task stops after publishing one
   * result per task and can then be started again. The results come in
   * queue order in the schedule where the workers finish in queue order;
   * the source publishes in completion order, so other schedules permute
   * them. After the restart the task channel stays closed, so neither
   * `AddTasks` nor a second `Stop` may follow, and the restart spawns a fresh
   * set of workers onto the same WaitGroup.
   */
  method LifecycleScenario<P, R, E>(job: P -> (R, Option<E>), zero: R, ts: seq<P>)
    returns (stopEarly: Option<string>, first: Option<string>, again: Option<string>,
             stop: Option<string>, restart: Option<string>, closedAfterRestart: bool,
             counterAfterTwoStarts: int, published: seq<Result<R, E>>, counterAfterRestart: int)
    ensures stopEarly == Some(NotStarted)
    ensures first == None && again == Some(AlreadyStarted)
    ensures counterAfterTwoStarts == |ts|
    ensures stop == None && published == ResultsOf(job, zero, ts)
    ensures restart == None && closedAfterRestart
    ensures counterAfterRestart == |ts|
  {
    var pool := new WorkerPool(|ts|, job, |ts|, zero);
    stopEarly := pool.Stop();
    first := pool.Start();
    again := pool.Start();
    counterAfterTwoStarts := pool.wgCounter;
    pool.AddTasks(ts);
    stop := pool.Stop();
    published := pool.Results();
    restart := pool.Start();
    closedAfterRestart := pool.started && pool.tasksClosed;
    counterAfterRestart := pool.wgCounter;
  }

  /**
   * Doubling `[1, 2]` with two workers, in the schedule where one goroutine
   * takes both tasks: the results are 2 then 4, with no error, and `Stop`
   * succeeds. With two goroutines the source publishes in completion order,
   * so the other schedule would give 4 then 2.
   */
  method DoubleScenario() returns (rs: seq<Result<int, string>>, stop: Option<string>)
    ensures rs == [Result(2, None), Result(4, None)]
    ensures stop == None
  {
    var pool := new WorkerPool(2, (x: int) => (x * 2, None), 2, 0);
    var _ := pool.Start();
    pool.AddTasks([1, 2]);
    pool.RunWorker();
    stop := pool.Stop();
    rs := pool.Results();
  }

  /**
   * A pool with no worker accepts a task and stops successfully: the counter
   * is 0, so nothing is waited for, and the task stays unprocessed.
   */
  method ZeroWorkerScenario<P, R, E>(job: P -> (R, Option<E>), zero: R, task: P)
    returns (stop: Option<string>, pending: seq<P>, published: seq<Result<R, E>>)
    ensures stop == None && pending == [task] && published == []
  {
    var pool := new WorkerPool(0, job, 1, zero);
    var _ := pool.Start();
    pool.AddTasks([task]);
    stop := pool.Stop();
    pending := pool.tasks;
    published := pool.Results();
  }

  /**
   * `wg.Add(1)` runs once per worker but `wg.Done()` once per task: with one
   * worker and two tasks the counter is already 0 after the first task, so
   * processing the second one would drive it negative.
   */
  method WaitGroupScenario<P, R, E>(job: P -> (R, Option<E>), zero: R, a: P, b: P)
    returns (counter: int, pending: seq<P>)
    ensures counter == 0 && pending == [b]
  {
    var pool := new WorkerPool(1, job, 2, zero);
    var _ := pool.Start();
    pool.AddTasks([a, b]);
    pool.ProcessOne();
    counter, pending := pool.wgCounter, pool.tasks;
  }
}
