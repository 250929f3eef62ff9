# go-clarch core, modelled in Dafny

This project models three pieces of a small Go clean-architecture skeleton
and proves properties of them:

- **The generic worker pool** (`utils/workerpool`) as a sequential model.
  A class `Workerpool.WorkerPool` holds the pool's fields: the worker count,
  the job, the buffer size, the task queue and the result queue (both as
  sequences), and flags for the two closed channels. It also holds the
  `sync.Once` guard (`onceUsed`), the `started` flag and the `sync.WaitGroup`
  counter (`wgCounter`). `Start`, `Stop`, `AddTasks`, `Results` and `work`
  are methods. One worker iteration is `ProcessOne`, and one worker draining
  the queue on its own is `RunWorker`. The pure functions `Outcome` and
  `ResultsOf` state what a processed task publishes.
- **The domain exceptions and the status mapping** (`domain/exceptions`).
  The Go `error` interface becomes the datatype `Exceptions.Exception`, with
  one constructor per exception struct. Two more constructors stand for every
  other error: `OtherError` for an unlisted error type and `WrappedError` for
  an error wrapping another one. A nil error is `None`.
  `GetHTTPStatusCode` is a total function over `Option<Exception>`.
- **The controller registry** (`presentation/controller`). The package-level
  slice becomes a class `Controller.Registry` with the registered controllers
  and a trace of the `SetupRoutes()` calls issued to them.

Conventions of the model:
- A Go panic is a precondition, not an error result. Five cases:
  a negative channel capacity in `NewWorkerPool`; a send on the closed task
  channel in `AddTasks`; closing an already closed channel in a `Stop` after
  a restart; `wg.Done()` driving the WaitGroup counter below zero
  (`Work` and `ProcessOne` require `wgCounter > 0`); and a send on the closed
  result channel (`Work`, `ProcessOne` and `RunWorker` require
  `!resultsClosed`).
- A call that would block for ever is a precondition too. `Stop` closes the
  task channel, lets the workers drain the queued tasks and then waits on the
  WaitGroup. With at least one worker the wait returns only if the counter
  reaches exactly 0, so `Stop` on a started pool with workers requires
  `wgCounter == |tasks|`. With no worker the counter is 0, the wait returns at
  once and the queued tasks stay unread.
- Go's zero value of the result type is passed to the constructor as `zero`.
  A failed result carries it.
- The WaitGroup counter goes up once per spawned worker (in `Start`) and down
  once per processed task (in `work`). The invariant `Valid()` keeps
  `wgCounter == spawned - processed`. As a consequence, each `Start` allows at
  most `numWorkers` tasks to be processed before the next `wg.Done()` would
  panic, and with at least one worker `Stop` returns only after exactly
  `numWorkers` tasks.
  `WaitGroupScenario` shows this with one worker and two tasks.
- The lifecycle is the one the code has, not a one-shot design with dedicated error kinds:
  - restart is allowed, because `Stop` resets `once` and `started`;
  - lifecycle errors are the two plain strings of `errors.New`;
  - `numWorkers <= 0` is accepted and spawns no worker;
  - `AddTasks` after `Stop` panics. There is no `PoolClosed` error.

## Model

| member | source | states |
|---|---|---|
| `Workerpool.Outcome` | utils/workerpool/worker_pool.go:63-72 | the published result carries exactly the job's error; with an error its value is the zero value, without one it is the job's value |
| `Workerpool.ResultsOf` | utils/workerpool/worker_pool.go:52-54 | processing a task list sequentially yields exactly one result per task, the i-th being the outcome of the i-th task (no loss, no duplication) |
| `Workerpool.ResultsOfAppend` | utils/workerpool/worker_pool.go:52-54 | results of a concatenated queue are the concatenation of the results, so processing in pieces equals processing at once |
| `Workerpool.AlwaysFailingJob` | utils/workerpool/worker_pool.go:66-68 | a job that always fails produces only error-tagged results, each with the zero value |
| `Workerpool.NeverFailingJob` | utils/workerpool/worker_pool.go:71 | a job that never fails produces its own values in task order, with no error |
| `Workerpool.Spawned` | utils/workerpool/worker_pool.go:49 | the spawn loop runs numWorkers times, or not at all when numWorkers is not positive |
| `Workerpool.WorkerPool.constructor` | utils/workerpool/worker_pool.go:32-41 | a new pool stores numWorkers, job and buffer size; it is not started, its once-guard is fresh, its queues are empty and open, and its counter is 0; a negative buffer size is excluded (Go panics) |
| `Workerpool.WorkerPool.Start` | utils/workerpool/worker_pool.go:43-61 | on a started pool: returns "worker pool already started" and changes nothing; otherwise: returns nil, sets started and uses the once-guard, adds one counter unit per spawned worker, and leaves the queues alone |
| `Workerpool.WorkerPool.Work` | utils/workerpool/worker_pool.go:63-72 | appends exactly one result, the task's outcome, and decrements the counter by one; requires a positive counter and an open result channel (Go panics otherwise) |
| `Workerpool.WorkerPool.ProcessOne` | utils/workerpool/worker_pool.go:52-54 | removes the head task and appends exactly its outcome to the results; nothing else changes but the counter |
| `Workerpool.WorkerPool.RunWorker` | utils/workerpool/worker_pool.go:51-55 | a worker draining the queue empties it and appends the results of all queued tasks in queue order |
| `Workerpool.WorkerPool.Results` | utils/workerpool/worker_pool.go:74-76 | returns the result queue itself and changes no state |
| `Workerpool.WorkerPool.Stop` | utils/workerpool/worker_pool.go:78-90 | on an unstarted pool: returns "worker pool not started" and changes nothing; otherwise: closes the task channel; with at least one worker, publishes the results of every still-queued task in queue order and leaves the counter at 0, and with none leaves the queue, results and counter as they were; then closes the result channel, resets started and the once-guard, and returns nil; requires an open task channel and, when there are workers, the counter to equal the queue length (otherwise `wg.Wait()` blocks for ever or `wg.Done()` panics) |
| `Workerpool.WorkerPool.AddTasks` | utils/workerpool/worker_pool.go:92-96 | the task queue becomes the old queue followed by exactly the given tasks in argument order; nothing else changes; excluded after Stop when there is a task to send (Go panics) |
| `Workerpool.LifecycleScenario` | utils/workerpool/worker_pool.go:43-96 | with one worker per task and a buffer as large as the task list: Stop before Start fails; a second Start fails and spawns nothing; Stop succeeds after publishing one result per task (in queue order, in the schedule where the workers finish in queue order); a restart succeeds, leaves the task channel closed and spawns one new round of workers |
| `Workerpool.ZeroWorkerScenario` | utils/workerpool/worker_pool.go:49-89 | a pool with no worker accepts a task and Stop returns nil at once, leaving the task unprocessed and publishing nothing |
| `Workerpool.DoubleScenario` | utils/workerpool/worker_pool.go:32-96 | with two workers, in the schedule where one goroutine takes both tasks, doubling 1 and 2 yields 2 then 4 with no error, and Stop succeeds (the other schedule publishes 4 then 2) |
| `Workerpool.WaitGroupScenario` | utils/workerpool/worker_pool.go:48-72 | with one worker and two tasks, the counter is 0 after the first task while the second is still queued |
| `Exceptions.Exception.Error` | domain/exceptions/business.go:11-13 | every exception's Error() returns the message it stores, as the four Error() methods do; being a function it changes nothing, so repeated calls agree (also service.go, technical.go, repository_no_data_found.go, lines 11-13) |
| `Exceptions.NewBusinessException` | domain/exceptions/business.go:7-13 | builds a business exception whose Error() is the given message |
| `Exceptions.NewServiceException` | domain/exceptions/service.go:7-13 | builds a service exception whose Error() is the given message |
| `Exceptions.NewTechnicalException` | domain/exceptions/technical.go:7-13 | builds a technical exception whose Error() is the given message |
| `Exceptions.NewRepositoryNoDataFoundException` | domain/exceptions/repository_no_data_found.go:7-13 | builds a no-data-found exception whose Error() is the given message |
| `Exceptions.ErrorRecoversMessage` | domain/exceptions/business.go:3-13 | for each of the four kinds, two exceptions report the same Error() exactly when they were built from the same message |
| `Exceptions.KindsDistinct` | domain/exceptions/get_http_status_code.go:8-16 | the four exception kinds are distinct types even for the same message |
| `Exceptions.GetHTTPStatusCode` | domain/exceptions/get_http_status_code.go:3-19 | the code is one of 0, 400, 404, 500; it is 0 exactly for nil; a client error exactly for business, service and no-data-found; a server error exactly for every other non-nil error; 404 exactly for no-data-found |
| `Exceptions.StatusOfConstructors` | domain/exceptions/get_http_status_code.go:9-16 | business and service map to 400, no-data-found to 404, technical to 500, whatever the message |
| `Exceptions.UnlistedErrorsAreServerErrors` | domain/exceptions/get_http_status_code.go:17-18 | any error type outside the four maps to 500 |
| `Exceptions.WrappingIsNotUnwrapped` | domain/exceptions/get_http_status_code.go:8 | a wrapped error maps to 500 whatever it wraps, since the switch inspects only the outer type |
| `Exceptions.StatusIgnoresMessage` | domain/exceptions/get_http_status_code.go:8-19 | changing an error's message never changes its code |
| `Controller.Registry.constructor` | presentation/controller/index.go:3 | the registry starts empty and no route setup has been called |
| `Controller.Registry.Add` | presentation/controller/index.go:5-7 | the registry becomes the old one followed by the controller: length grows by one, the prefix and order are kept |
| `Controller.Registry.SetupRoutes` | presentation/controller/index.go:9-13 | calls every registered controller exactly once in registration order, and leaves the registry unchanged |
| `Controller.AddTwiceScenario` | presentation/controller/index.go:5-7 | adding one controller twice registers it twice (no duplicate check) |
| `Controller.SetupRoutesScenario` | presentation/controller/index.go:5-13 | registering a then b and setting up routes twice calls a, b, a, b and keeps the registry [a, b] |

## Left out

- Goroutines, parallel consumption and the order in which workers finish: concurrency. The model processes tasks one at a time, in queue order.
- Channel blocking and backpressure at the buffer size: scheduling, not state. `bufferSize` is stored but never bounds a queue.
- Workerpool.WorkerPool.Stop: the workers' draining after the task channel closes is modelled as one sequential pass in queue order; results published concurrently, in completion order, are not captured.
- Reading results from the channel returned by `Results`: done by the caller, outside the pool. The model keeps every published result.
- The work each controller's own `SetupRoutes()` does: the `Controller` interface is not part of this model, so controllers are opaque values and only the call order is recorded.
- The use-case decorator, the logger, the use-case interface and the CRUD repository interface: they are logging, reflection, timing and interface declarations with no state or logic to model.
- Pointer identity of exceptions: each Go constructor returns a fresh pointer, so two exceptions built from one message are different values in Go. The model treats exceptions as values and does not capture that identity.
- The job: modelled as a Dafny function, total and deterministic. A Go job that panics, never returns or keeps state between calls is not captured.
