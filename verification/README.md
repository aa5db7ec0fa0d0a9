# A model of a distributed task runner, and what it guarantees

This project models the asynchronous master of py-distributed-compute, the MapReduce jobs that run on
it, the multiprocessing backend of its workers and the framing of its messages, and proves what they
keep, for every input and every interleaving.

`dafny verify dfyconfig.toml` checks all of it.

## What is modelled

**The master** (`Protocol`) is a labelled transition system. Its state holds the tasks, the workers, the
connections with their pending sends and the place where each handler is suspended, every dispatch
coroutine with the worker and attempt it captured, the response registry with its futures, and the
callers waiting on them. One step is one stretch of coroutine code between two suspension points, so a
sequence of steps is an interleaving the event loop may produce. Worker processes, the network and the
clock only choose which enabled step comes next: messages arrive, connections close, sends and closes
fail and heartbeats go stale in any order; a send may also raise what nothing catches, and a reply may be
a TASK_RESULT without a status. `Invariant`, `DispatchSteps` and `Runs` prove an invariant that every step
keeps, whatever the environment does; `Evolution`, `Traces`, `Stranding`, `Ownership`, `Stopping`, `Links`,
`Supersession`, `WorkerLife`, `Replies`, `Guarantees`, `Endings` and `Drain` build what holds over whole runs; `Effects` says what single
steps, and pairs of them, do to the tables.

**The code** (`Registry`, `Scheduling`, `Server`) is the same master as classes whose methods update
fields, with the source's loops. Each method is proved to do to the whole state exactly what the
transition system's step says, so everything proved of the steps is proved of the code.

**The jobs** (`Execution`, `Partitioning`, `Jobs`, `MapReduce`, `EndToEnd`) are the loops that partition,
submit, index, collect, shuffle and reduce, and the theorem that together they compute one sequential
function of the input; `EndToEnd` joins it to the master's runs, from the submission of the job's own tasks in
any state of any run to the results it reads.

**Two smaller machines**: `Backend` (the in-flight semaphore and the counters) and `Framing`
(length-prefixed messages over a stream that delivers arbitrary pieces).

## Assumptions, and which of them are exact

A run may be asked to obey an environment (`Traces.Env`), whose parts are independent. Many results ask for
none of them. For every property that one of these conditions protects, the exact condition under which a step
breaks it is proved, and a run that breaks it is given.

- `oneIdPerLink`: a connection does not install a second worker id while it is current for a first one.
  Registering the same id again on the same connection is allowed. Exact for installed connections being
  alive and properly owned (`Links.OneIdIsExact`); when a send is left with nobody to settle it is
  `Links.HangingIsExact`. `Counterexamples.RunningOnADeadLink` leaves a task running
  on a connection whose handler has exited.
- `calm`: a worker id is not registered again while a task in flight still names it. Exact for who owns what
  (`Ownership.CalmIsExact`). `Counterexamples.TwoTasksOnOneWorker` gives one worker two tasks, by way of a
  SHUTDOWN that stops a worker whose dispatch is spawned but not started.
- `sound`: no uncaught error ends the dispatch of a current attempt. Exact for every RUNNING task having a
  dispatch (`Stranding.SoundIsExact`). The two ways to break it are runs of their own:
  `Counterexamples.StatuslessReplyStrands` (reading `status` of a TASK_RESULT that has none raises) and
  `Counterexamples.SendDies` (an error in sending that is neither a connection nor a protocol error, such as
  packing the length of a message of 2^32 bytes).
- `safeInstalls`: a connection is not installed over one that a current send is suspended on, nor for a
  stopped worker with a task in flight. This is a sufficient condition. Under it alone no STOPPED worker is
  ever revived (`WorkerLife.RunWorkers`), and together with `sound` what a STOPPED worker owns has not started
  (`Guarantees.StoppedWorkersRunNothing`). The exact conditions are `WorkerLife.StepWorkers` for the first and
  `Stopping.StoppedOwnsIsExact` for the second. `Counterexamples.StoppedWorkerIsRevived` is a run in which a
  STOPPED worker is released and is IDLE again in the same generation.
- `freshAcks`: a handler whose connection has been replaced does not finish acknowledging a REGISTER. Exact
  for a replaced connection staying replaced (`Supersession.StepOutOfDate`).
  `Counterexamples.OlderRegistrationWins` lets a registration of an older generation displace a newer one.
- `honest`: a reply to an attempt echoes its task id and attempt and carries what the payload yields, the
  same on every worker. A worker may also stay silent or disconnect. The jobs ask this with the modelled
  meaning of MAP and REDUCE only; what workers do with other tasks is left open.

Writing a REGISTER or SHUTDOWN acknowledgement is a suspension of its own, a failing draining close is a
step of its own, and a waiter's timeout cancels the futures it shares with other waiters. In none of these
points is the code assumed to be more atomic than it is. Dispatch coroutines are assumed not to be cancelled
from outside; nothing in the master cancels one.

Two things a reader may expect and the code does not promise are stated as they are. A task may end with no
response, for ever (`Endings.SilentForever`), so that `wait_for_tasks` on it never returns
(`Endings.SilentTaskStarvesWaiters`). Apart from a draining close that itself fails before the response is
recorded, that happens exactly when the task is given up in flight at its third attempt
(`Endings.SilentEndings`), in one of two ways: by the heartbeat monitor (`Counterexamples.GivenUpInSilence`), or,
where two tasks share a worker, by the other task's dispatch when it loses that worker
(`Counterexamples.GivenUpByItsNeighbour`). And restarting the backend while calls are outstanding breaks both its
counters and the rule that no waiting call reaches an executor after `stop`
(`Backend.RestartRevivesAWaitingCall`), exactly when an older call is touched (`Backend.TallyIsExact`).

Where code and documentation disagree the code is followed. The comment on `attempt_request_id` says a
worker is in practice never in flight on two attempts of one task at once; the model allows it, and
`Guarantees.ReplyResolvesOneAttempt` is proved with it allowed. The comment on `handle_worker_connection`
calls it a hard guarantee that an old connection cannot change state of a newer generation; the exact
exception is `Supersession.OutOfDateIsInert`. The documentation of `build_reduce_job` promises one task per
key; two keys that render alike (the number 1 and the text "1") make it raise (`MapReduce.KeysCanCollide`).
A job with an unknown map operation does not raise: failed partitions are tolerated, so it returns an empty
dictionary (`MapReduce.UnknownMapReturnsNothing`).

Integers are unbounded, as Python's are. JSON values have no floats, booleans or objects. Task and worker
objects are values in the dictionaries that hold them; an id is never bound to a second object, so the
captured reference of the source is the captured id here.

## Model

| member | source | states |
|---|---|---|
| `RequestIds.AttemptRequestIdInjective` | master/async_server.py:151-176 | two attempts share a request id if and only if they are one attempt of one task, for arbitrary task ids and attempt numbers |
| `RequestIds.DecimalPlaces` | master/async_server.py:176 | numbers are rendered in decimal: leading digits first, then the last digit |
| `RequestIds.ControlIdsNameNoAttempt` | rpc/async_rpc.py:19-20 | no attempt's request id is one a heartbeat, registration or shutdown can carry |
| `Runs.StepInv` | master/async_server.py:349-435 | every step of every coroutine, uncaught errors included, keeps the whole invariant: task states and attempts, failed workers own nothing, captures, unique captures, a dispatch (or the one that died holding it) for all work in flight, pending tables, registry, futures, waiters |
| `Traces.RunInv` | master/async_server.py:246-726 | so it holds after any run under any environment |
| `Evolution.StepMoves` | master/scheduler.py:88-206 | the only things a step does to a task are: submit, assign an attempt more, start, requeue or give up, finish; and the registry only grows |
| `Traces.RunLater` | master/scheduler.py:127-206 | over any run no task disappears, COMPLETED and FAILED are absorbing, attempts never go back, the job of a task is fixed, a recorded response is never replaced |
| `Stranding.SoundIsExact` | master/async_server.py:402-435 | a step leaves no RUNNING task without a dispatch if and only if no uncaught error ends the dispatch of a current attempt |
| `Stranding.RunSound` | master/async_server.py:402-435 | so none is left in any run without such an error |
| `Guarantees.NoWorkOrphaned` | master/async_server.py:363-435 | in every reachable state of a sound run with one id per link, an ASSIGNED task has a dispatch about to start, and a RUNNING task has exactly one dispatch holding its current worker and attempt, whose future is done or pending on a link whose handler has not exited |
| `Guarantees.WorkersOwnWhatTheyShould` | master/scheduler.py:88-206 | in calm runs IDLE and FAILED workers own no task in flight, a BUSY worker owns exactly one, and any other at most one |
| `Ownership.RunOwn` | master/scheduler.py:88-206 | in every calm run owners are distinct, alive, and every BUSY worker is one |
| `Ownership.CalmIsExact` | master/async_server.py:309-310 | a step keeps ownership if and only if it does not register a worker that a task in flight names |
| `Guarantees.StoppedWorkersRunNothing` | master/async_server.py:329-344 | where installs are safe and no current dispatch dies, what a STOPPED worker still owns has not started and there is no connection to start it on |
| `Stopping.StoppedOwnsIsExact` | master/async_server.py:312-345 | a STOPPED worker comes to own started work, or a connection while it owns work, if and only if a step installs a connection for a STOPPED worker that owns a task, or ends the handler of a DRAINING worker with an empty pending table (by a disconnect or an acknowledged SHUTDOWN) while that worker owns a RUNNING task |
| `Stopping.RunStop` | master/async_server.py:246-346 | so it does not in any run with safe installs and no uncaught error in a current dispatch |
| `Stopping.RunSends` | master/async_server.py:246-346 | in any run with safe installs, uncaught errors included, no current send names a STOPPED worker, no STOPPED worker has a connection on which an ASSIGNED task could start, and current sends are on their worker's own connection |
| `Links.StepLinks` | master/async_server.py:309-346 | a step that obeys one id per link keeps every installed link alive and owned by the id it is installed for, and leaves no unsettled send on an exited one |
| `Links.OneIdIsExact` | master/async_server.py:309-318 | and a step keeps that if and only if it obeys the assumption |
| `Links.HangingIsExact` | master/async_server.py:331-346 | a send is left with nobody to settle it if and only if a dispatch starts it on a link whose handler has already exited |
| `Links.RunLinks` | master/async_server.py:246-346 | so it holds after every such run |
| `Guarantees.StaleResumeIsInert` | master/async_server.py:369-435 | a dispatch whose captured worker and attempt no longer match changes, however its send ended (reply, error, or an error nothing catches), nothing but its own entry in its link's table and its own end; every other suspended send keeps its future, and every dispatch carrying out a task goes on doing so |
| `Guarantees.StaleAttemptsCannotInterfere` | master/async_server.py:352-435 | over runs: whatever a stale attempt comes back with, tasks, workers, connections and registry stay, and if its task is RUNNING again another dispatch carries it out before and after, even on the same worker and connection |
| `Guarantees.CurrentResumeNeverRaises` | master/scheduler.py:127-141 | a dispatch that resumes as current finds its task RUNNING, so `complete_task` never raises |
| `Guarantees.ReplyResolvesOneAttempt` | master/async_server.py:207-229 | a message that resolves a send resolves the send of exactly the attempt it names; every other suspended send keeps its future, even one of the same task on the same link |
| `Guarantees.RegistryIsWriteOnce` | master/async_server.py:121-132 | in any run each task is recorded at most once, only when terminal, as COMPLETED exactly for a success, and with the master's own error or a reply to the request of exactly its final attempt; with honest workers the payload names that attempt too |
| `Replies.StepReplies` | master/async_server.py:403-435 | every step keeps each future, closing dispatch, returned response and registry entry in agreement with the task's outcome and, with honest workers, with its payload |
| `Replies.RunReplies` | master/async_server.py:349-435 | so it holds after any run |
| `Endings.EndsInSilence` | master/async_server.py:372-434 | a step ends a task with no response recorded and no close under way or lost if and only if it gives the task up in flight at its last attempt: as the heartbeat monitor, or as another task's dispatch that loses the worker both share |
| `Endings.SilentEndings` | master/async_server.py:372-434 | over any run and environment, a task that was not over ends so if and only if some step of the run gave it up |
| `Endings.TerminalIsAccountedFor` | master/async_server.py:372-434 | in every reachable state a COMPLETED or FAILED task has a recorded response, or a dispatch suspended in or lost in the draining close, if and only if it was not given up in that run |
| `Endings.OneOwnerLeavesTheMonitor` | master/async_server.py:713-718 | in runs that keep one owner only the heartbeat monitor gives tasks up |
| `Endings.CalmKeepsOneOwner` | master/scheduler.py:99-112 | every calm run keeps one owner |
| `Endings.SilentForever` | master/async_server.py:713-718 | a terminal task with no response and no closing dispatch never gets a response, whatever happens afterwards |
| `Endings.SilentTaskStarvesWaiters` | master/async_server.py:661-682 | so no finished wait ever includes it |
| `Endings.NoLostWakeup` | master/async_server.py:129-132 | a waiter whose tasks are all recorded can resume, unless a timeout cancelled a future it shares |
| `Endings.WaitersGetTheirOwnResults` | master/async_server.py:661-682 | for any number of waiters in any run: one that returned got exactly the registry's entry of each id in the order asked; one that waits awaits the registered futures of unrecorded tasks and, without timeouts, can return as soon as its tasks are recorded |
| `Effects.WaitReturnsAtOnce` | master/async_server.py:661-668 | a wait whose ids are all recorded returns at once, each id with its entry in the order asked |
| `Effects.WaitSuspends` | master/async_server.py:663-676 | any other wait suspends with what is recorded and a future of exactly each id that is not |
| `Effects.ResumedWaiterReturns` | master/async_server.py:678-682 | a waiter that resumes with every future resolved returns each id's recorded response, in the order asked |
| `Effects.TimeoutCancelsShared` | master/async_server.py:671-678 | a timeout cancels exactly the open futures its waiter holds, and any other waiter that shares one resumes cancelled |
| `Endings.AttemptsCountAssignments` | master/scheduler.py:99-112 | a task's attempt number is exactly the number of times a run assigned it |
| `Endings.RetriesAreBounded` | master/scheduler.py:180-206 | no run assigns a task more than three times, and a PENDING task has been assigned fewer |
| `WorkerLife.StepWorkers` | master/scheduler.py:161-178 | in any run a worker only moves IDLE to BUSY and back, live to DRAINING, DRAINING to STOPPED, anything to FAILED, and FAILED or STOPPED to IDLE with the next generation, except that a STOPPED one is released within its generation exactly when a reply decides a current attempt of it; so FAILED is left only by registering and DRAINING never becomes IDLE or BUSY |
| `WorkerLife.RunFailedForGood` | master/worker_manager.py:66-76 | over any run whatever, generations never go back and within one a FAILED worker stays FAILED |
| `WorkerLife.NothingRevives` | master/scheduler.py:171-178 | while no current send names a STOPPED worker, the nearly unguarded release never revives one |
| `WorkerLife.RunWorkers` | master/worker_manager.py:66-76 | in any run with safe installs a worker that is DRAINING, STOPPED or FAILED comes back only under a higher generation |
| `Effects.DrainingTakesEffect` | master/rpc_handler.py:68-69 | a known worker that is asked to drain is REGISTERED, IDLE or BUSY no longer, one that was DRAINING, STOPPED or FAILED is as it was, and so is every other worker |
| `Effects.ShutdownDrains` | master/rpc_handler.py:49-71 | a SHUTDOWN that is handled does that to the worker it names, whoever sends it, and is acknowledged; for an unknown worker it changes nothing |
| `Effects.AcknowledgedShutdown` | master/async_server.py:319-345 | once it is acknowledged on the worker's own connection: with no send pending a DRAINING worker is STOPPED and the connection removed, otherwise reading goes on and nothing else changes |
| `Effects.ShutdownStops` | master/async_server.py:302-345 | over both steps: a SHUTDOWN of a live worker on its own connection with nothing pending leaves it STOPPED and out of the connections; no other worker, connection, task or dispatch changes |
| `Effects.RegistrationInstalls` | master/async_server.py:309-318 | over both steps: a REGISTER with non-empty names, a port from 1 to 65535 and an id that is new, FAILED or STOPPED makes the worker IDLE at that address one generation up and installs the connection; any other changes nothing |
| `Effects.LosingWorkers` | master/scheduler.py:180-206 | losing workers marks exactly those FAILED and takes exactly their ASSIGNED and RUNNING tasks: PENDING again below the third attempt, FAILED at it, with attempt and payload kept |
| `Effects.ExitWakesSends` | master/async_server.py:231-234 | a handler that ends wakes exactly the sends still unsettled on its connection with an error; a reply already there is kept |
| `Effects.CurrentReplyDecides` | master/async_server.py:416-431 | a reply to a current attempt makes its task COMPLETED for a TASK_RESULT that says success and FAILED for any other message, hands its worker back as IDLE unless it is DRAINING, and changes no other task or worker |
| `Supersession.OutOfDateIsInert` | master/async_server.py:302-330 | a step on a replaced connection, wherever its handler is suspended, changes nothing but that connection's own entry if and only if it does not finish acknowledging a REGISTER for an id it is not installed for |
| `Supersession.OutOfDateLeaves` | master/async_server.py:302-346 | a message or a disconnect on it ends its handler and fails its own sends, nothing else |
| `Supersession.StepOutOfDate` | master/async_server.py:302-346 | it stays replaced, or its handler ends, exactly unless that handler finishes acknowledging a REGISTER |
| `Supersession.RunOutOfDate` | master/async_server.py:302-346 | so over any run without such an acknowledgement a replaced connection stays replaced until its handler is gone |
| `Supersession.InstallSupersedes` | master/async_server.py:312-318 | installing a newer connection for a worker id puts the older one out of date, wherever its handler is suspended |
| `Counterexamples.TwoTasksOnOneWorker` | master/async_server.py:329-345 | an unconstrained run in which one worker id owns two tasks in flight |
| `Counterexamples.RunningOnADeadLink` | master/async_server.py:309-346 | an unconstrained run that leaves a RUNNING task's send unsettled on a connection whose handler has exited |
| `Counterexamples.SendDies` | master/async_server.py:402-403 | a run in which a send raises what nothing catches and leaves its task RUNNING with no dispatch |
| `Counterexamples.StatuslessReplyStrands` | master/async_server.py:424-428 | a run in which a TASK_RESULT without a status does the same |
| `Counterexamples.OlderRegistrationWins` | master/async_server.py:309-318 | a run in which a connection replaced while it acknowledges an older registration installs itself over the newer one, in a calm step with one id per link |
| `Counterexamples.StoppedWorkerIsRevived` | master/scheduler.py:171-178 | a run in which a STOPPED worker without a connection is released and is IDLE in the same generation |
| `Counterexamples.GivenUpInSilence` | master/scheduler.py:200-204 | a run in which the monitor gives a task up at its third attempt and no response is or will be recorded |
| `Counterexamples.GivenUpByItsNeighbour` | master/async_server.py:390-399 | a run in which one task is given up at its third attempt by the dispatch of another that loses the worker both share |
| `Drain.DrainIsOrdered` | master/async_server.py:509-523 | in the list a drain returns, with any other work interleaved, the responses of one task are of strictly increasing attempts, all made after the drain began |
| `Drain.DrainStops` | master/async_server.py:509-526 | a drain makes no more assigning rounds than the tasks it meets have attempts left, so the unscoped drain ends |
| `Drain.DrainEndsExhausted` | master/async_server.py:513-526 | an unscoped drain can make no further round if and only if no task is PENDING or no worker is IDLE |
| `Drain.BatchTakes` | master/async_server.py:514-519 | assigning a batch takes pending tasks, each once and one attempt up, and spawns their dispatches in order |
| `EndToEnd.LastWinsIsLatest` | jobs/map.py:100-105 | with honest workers the last-wins index over a drain's responses picks, for each task, the response of the latest attempt that drain dispatched |
| `EndToEnd.WaitAnswers` | master/async_server.py:644-682 | with honest workers a finished wait's responses answer their own tasks only, and a task counts as won exactly when it is COMPLETED |
| `EndToEnd.SubmissionIsARun` | jobs/map.py:72-82 | submitting a job's accepted tasks one after another is a run of the master, to the state with those tasks added |
| `EndToEnd.ServedMapReduce` | jobs/map_reduce.py:67-78 | a job that submits its MAP tasks in any state of any honest run, waits while the master fails, retries, reconnects and does other work, then submits its REDUCE tasks and waits again, returns if and only if its MAP tasks were accepted, what they emitted could be shuffled, its REDUCE tasks were accepted and all completed, and then returns the sequential result on the chunks whose MAP task completed; that the tasks it reads are the ones it submitted is proved, not assumed |
| `EndToEnd.ServedOnAllData` | jobs/map_reduce.py:67-78 | with a fair partition and every MAP task COMPLETED the result is the sequential one on all of the job's data |
| `EndToEnd.ServedWordCount` | jobs/map_reduce.py:67-78 | such a job of WORD_COUNT and SUM, with every MAP task COMPLETED, returns how often each text occurs in its data |
| `EndToEnd.DrainedMapReduce` | jobs/map_reduce.py:67-78 | the same for a job that submits its tasks and drains them itself: it returns if and only if nothing goes wrong, and then the sequential result on the chunks whose latest dispatched attempt succeeded |
| `Registry.WorkerManager.Register` | master/worker_manager.py:40-87 | a registration is accepted if and only if it is valid and the id is new, FAILED or STOPPED; the worker is then IDLE at the given host and port; a replaced id keeps its place and gains a generation; a rejected one changes nothing and says why |
| `Registry.WorkerManager.UpdateStatus` | master/worker_manager.py:95-103 | a known worker changes its status and nothing else; an unknown one is reported |
| `Registry.WorkerManager.RecordHeartbeat` | master/worker_manager.py:105-110 | a known worker's heartbeat is refreshed; an unknown one is reported |
| `Registry.WorkerManager.GetStaleWorkers` | master/worker_manager.py:112-131 | marks FAILED and returns, in registration order, exactly the workers that are not STOPPED and were last heard of more than the timeout ago |
| `Registry.OverdueInOrder` | master/worker_manager.py:112-131 | the stale workers are listed in registration order |
| `Registry.WorkerManager.FirstIdle` | master/scheduler.py:99-102 | the first IDLE worker in registration order, or none exactly when none is IDLE |
| `Registry.WorkerManager.Drain` | master/rpc_handler.py:49-71 | a known worker is REGISTERED, IDLE or BUSY no longer; only a live one changes, to DRAINING, so a repeated SHUTDOWN changes nothing; no other worker changes; an unknown one is reported |
| `Scheduling.Scheduler.Submit` | master/scheduler.py:28-53 | a task is accepted, as PENDING at attempt 0 and last in order, if and only if its id and type are non-empty and the id is new |
| `Scheduling.Scheduler.Assign` | master/scheduler.py:88-114 | the task goes to the first IDLE worker with one attempt more; it fails, changing nothing, exactly when the task is unknown, not PENDING, or no worker is IDLE |
| `Scheduling.Scheduler.AssignNext` | master/scheduler.py:61-86 | assigns the oldest PENDING task of the scope to the first IDLE worker; none exactly when there is no such task or no such worker |
| `Scheduling.Scheduler.Start` | master/scheduler.py:116-125 | only an ASSIGNED task starts |
| `Scheduling.Scheduler.ReleaseWorker` | master/scheduler.py:161-178 | every worker but a DRAINING one is handed back |
| `Scheduling.Scheduler.Finish` | master/scheduler.py:127-159 | completing demands a task in flight, failing does not; both release the owner |
| `Scheduling.Scheduler.RequeueTasksForWorker` | master/scheduler.py:180-206 | the loop does to the whole table at once what requeueing says, and returns exactly the tasks that will be tried again, in submission order |
| `Scheduling.RetriedExactly` | master/scheduler.py:200-204 | those are the worker's tasks in flight with an attempt left |
| `Scheduling.RetriedInOrder` | master/scheduler.py:180-206 | they are listed in submission order |
| `Server.WorkerLink.Resolve` | master/async_server.py:223-229 | settles the send the id names if and only if one is unsettled |
| `Server.WorkerLink.FailAll` | master/async_server.py:231-234 | the loop fails every unsettled send and no other |
| `Server.Master.RecordResponse` | master/async_server.py:121-132 | is the transition system's recording |
| `Server.Master.LoseOwner` | master/async_server.py:385-388 | fails the worker and requeues its tasks as one step |
| `Server.Master.StartDispatch` | master/async_server.py:363-401 | is the step that starts a dispatch: raise, send, or give the worker up |
| `Server.Master.ResumeWithError` | master/async_server.py:402-414 | is the step that resumes a dispatch with an error |
| `Server.Master.ResumeWithUncaught` | master/async_server.py:402-403 | is the step of a send that raises what nothing catches |
| `Server.Master.FinishDispatch` | master/async_server.py:416-435 | is the step that completes or fails a current task, then suspends in the draining close or records |
| `Server.Master.ResumeWithReply` | master/async_server.py:416-435 | is the step that resumes a dispatch with a reply |
| `Server.Master.CloseDone` | master/async_server.py:430-435 | is the step that ends a draining close |
| `Server.Master.Unlink` | master/async_server.py:332-344 | removes the connection only if it is the current one, and stops its worker only if that drained with nothing in flight |
| `Server.Master.HandlerExits` | master/async_server.py:331-346 | is the handler's `finally` block |
| `Server.Master.HandleRegister` | master/rpc_handler.py:15-34 | is the registration step |
| `Server.Master.HandleShutdown` | master/rpc_handler.py:49-71 | is the shutdown step; a known worker is REGISTERED, IDLE or BUSY no longer and the acknowledgement is under way |
| `Server.Master.Handle` | master/rpc_handler.py:86-90 | is the request step: registration, shutdown, or a heartbeat; it refreshes exactly the beats of accepted registrations and of known workers' heartbeats |
| `Server.Master.Receive` | master/async_server.py:302-310 | is the step of the read loop: leave if replaced, resolve a send, or handle a request; only an accepted registration or a known worker's heartbeat refreshes a beat |
| `Server.HeardOfIsNotOverdue` | master/rpc_handler.py:36-46 | a known worker's heartbeat, or an accepted registration, keeps that worker from being overdue until the timeout has passed; whether any other worker is does not change |
| `Server.Master.FinishAck` | master/async_server.py:312-330 | is the step after an acknowledgement: install the connection, leave, or read on |
| `Server.Master.AssignAll` | master/async_server.py:587-593 | the assigning loop ends with no PENDING task in scope or no IDLE worker, after assigning its batch in turn |
| `Server.AssignedIsABatch` | master/async_server.py:514-519 | and that batch is a run of assignment steps, as a drain's round needs |
| `Server.Master.MonitorTick` | master/async_server.py:713-721 | the sweep over the stale workers, one requeue after another, is the one heartbeat-timeout step for exactly the workers last heard of too long ago |
| `Server.Master.LookUp` | master/async_server.py:663-668 | splits the ids into recorded and missing, in order |
| `Server.Master.OpenFutures` | master/async_server.py:671-676 | gives each missing id an open future, the registered one if that is still open |
| `Server.Master.WaitForTasks` | master/async_server.py:644-676 | is the step that suspends a waiter or returns at once |
| `Server.Master.ResumeWaiter` | master/async_server.py:678-682 | is the step that returns the results in the order asked |
| `Execution.ApplyToEach` | worker/executor.py:178-187 | on success a list as long as the data whose every item is what the function makes of the element at its place; on failure the failure of an element before which every element succeeds |
| `Execution.Mapped` | worker/executor.py:178-187 | as many results as elements, each what the function makes of the element at its place |
| `Execution.MapAll` | worker/executor.py:120-175 | mapping succeeds if and only if every element does, with the same account of its list and of its failure |
| `Execution.MapAllParts` | worker/executor.py:178-187 | mapping two parts is mapping the whole |
| `Execution.BuiltInMapsAre` | worker/executor.py:16-29 | SQUARE, DOUBLE, INCREMENT and NEGATE give the square, the double, the successor and the negation of a number and fail on anything else; WORD_COUNT pairs a non-empty text with one and fails on anything else; registered functions do not change that |
| `Execution.RegisteredMapsAre` | worker/executor.py:168-187 | under any other name the registered function is applied and what it raises is reported as its own error; an unknown name fails every element |
| `Execution.Extreme` | worker/executor.py:31-36 | MAX and MIN return an element that no other exceeds or undercuts |
| `Execution.SumParts` | worker/executor.py:32 | the sum of two lists is the sum of their sums |
| `Execution.BuiltInReducesAre` | worker/executor.py:200-233 | for any values: on non-empty numbers MAX is one of them that none exceeds, MIN one that none undercuts, COUNT their number, SUM their total; otherwise each is an error; registered functions do not change that |
| `Execution.SumReduces` | worker/executor.py:200-233 | summing the sums of two groups is summing all their values |
| `Partitioning.Partition` | jobs/map.py:19-39 | exactly min(n, len) non-empty chunks whose concatenation is the input, sizes non-increasing and at most one apart; an error exactly for n below 1 |
| `Partitioning.FairIsUnique` | jobs/map.py:19-39 | these properties determine the partition |
| `Jobs.MapTaskIdsDistinct` | jobs/map.py:74 | the map task ids of a job are distinct |
| `Jobs.ReduceTaskIdRenders` | jobs/reduce.py:85 | two keys share a reduce task id if and only if they render alike |
| `Jobs.RenderedAlike` | jobs/reduce.py:85 | two different keys render alike if and only if one is a text that spells the other, a number or null |
| `Jobs.SubmitAll` | jobs/map.py:72-82 | submitting one task after another succeeds if and only if the ids are new and distinct, and then adds exactly those tasks |
| `Jobs.AddFirstGives` | jobs/map.py:72-82 | submitting gives each id its own payload as a PENDING task at attempt 0 and leaves every other id as it was |
| `Jobs.IndexResponses` | jobs/map.py:87-105 | the loop builds the last-wins index |
| `Jobs.IndexIsLast` | jobs/map.py:100-105 | the index names exactly the tasks with a response and holds the last one of each |
| `Jobs.CollectMapResults` | jobs/map.py:108-133 | everything in task order, or an error if and only if some task has no successful, iterable response |
| `Jobs.BuildIntermediateResults` | jobs/map.py:136-196 | one result per partition in order, with data exactly when the last response succeeded |
| `Jobs.UnpackIs` | jobs/shuffle.py:35 | a value unpacks to a key and a value if and only if it is the two-item list of them or the text of the two characters, and the key is no list |
| `Jobs.KeysOfIs` | jobs/shuffle.py:30-36 | the grouped keys are exactly the keys that occur, each once |
| `Jobs.KeysOfInOrder` | jobs/shuffle.py:28-36 | keys are listed in the order in which they first occur |
| `Jobs.ValuesOfParts` | jobs/shuffle.py:34-36 | a key's values in two stretches of pairs are its values in the first, then those in the second |
| `Jobs.ValuesOfOne` | jobs/shuffle.py:34-36 | one pair gives its key its value and any other key nothing |
| `Jobs.ValuesOfIs` | jobs/shuffle.py:34-36 | a key's values are those at exactly the positions where it occurs, in increasing order |
| `Jobs.GroupByAppend` | jobs/shuffle.py:36 | appending under a key is grouping with one more pair: the key's values in order, everything else unchanged |
| `Jobs.AddPairs` | jobs/shuffle.py:34-36 | the inner loop groups one partition's pairs, or fails exactly when one is no pair |
| `Jobs.AllPairsParts` | jobs/shuffle.py:30-36 | the pairs of two stretches of partitions are those of the first, then those of the second, or an error if either has one |
| `Jobs.AllPairsOfOne` | jobs/shuffle.py:31-35 | a failed partition or one with null data contributes nothing, any other the pairs its items unpack to, or an error |
| `Jobs.Shuffle` | jobs/shuffle.py:13-38 | each key gets its values in partition order and then in order within the partition; failed partitions contribute nothing; an error exactly when something is no pair |
| `Jobs.CollectReduceResults` | jobs/reduce.py:97-132 | every key's result, or an error if and only if some key has no success; never some of the keys |
| `MapReduce.BuildMapJob` | jobs/map.py:42-84 | submits one MAP task per chunk of the fair partition: chunk i's task carries the job's operation and exactly that chunk, PENDING at attempt 0, and every other task is as before; an error exactly for a bad count or a taken id |
| `MapReduce.BuildReduceJob` | jobs/reduce.py:56-94 | submits one REDUCE task per key: it carries the job's operation, that key and exactly that key's values, and every other task is as before; rejected exactly when two keys render alike or an id is taken |
| `MapReduce.StartReduce` | jobs/map_reduce.py:70-75 | what happens between the two dispatches, with its exact condition |
| `MapReduce.RunJob` | jobs/map_reduce.py:67-78 | running the phases one after the other, with any other work on the scheduler in between, gives exactly the modelled result of the job |
| `MapReduce.ReduceGrouped` | jobs/reduce.py:34-53 | the local reduction, for built-in operations only, with its exact error condition; on shuffled pairs it returns the sequential reduction of those pairs, so local and dispatched reduction cannot differ |
| `MapReduce.SurvivorsArePaired` | jobs/map_reduce.py:67-72 | what leaves the shuffle is what mapping the surviving input sequentially gives, for any order and number of responses |
| `MapReduce.MapReduceIsSequential` | jobs/map_reduce.py:67-78 | a job returns if and only if nothing goes wrong, and then returns the sequential result on the input whose map tasks succeeded: never part of a dictionary; responses need to answer only tasks that were submitted |
| `MapReduce.MapReduceSucceeds` | jobs/map_reduce.py:67-78 | when every final attempt succeeded, with string keys, it returns the sequential result on all of the data, for every partition count |
| `MapReduce.WordsAreCounted` | worker/executor.py:23-36 | WORD_COUNT with SUM over any non-empty texts: the sequential result is each text with the number of times it occurs |
| `MapReduce.UnknownMapReturnsNothing` | jobs/map_reduce.py:67-78 | a job with an unknown map operation returns an empty dictionary |
| `MapReduce.StringKeysRenderApart` | jobs/reduce.py:84-92 | string keys never collide |
| `MapReduce.KeysCanCollide` | jobs/reduce.py:84-92 | the number 1 and the text "1" do |
| `Backend.TallyIsExact` | worker/backend.py:414-505 | a step keeps the counters a true tally if and only if it touches no call from before the last start |
| `Backend.StepPermits` | worker/backend.py:419-441 | free permits and holders of every semaphore always add up to the limit, restarts included |
| `Backend.CountersAreConserved` | worker/backend.py:414-505 | in every run without a restart over outstanding calls: submitted = waiting + running + completed + failed + backend errors + cancelled, and running <= permit holders <= the limit |
| `Backend.WhoIsAdmitted` | worker/backend.py:414-441 | a call is refused uncounted exactly when there is no pool; a counted one runs at once exactly when nothing limits it or a permit is free, and waits otherwise |
| `Backend.GrantAfterStopIsABackendError` | worker/backend.py:442-530 | a waiting call that gets its permit runs in the pool exactly when there is one; after `stop` it counts as a backend error, not as failed or completed, and its permit is free again |
| `Backend.NothingEntersAfterStop` | worker/backend.py:516-530 | in any run that does not restart over outstanding calls, a call that is not in a pool when the backend stops never gets into one |
| `Backend.RestartRevivesAWaitingCall` | worker/backend.py:355-388 | a run that restarts over a waiting call lets it into the new pool, running but never submitted |
| `Backend.MultiprocessingBackend.StartBackend` | worker/backend.py:355-377 | is the start step: new pool, new semaphore, counters reset |
| `Backend.MultiprocessingBackend.StopBackend` | worker/backend.py:384-388 | is the stop step |
| `Backend.MultiprocessingBackend.ExecuteCall` | worker/backend.py:414-441 | is the step of a new call: rejected uncounted, queued, or sent to the pool |
| `Backend.MultiprocessingBackend.ResumeCall` | worker/backend.py:438-530 | is the step of a call that gets its permit: it checks the pool again |
| `Backend.MultiprocessingBackend.Leave` | worker/backend.py:473-505 | is the step of a call that is over: counted once, permit released |
| `Framing.Connection.SendBytes` | rpc/connection.py:15-17 | writes one frame, or fails exactly from 2^32 bytes on |
| `Framing.Connection.RecvExact` | rpc/connection.py:24-33 | exactly the bytes asked for in any chunking, or an error if and only if the stream ends first |
| `Framing.Connection.RecvBytes` | rpc/connection.py:19-22 | the next message if and only if the stream starts with a whole frame |
| `Framing.Connection.RecvAll` | rpc/connection.py:19-33 | repeated receiving returns the complete messages of the stream, in any chunking |
| `Framing.RoundTrip` | rpc/connection.py:15-33 | any list of messages comes out as it went in, whatever follows |
| `Framing.FirstByteIsMostSignificant` | rpc/connection.py:15-22 | the length prefix has its most significant byte first |
| `Framing.StreamIsItsMessages` | rpc/connection.py:19-33 | conversely a stream is the frames of the messages read from it and a rest with no whole frame |
| `Framing.TruncatedStream` | rpc/connection.py:24-33 | cut anywhere, the stream gives exactly the messages complete in it, and what is left starts with no whole frame, so receiving once more is an error |

## Left out

- Sockets, asyncio streams, event-loop identity, `start_master`/`stop_master`, `stop_dispatcher` and signals: connection loss and message arrival are steps any run may take at any time.
- The threaded `master/server.py` and `worker/worker.py`: the same protocol in an older form, with easier interleavings.
- `worker/async_worker.py`: workers are the environment.
- `worker/serialization.py` and JSON encoding: a callable is a total function that may fail, and results are values; no claim is made that a result is valid JSON.
- Clearing the scheduler, the worker registry or the response registry, and removing a worker: these reset the master, and the runs considered do none of them.
- Wall-clock liveness: the code promises none without workers; bounded retries and no orphaned work take its place.
- Command line, configuration, logging, demonstrations, benchmarks and packaging: no hard properties.
- Execution.Execute: models only MAP and REDUCE tasks, because the jobs need no other; ADD, MULTIPLY, EXECUTE and registered task types are left out.
- Jobs.BuildIntermediateResults: does not model the provenance fields (worker id, attempt, error message) of a partition's result, because nothing later reads them.
- Backend.CountersAreConserved: does not model the two time totals, because real time is left out; which waiting call gets a free permit is left open.
- Link identity: connections are numbered and compared by number, where the source compares link objects.
