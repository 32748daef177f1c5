# Monoceros: the supervision protocol, verified

Monoceros keeps copies of a server process alive. Each *pool* has a number of workers and
sometimes a proxy in front of them. Every process reports what happens to it as an event on one
unbuffered channel, and a single supervisor loop receives these events: it restarts processes,
counts the deaths it does not restart, stops the proxy, and after a signal drains all pools until
every process has been counted. Limits and signal timers act on processes through the same channel.

## What is modelled

**The protocol.** A slot of a pool holds every incarnation of the process that ran in it
(`Worker.Slot`); the last one is the instance stored in the pool's map. Events name a slot and no
incarnation, so an interrupt, a kill or an exceeded limit sent for an old incarnation acts on the
current one. `Supervisor.Step` is one action of the supervisor or of the world on the whole state,
and a run is any sequence of actions; an action that is not enabled changes nothing, so the
theorems quantify over all sequences. `Invariant` shows what every action keeps, `Safety` what this
means for runs, `Events` says what every action does to a slot and where every event goes,
`Shutdown` bounds the shutdown, `Progress` and `ProxyRestart` settle when it can
hang, and `CounterRefinement` relates the counters to a machine that knows only restarts, deaths
and the shutdown.

**The objects.** `WorkerPools.WorkerPool`, `SupervisorLoop.SupervisorObject`,
`Metrics.StateGauges`, `TimeLimiter.Limiter` and `LogStreamer.LogSink` are the source's objects with
their loops and updates in place. Their methods are proved against the operations on values;
`SupervisorObject.Run` executes both event loops on an arbitrary schedule and is proved to reach
the state the transition system reaches. `Creation` builds the objects from a configuration.

**Around them.** `LogStreamer` merges stdout and stderr, `TimeLimiter` is the compare-and-swap
protocol of the lifespan limiter, `Health` the float32 percentage, `Naming` names and ports, and
`MainCore` the join of the admin interface and the supervisor.

**Steps are atomic where nothing is lost.** A stop reads the status of a process, cancels its
context and signals it; whatever happens to the process in between, the outcome is that of the
whole stop before or after it (`Worker.StopIsAtomic`). The walks over all slots at start and at
shutdown are single steps too: however the world moves slots during a walk, the outcome is that of
one step with some of the moves before it and the others after it (`Walks.WalkIsAtomic`, for slots
under any keys, so also for the slots of all pools together). A ProcessEnd counts as received when
the wait for the log streams that follows its receipt ends; the supervisor does nothing in between.
The end of that wait is the step `StreamsClose`, with which `LogStreamer.LogSink.StreamLogs` ends.

**Kills without a PID.** `syscall.Kill` with PID 0 signals the process group of the caller. Such a
kill is the step `Supervisor.HitsItself`; it is counted in `ownKills` and changes no managed
process. What is proved about every run covers the runs that go on after it, which monoceros does
not survive; what is proved about the end of the shutdown says where such a kill is left out.

**Assumptions about the outside.** Each started command delivers exactly one final status, and the
worker's status is Terminated by then. The status channel is never closed. The stdout and stderr
channels of a process close after it has ended. A started command gets a PID or fails to start. A
process that has been sent SIGKILL ends. Writing the proxy's configuration, starting a process,
decoding a line and every clock are inputs.

## What the code does that its comments and documents do not say

- `internal/supervisor/supervisor.go:18-21` and `docs/shutdown.md:19` say that the proxy is stopped
  last. Line 202 of the former stops it at the first counted death. A stop that reaches a living
  proxy finds every worker dead, in every run, exactly when the pool has one worker
  (`ProxyRestart.ProxyStopsLastIff`). The first counted death can also be the proxy's own; the stop
  is then spent on a dead proxy while all workers live (`Safety.ProxyDies`).
- That one stop may be spent while the supervisor still serves, and the proxy may be restarted
  before the cancelled context is noticed. Nothing stops the new proxy. `Progress.ShutdownHangsIff`
  gives the exact condition, and `ProxyRestart.RestartedProxyHangs` shows that every proxied
  configuration has a run that meets it.
- A kill meant for an earlier incarnation can be received when the current one has no PID. It then
  goes to the process group of monoceros itself. Every proxied configuration has a run that comes to
  this (`ProxyRestart.LateKillReached`); `Progress.LateKill` says exactly when it happens.
- A log line that is the JSON literal `null` crashes the program
  (`LogStreamer.LogSink.LogJson`).
- A pool exactly at its health threshold is reported unhealthy if and only if the threshold is 53
  or 59 percent (`Health.ExactThreshold`). Up to 104476 running workers this is all that the rounding
  does (`Health.Threshold`); with 104477 a pool below its threshold can be reported healthy
  (`Health.SafeRangeIsExact`). `Health.PercentageReaches` is exact for every size.
- A jitter that leaves less than a millisecond to draw from makes preparing the pool panic
  (`TimeLimiter.NewTimeout`, `Creation.CreateAndPreparePools`).

## Model

| member | source | states |
|---|---|---|
| `Worker.SoundHappen` | internal/worker/worker_real.go:146-212 | Whatever a process, its timers, limiter or streams do keeps the slot sound: no owed end is lost and no dead slot comes back. |
| `Worker.LineInOrder` | internal/worker/worker_real.go:121-144 | A log line can only come from the current incarnation, because earlier ones were drained. |
| `Worker.SoundTerminate` | internal/worker/worker_real.go:179-212 | A stop request leaves a slot either dead or owed its end, through a timer or through an event that asks again, and cancels the instance's context. |
| `Worker.StopIsAtomic` | internal/worker/worker_real.go:179-212 | Whatever happens to the process between the status read, the cancel and the signal, the outcome is that of the stop before or after it. |
| `Worker.SoundInterruptAgain` | internal/supervisor/supervisor.go:218-224 | Taking a request to interrupt off the channel and acting on it keeps the process and loses no obligation. |
| `Worker.SoundKill` | internal/supervisor/supervisor.go:226-232 | Taking a request to kill off the channel keeps the process of the slot and loses no obligation; whom the kill hits is in `Progress.LateKill`. |
| `Worker.OneEnd` | internal/worker/worker_real.go:146-161 | In a sound slot an unreceived ProcessEnd belongs to the instance in the pool's map, which is Terminated. |
| `Worker.SoundReap` | internal/worker/worker_real.go:214-226 | Once the wait for the log streams returns, the received end leaves the slot sound and dead. |
| `Worker.SoundRelaunch` | internal/worker/worker_pool.go:284-300 | Replacing a dead slot's instance and running it keeps soundness and the order of the log. |
| `Worker.LogOrder` | internal/worker/worker_pool.go:332-334 | A line of an incarnation stands between its own start and the start of the next one. |
| `Walks.WalkIsAtomic` | internal/worker/worker_pool.go:239-265 | A walk over the slots during which the world moves them amounts to the moves of slots not yet visited, the whole walk at once, and the other moves. |
| `Walks.PoolWalks` | internal/worker/worker_pool.go:239-265 | For running all and interrupting all slots of a pool, that one step is the pool's operation on values. |
| `Walks.MoveIsWorld` | internal/worker/worker_pool.go:239-265 | A move during a walk is what the world does to the pool in the transition system. |
| `Pool.SlotRecv` | internal/supervisor/supervisor.go:210-232 | Each of the three requests, on whatever incarnation it meets, keeps the slot's soundness, death, restart count and obligation. |
| `Invariant.LaunchStep` | internal/worker/worker_pool.go:257-265 | Running all instances makes the running gauge equal the counted processes. |
| `Invariant.DrainStep` | internal/worker/worker_pool.go:239-255 | Interrupting all workers keeps the books and leaves every worker dead or owed its end. |
| `Invariant.RestartPool` | internal/worker/worker_pool.go:267-301 | A restart is refused exactly for a worker at its limit or a proxy that cannot be prepared, and changes nothing then; otherwise the dead incarnation is kept as past, the budget holds and one counter moves by one. |
| `Invariant.RestartStep` | internal/supervisor/supervisor.go:89-103 | An end answered by a restart leaves counters, gauges and dead slots in agreement and unchanged. |
| `Invariant.DeathStep` | internal/supervisor/supervisor.go:199-208 | A counted death lowers the running count by one, keeps the books, and brings the one stop of the proxy when it is the first. |
| `Invariant.ServingEnd` | internal/supervisor/supervisor.go:234-261 | In the first loop an end is restarted or counted, and only a proxy can fail to be prepared; there is no panic. |
| `Invariant.StoppingEnd` | internal/supervisor/supervisor.go:131-139 | In the second loop every received end is counted. |
| `Invariant.AllDead` | internal/supervisor/supervisor.go:148-160 | When the count is complete every slot is dead and the sanity check finds nothing running. |
| `Pool.CountsAreSets` | internal/worker/worker_pool.go:227-237 | What is counted as running or dead are exactly the slots whose process runs, or has ended and been received. |
| `Invariant.InvStep` | internal/supervisor/supervisor.go:72-146 | Every action of the supervisor and of the world keeps the invariant. |
| `Invariant.InvRun` | internal/supervisor/supervisor.go:72-161 | The invariant holds after every run. |
| `Safety.OneEndPerIncarnation` | internal/supervisor/supervisor.go:243-247 | In every run an unreceived end belongs to the current, terminated incarnation, so the panic is unreachable. |
| `Safety.ExactDeathCount` | internal/supervisor/supervisor.go:124-158 | In every run the death counter is the number of dead slots and what the pools have lost, never passes the total, and a return is without error with all slots dead. |
| `Safety.GaugeConservation` | metrics/prometheus.go:60-77 | In every run the gauges are the counters, the running one is the pool's size less its dead slots, they stay non-negative, and end at zero running. |
| `Safety.ProxyStopOnce` | internal/supervisor/supervisor.go:199-208 | In every run the proxy was stopped once, at the first counted death, or not at all. |
| `Safety.ProxyDies` | internal/supervisor/supervisor.go:89-96 | In a three-step run the first counted death is the proxy's own: the stop is spent on a dead proxy while every worker lives. |
| `Safety.RestartBudget` | internal/worker/worker_pool.go:272-301 | In every run restart counts are incarnations within the limit, the counter is their sum, and launches are bounded and equal workers plus counted restarts. |
| `Safety.NoRestartAfterDrain` | internal/worker/worker_pool.go:268-270 | In every run a pool drains exactly while the supervisor terminates; each end received then is one death and launches nothing. |
| `Safety.WorkerDeathCancels` | internal/supervisor/supervisor.go:91-94 | A dead worker slot implies a cancelled context. |
| `Safety.LogOrderAcrossRestarts` | internal/supervisor/supervisor.go:243-255 | In every run the lines of an incarnation precede the start of the next. |
| `Safety.LimitIsEnforced` | internal/supervisor/supervisor.go:104-105 | A received limit event dooms the current process while serving and does nothing while stopping. |
| `Events.WorldCan` | internal/worker/worker_real.go:121-177 | When a process can get its PID, fail, end, write a line or close its streams, and when a timer or limiter can fire or stop. |
| `Events.EventCan` | internal/supervisor/supervisor.go:85-146 | While the supervisor serves or stops an event can be received exactly when it is outstanding, and an end exactly when the current process has exited and its streamed log is drained. |
| `Events.WorldIsHeard` | internal/worker/worker_real.go:128-143 | In every state of every run a written line is logged as it is, a fired limiter sends one event that can be received, a fired timer one unless its process has ended; nothing else is logged or sent and no other slot is touched. |
| `Events.StepOutcome` | internal/supervisor/supervisor.go:85-146 | What any action makes of a slot, field by field: phase, flags, timers and limiter of every incarnation, outstanding events, log. |
| `Events.EventsConserved` | internal/worker/worker_real.go:179-212 | Over any run outstanding events are those sent less those received, armed timers are stops of running processes less firings, and the log is what was started and written. |
| `Events.EndIsDecided` | internal/supervisor/supervisor.go:89-103 | In every run an end received while serving is answered by a restart unless a worker is at its limit or the proxy cannot be prepared; otherwise it is counted, and only a worker's death while serving cancels the context. |
| `Events.ContextIsKept` | internal/supervisor/supervisor.go:92-94 | No other action but an outside cancel cancels the context. |
| `Events.KillsCounted` | internal/worker/worker_pool.go:345-350 | Over any run the SIGKILL counter is the number of kills received. |
| `Shutdown.StepWeighs` | internal/supervisor/supervisor.go:131-146 | No step of the shutdown raises the weight of the state, and every productive one lowers it, even one that interrupts the proxy. |
| `Shutdown.WhatIsProductive` | internal/supervisor/supervisor.go:131-146 | Every possible step of the shutdown is productive but for lines, cancels and requests sent back for want of a PID. |
| `Shutdown.DrainBound` | internal/supervisor/supervisor.go:131-146 | From any state of the shutdown no run takes more productive steps than that state's weight. |
| `Progress.OwedMoves` | internal/worker/worker_real.go:179-212 | What a slot is owed is discharged by a definite step that somebody is bound to take. |
| `Progress.WhatIsForced` | internal/worker/worker_real.go:146-212 | Every productive step is bound to happen but for a process that fails to start or ends without having been killed. |
| `Progress.InterruptedProxyOk` | internal/worker/worker_real.go:183-211 | An interrupted incarnation of a proxy is no obstacle to the shutdown. |
| `Progress.SomethingForced` | internal/supervisor/supervisor.go:131-132 | In the second loop, unless a proxy is in the way, the receive has a step behind it that is bound to happen. |
| `Progress.ShutdownProgress` | internal/supervisor/supervisor.go:118-160 | From a shutdown state without such a proxy every run has returned nil or has a step that is bound to happen. |
| `Progress.ShutdownObligations` | internal/supervisor/supervisor.go:118-146 | In every run each worker slot is dead or owed its end once the shutdown has begun. |
| `Progress.ShutdownCompletes` | internal/supervisor/supervisor.go:111-160 | If no proxy is in the way when the context is noticed, the shutdown takes boundedly many productive steps and can only stop with nil and everything dead. |
| `Progress.LateKill` | internal/worker/worker_real.go:244-248 | In every run a received kill marks the current process exactly when that runs, and hits the program itself exactly when the current incarnation has no PID, yet or for good; then it was meant for an earlier one. |
| `Progress.LostKillStays` | internal/supervisor/supervisor.go:131-146 | A kill for a process that could not be started stays outstanding in the shutdown until it hits the program itself. |
| `Progress.AbandonedIff` | internal/supervisor/supervisor.go:189-208 | The proxies that wait for ever are those that are an obstacle and have no kill on its way. |
| `Progress.AbandonedForever` | internal/supervisor/supervisor.go:131-146 | A live proxy nobody is asked to stop keeps the loop waiting through every run in which no process ends by itself and no kill hits the program. |
| `Progress.AbandonedHangs` | internal/supervisor/supervisor.go:131-146 | From there, unless a kill is lost, everything else can be used up until nothing is bound to happen. |
| `Progress.ShutdownHangsIff` | internal/supervisor/supervisor.go:124-146 | The loop can be left waiting, with no kill sent to the program itself, if and only if some proxied pool has a counted death and a live proxy with no end, stop or kill on its way, and no kill is lost. |
| `ProxyRestart.WorkerUsesUp` | internal/worker/worker_pool.go:279-285 | A worker can be restarted up to the limit while the proxy runs. |
| `ProxyRestart.SeveralWorkers` | internal/supervisor/supervisor.go:199-208 | With several workers some run stops a living proxy while a worker lives. |
| `ProxyRestart.ProxyStopsLastIff` | internal/supervisor/supervisor.go:18-21 | In all runs, whatever is done next, a stop that reaches a living proxy finds every worker dead, if and only if there is one worker. |
| `ProxyRestart.RestartedProxyHangs` | internal/supervisor/supervisor.go:92-115 | Every proxied configuration has a run to a shutdown state that can be left waiting. |
| `ProxyRestart.LateKillReached` | internal/worker/worker_real.go:200-211 | Every proxied configuration has a run in which the proxy is stopped, its timer fires, it ends and is restarted, and the kill is received before the new one has a PID. |
| `CounterRefinement.StepRefines` | internal/supervisor/supervisor.go:85-146 | Each action is one allowed step of the counter machine: a restart, a death, the launch, the shutdown, or a stutter. |
| `CounterRefinement.RunRefines` | internal/supervisor/supervisor.go:85-146 | Every run of the system is a run of the counter machine. |
| `CounterRefinement.SaneReaches` | internal/supervisor/supervisor.go:85-158 | Along any entries it allows the counter machine alone keeps its counters in range, its deaths exact and its return complete. |
| `Metrics.StateGauges.AddRunningStats` | metrics/prometheus.go:60-63 | Adds to one pool's running gauge and touches nothing else. |
| `Metrics.StateGauges.IncrementRunningDecrementTerminated` | metrics/prometheus.go:65-70 | Moves one process of one pool from terminated to running. |
| `Metrics.StateGauges.DecrementRunningIncrementTerminated` | metrics/prometheus.go:72-77 | Moves one process of one pool from running to terminated. |
| `Naming.DecimalInjective` | internal/worker/worker_pool.go:188 | Different numbers render differently. |
| `Naming.WorkerNameReads` | internal/worker/worker_pool.go:188 | A worker's name is its pool's, a dash and its number in decimal, read back as that number. |
| `Naming.WorkerNamesDistinct` | internal/worker/worker_pool.go:188-192 | Worker names of a pool are distinct, whatever its name. |
| `Naming.WorkerIsNotProxy` | internal/worker/worker_pool.go:28 | No worker has the proxy's name. |
| `Naming.PortsDistinct` | internal/worker/worker_pool.go:194-196 | Ports of a pool are distinct even where they wrap around. |
| `Naming.PortsCountUp` | internal/worker/worker_pool.go:194-196 | Ports count up from the start port and wrap around after 2^64 - 1. |
| `Naming.NamesCount` | internal/worker/worker_pool.go:187-192 | A pool of n workers has n names. |
| `WorkerPools.WorkerPool.PortRange` | internal/worker/worker_pool.go:395-398 | The range handed to the proxy has one port per replica, each the port of that replica. |
| `WorkerPools.WorkerPool.PrepareProxy` | internal/worker/worker_pool.go:381-432 | Either nothing changes or the proxy's slot and the endpoints are replaced. |
| `WorkerPools.WorkerPool.PrepareWorkers` | internal/worker/worker_pool.go:185-225 | Collides exactly when a name it comes to is taken, panics exactly when a limiter has nothing to draw from; a fresh pool gets exactly its distinct slots, and worker ports equal the endpoints. |
| `WorkerPools.WorkerPool.RunAll` | internal/worker/worker_pool.go:257-265 | Runs every instance once and adds their number to the gauge. |
| `WorkerPools.WorkerPool.RestartWorker` | internal/worker/worker_pool.go:267-301 | Does in place what the restart on values does; ports are kept and endpoints keep their values. |
| `WorkerPools.WorkerPool.InterruptAll` | internal/worker/worker_pool.go:239-255 | Interrupts every worker and not the proxy, in whatever order the map is walked. |
| `WorkerPools.WorkerPool.InterruptWorker` | internal/worker/worker_pool.go:341-343 | Stops the instance the slot holds and no other. |
| `WorkerPools.WorkerPool.ForceTerminateWorker` | internal/worker/worker_pool.go:345-350 | Counts the kill and issues it to the running process of the slot, or, without a PID, to the program's own group. |
| `WorkerPools.WorkerPool.CountRunning` | internal/worker/worker_pool.go:227-237 | The number of slots whose process has a PID and has not ended, and of no others. |
| `WorkerPools.WorkerPool.IsHealthy` | internal/worker/worker_pool.go:370-379 | Healthy exactly when the quotient of running and all processes reaches the threshold's cut; up to 104476 running workers, exactly above the threshold, or at it unless it is 53 or 59; with none running, only at a threshold of 0. |
| `Health.Float32Grows` | internal/worker/worker_pool.go:377 | Converting counts to float32 keeps their order. |
| `Health.Float32Rounds` | internal/worker/worker_pool.go:377 | A converted count is the nearest number with 24 significant bits, the even one of two. |
| `Health.PercentageReaches` | internal/worker/worker_pool.go:377-378 | For every size, the percentage is at least a threshold exactly when the quotient of the converted counts is at or past one rational number given by the threshold. |
| `Health.Threshold` | internal/worker/worker_pool.go:377-378 | Up to 104476 running workers a threshold is met exactly above it, or at it unless it is 53 or 59. |
| `Health.PercentageError` | internal/worker/worker_pool.go:377 | In that range the percentage is the true one rounded down, and one less exactly where that is a whole 53 or 59. |
| `Health.ExactThreshold` | internal/worker/worker_pool.go:377-378 | A pool exactly at a threshold, of any size up to 2^24, meets it exactly when it is neither 53 nor 59. |
| `Health.AllRunning` | internal/worker/worker_pool.go:377 | A pool with all processes running shows 100, whatever its size. |
| `Health.SafeRangeIsExact` | internal/worker/worker_pool.go:377-378 | With one running worker more, 104477 of 316597, a pool at 32 percent shows 33. |
| `TimeLimiter.LimiterProtocol` | internal/worker/limiter_time.go:48-82 | In every interleaving the flag is set exactly while one admitted monitor has not cleared it; admissions are active, cancelled and fired monitors; events never exceed firings. |
| `TimeLimiter.MonitorCan` | internal/worker/limiter_time.go:57-77 | What a monitor can do next; a waiting one can always time out or be cancelled. |
| `TimeLimiter.FatesCounted` | internal/worker/limiter_time.go:57-77 | In every interleaving the monitors that go on to send are the timers that fired, those that leave are the cancellations, and receipts and counts are the steps that made them. |
| `TimeLimiter.FateIsFinal` | internal/worker/limiter_time.go:59-76 | A cancelled monitor never sends, and one whose timer fired has its event pending, received or counted once it has cleared the flag. |
| `TimeLimiter.OneMonitor` | internal/worker/limiter_time.go:53-55 | No two monitors are active at once. |
| `TimeLimiter.Limiter.Monitor` | internal/worker/limiter_time.go:48-57 | Admits a caller exactly when a timeout is set and no monitor is active; then one is. |
| `TimeLimiter.Limiter.Advance` | internal/worker/limiter_time.go:57-77 | Every later step of a monitor keeps the counts consistent and the others unchanged; only its timer makes it send and only its context makes it leave, and clearing the flag leaves none active. |
| `TimeLimiter.NewTimeout` | internal/worker/limiter_time.go:21-46 | The drawn milliseconds are added; for every float64 rounding of the product they stay below the jitter's share of the timeout up to that rounding, and drawing fails exactly when the product lies below the midpoint under one millisecond. |
| `LogStreamer.LogSink.LogJson` | internal/worker/worker_log_streamer.go:18-56 | On either channel writes one record for an object without a worker id, with exactly its fields and the id, and nothing otherwise; counts valid JSON it cannot flatten, and crashes exactly on `null`. |
| `LogStreamer.LogSink.LogLine` | internal/worker/worker_log_streamer.go:58-70 | One record per line on either channel, flattened exactly for an object without a worker id and raw otherwise, unless the line is `null`. |
| `LogStreamer.LogSink.StreamLogs` | internal/worker/worker_real.go:121-144 | For every interleaving and close order it ends, logs each received line once in its channel's order, and logs all lines unless one is `null`. |
| `LogStreamer.OnCount` | internal/worker/worker_real.go:128-143 | The two channels' records make up the whole log. |
| `LogStreamer.RecordIdentifies` | internal/worker/worker_log_streamer.go:12-56 | A line's record is flattened exactly for an object without a worker id, and carries the id and the fields, or the id and the raw line. |
| `SupervisorLoop.SupervisorObject.OnProcessEnd` | internal/supervisor/supervisor.go:234-261 | The handler moves the gauges, and restarts unless terminating, as the step on values does. |
| `SupervisorLoop.SupervisorObject.OnTermination` | internal/supervisor/supervisor.go:199-208 | The handler counts the death and stops the proxy at the first one. |
| `SupervisorLoop.SupervisorObject.OnExceededLimit` | internal/supervisor/supervisor.go:210-216 | A limit event interrupts in the first loop and is dropped in the second. |
| `SupervisorLoop.SupervisorObject.OnNeedsInterrupt` | internal/supervisor/supervisor.go:218-224 | The handler is the step of the transition system. |
| `SupervisorLoop.SupervisorObject.OnNeedsTermination` | internal/supervisor/supervisor.go:226-232 | The handler is the step of the transition system. |
| `SupervisorLoop.SupervisorObject.ServeEnd` | internal/supervisor/supervisor.go:89-103 | An end in the first loop is the step of the transition system, without a panic. |
| `SupervisorLoop.SupervisorObject.StopEnd` | internal/supervisor/supervisor.go:134-139 | An end in the second loop, followed by the loop test, is the step of the transition system. |
| `SupervisorLoop.SupervisorObject.StartAll` | internal/supervisor/supervisor.go:80-83 | Runs all pools, in whatever order. |
| `SupervisorLoop.SupervisorObject.StopAll` | internal/supervisor/supervisor.go:118-121 | Interrupts all pools, in whatever order. |
| `SupervisorLoop.SupervisorObject.CountRunning` | internal/supervisor/supervisor.go:151-154 | The sum of the running processes over the pools. |
| `SupervisorLoop.SupervisorObject.IsHealthy` | internal/supervisor/supervisor.go:263-270 | True exactly when every pool is healthy. |
| `SupervisorLoop.SupervisorObject.Run` | internal/supervisor/supervisor.go:72-161 | On every schedule the loops reach the state of the transition system, never report a failed cleanup, and return exactly when it has returned. |
| `Creation.NewWorkerPool` | internal/worker/worker_pool.go:101-182 | A pool is built exactly from an entry with an executable, replicas and a port template where needed, and has that entry's replicas, limits, port and threshold. |
| `Creation.CreateAndPreparePools` | internal/supervisor/supervisor.go:163-197 | Succeeds exactly for distinct names and usable entries, a jitter to draw from included; every entry's pool is the one it describes, and the total is what the entries ask for. |
| `Creation.NewSupervisor` | internal/supervisor/supervisor.go:49-78 | A supervisor built from a configuration starts in an initial state with exactly the configured names, sizes and limits, and with fresh slots. |
| `MainCore.WholeRun` | cmd/monoceros/main.go:39-95 | What every interleaving of watcher, admin interface, supervisor and main keeps. |
| `MainCore.WhoCanMove` | cmd/monoceros/main.go:39-94 | Signals and results may come at any time and in any order; who can act on them, and when. |
| `MainCore.WhoCancels` | cmd/monoceros/main.go:39-48 | A caught signal cancels both contexts, a result that of the other side, and nothing else does but the supervisor itself. |
| `MainCore.SignalCancelsBoth` | cmd/monoceros/main.go:39-48 | Once the watcher has caught a signal both contexts are cancelled for good. |
| `MainCore.JoinSafety` | cmd/monoceros/main.go:73-94 | It returns only after both sides have, with the first result received, and with no managed process alive. |
| `MainCore.JoinProgress` | cmd/monoceros/main.go:39-94 | After a signal, a cancelled context or a result somebody is bound to move until it returns, unless a proxy holds the supervisor. |
| `MainCore.MainReturns` | cmd/monoceros/main.go:63-94 | Once the supervisor has noticed the cancelled context or has finished, every interleaving takes boundedly many productive moves, with one always bound to happen until it returns, unless a proxy holds the supervisor. |

## Left out

- Supervisor.HitsItself: what happens after a kill of the own process group is not modelled as an end of the program, so runs may go on after it; `Progress` excludes it where that matters.
- Safety.RestartBudget: restart counts are unbounded integers, so the wrap-around after 2^63 - 1 restarts of one worker under the default limit is not modelled.
- TimeLimiter.NewTimeout: the rounding of the float64 product is taken as a relation, and a jitter whose product exceeds 64 bits is not modelled. A restart draws from the same bound as the preparation, so it cannot newly panic.
- MainCore.JoinProgress: before the supervisor has noticed its cancelled context nothing bounds how many other events it serves, because a select chooses freely among ready cases; from then on `MainCore.MainReturns` bounds the moves.
- Wall-clock time: timers are armed or have fired; startup waits are not modelled.
- Template rendering and writing of the proxy's files: reduced to succeeding or failing. The conversion of a port to a signed integer when a worker's arguments are rendered is not modelled.
- The drain request to the proxy, the admin server and its health handler: network input and output without effect on this state.
- YAML loading and validation, metric registration, and the JSON library beyond the four outcomes of decoding a line.
- The in-memory worker and the other test doubles.
- The memory limiter, which the repository does not implement.
