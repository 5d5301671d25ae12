# Verified models of the Band bridge, agent lifecycle and tools

A Dafny 4.11 project that models the parts of the repository with the most state and the
most branching, and proves what they promise for every input, every run and every
interleaving. `dafny verify dfyconfig.toml` checks all of it.

## What is modelled

- **The bridge's forwarding protocol** (`forwarding*.dfy`, `rooms.dfy`, `dedup.dfy`,
  `control.dfy`, `reconnect.dfy`). A state holds every event task, every lock object ever
  created, the room map into those objects, the free permits, the dedup cache and the
  position of the runner. A step is what one task does between two suspensions, so a run is
  an arbitrary interleaving of arrivals, admissions, forwards that return or fail, control
  signals, reconnects, shutdown and `close`. Cancellation is a mark that is delivered when
  the task resumes; `except Exception` does not catch it. Gates are deleted with their last
  owner and created anew, so exclusion per room *id* rests on an invariant that ties tasks,
  gate objects and map together. `Rooms.RoomForwards` is the object itself, with gates on
  the heap, and two lemmas show that entering and leaving `accepted` in the protocol changes
  ownership exactly as that object's methods do.
- **The agent lifecycle** (`lifecycle*.dfy`, `agent.dfy`). One `start` at a time, any number
  of concurrent `stop` calls, success, failure or cancellation at every await, and a fair
  lock queue. `AgentObject.Agent` is the object whose fields the coroutines update; each of
  its methods is one stretch of code between two awaits. The object is valid when its fields
  show a protocol state that keeps the invariant; every method leaves it so, and `Resume`
  runs whichever is due.
- **The demo's circuit breaker** (`breaker*.dfy`), an object and whole-run properties over
  unbounded streams of messages and polls, down to the exact answer of every poll.
- **The workload index validator** (`workload*.dfy`), one pass with early rejections, equal
  to a declarative predicate that does not mention order.
- **The bounded calculator** (`calculator.dfy`, `calculator_laws.dfy`) and **workspace ownership**
  (`workspaces.dfy`).

## Findings

- `src/band/agent.py:147-150` and `src/band/agent.py:393-395` say a stop request recorded
  during a start must not apply to a later start. It can. Three hosts stop a running agent;
  the first tears it down while two wait for the lock; a new start begins before they run;
  the first waiter latches a request, the start comes up, its own `stop` queues behind the
  second waiter, the second waiter tears the agent down, and the start's own `stop` then
  latches a request for a start that is about to return. The next start stops itself
  although nobody asked (`LifecycleTheorems.RequestsCanLeak`, `NextStartIsPoisoned`).
- `src/band/agent.py:320-322` says a `stop` that ran while a start was in flight leaves the
  agent not running when that start returns. A `stop` that arrives during the start but has
  to queue behind earlier waiters may be served only after the start has returned with the
  agent running (`LifecycleTheorems.LateStopLoses`); it then takes the agent down.
- Both promises hold under one condition a host can check before it calls `start`, and under
  no weaker one: nobody waits for the stop lock. `StopsWinExactlyWhenUnqueued` and
  `RequestsStayTargetedExactlyWhenUnqueued` prove the equivalence from every state in which
  a start would be accepted with no request left over, and `UnqueuedStartsObeyStops` and
  `UnqueuedStartsNeverLeak` carry it over whole runs. `RequestsStayTargeted` says which
  steps of a run lose a request's target. The model lets a woken waiter run arbitrarily
  late; under asyncio such a run needs a start whose remaining awaits complete before the
  waiter's turn comes.
- `RoomWorkspaces.claiming` on a room that already holds its path gives that earlier claim
  away when the block raises (`Workspaces.RaisingBlockRestores`).
- With a negative `handoff_deadline` the breaker adds the architect without a nudge or a
  requested handoff; `BreakerProofs.UnpromptedAddsExactly` says for which configurations
  some run does.
- `RoomForwards(0)` would deadlock on its first message
  (`ForwardingDrain.ZeroCapacityDeadlocks`); `BridgeConfig` rules it out.

## Model

| member | source | states |
|---|---|---|
| ForwardingSafety.OneForwardPerRoom | band-bridge/bridge_core/dispatch.py:26-48 | in every run two tasks of one room id (or of no room) that are both inside `forward` are the same task, although the gate behind the id may be deleted and re-created |
| ForwardingSafety.OwnersStayRegistered | band-bridge/bridge_core/dispatch.py:32-42 | whoever is inside `accepted` is listed by the gate that is still mapped for its room, so `remove` and `del` cannot fail |
| ForwardingSafety.CapacityConserved | band-bridge/bridge_core/dispatch.py:44-48 | free permits plus forwarding tasks is the capacity in every state of every run, however waits are cancelled, and a permit holder holds its room's lock |
| ForwardingInvariant.StepKeeps | band-bridge/bridge_core/bridge.py:425-516 | every step keeps the whole invariant: ownership, one room per gate, one holder per lock, permits, recording, and who waits for whom |
| ForwardingInvariant.RunKeeps | band-bridge/bridge_core/bridge.py:247-318 | so the invariant holds in every state of every run |
| ForwardingInvariant.SettleKeeps | band-bridge/bridge_core/dispatch.py:39-42 | leaving `ready` and `accepted` with any outcome keeps the invariant |
| ForwardingInvariant.RegisterKeeps | band-bridge/bridge_core/dispatch.py:32-36 | entering `accepted`, with a mapped or a new gate, keeps the invariant and makes the task an owner |
| ForwardingInvariant.CheckKeeps | band-bridge/bridge_core/bridge.py:467-497 | the dedup check and the two filters keep the invariant |
| ForwardingSafety.TaskStepMoves | band-bridge/bridge_core/bridge.py:438-516 | a resumption changes its own task only and moves it closer to settling; a cancelled task can only settle as cancelled |
| ForwardingSafety.SettledForever | band-bridge/bridge_core/bridge.py:425-436 | a settled task keeps its outcome in every later state |
| ForwardingSafety.OutcomesAreExplained | band-bridge/bridge_core/bridge.py:467-516 | only forwardable events wait for or enter `forward`; skipped events are not forwardable; suppressed and delivered messages are recorded; only tasks asked to cancel end cancelled |
| ForwardingSafety.DeliveryIsRecorded | band-bridge/bridge_core/bridge.py:512-516 | a forward that returned leaves its message id among the last 10,000 recordings |
| ForwardingLaws.FailuresStayRetryable | band-bridge/bridge_core/bridge.py:467-516 | in every run an id none of whose forwards has returned is not cached, and no task that carries it was suppressed |
| ForwardingLaws.RecordedMeansReturned | band-bridge/bridge_core/bridge.py:512-516 | in every run an id is recorded only if an earlier step was the return of a forward of a message with that id |
| ForwardingLaws.ForwardsEnd | band-bridge/bridge_core/bridge.py:499-516 | a forward that raises fails its task and leaves cache and log as they were; one that returns delivers it and records the id unless it is among the last 10,000 |
| ForwardingLaws.AdmissionsDecide | band-bridge/bridge_core/bridge.py:438-497 | a room event waits for its subscription first; then an event is suppressed exactly when it is a message whose id is among the last 10,000 recordings, skipped exactly when it is not forwardable, and let on otherwise |
| ForwardingLaws.HoldersAdvance | band-bridge/bridge_core/dispatch.py:44-48 | a task takes its room's lock before a permit, and forwards with both |
| ForwardingLaws.OnlyReturnsRecord | band-bridge/bridge_core/bridge.py:512-516 | no other step of any task, arrival, signal or shutdown touches the log |
| ForwardingLaws.ArrivalsAndShutdown | band-bridge/bridge_core/bridge.py:240-318 | an arrival is a task that has not run; leaving the loop asks exactly its own unsettled tasks to cancel, and closing exactly the unsettled nudges |
| ForwardingLaws.ArrivalsAreTaken | band-bridge/bridge_core/bridge.py:218-245 | events arrive while their source runs, nudges until the link is down, control signals always |
| ForwardingLaws.RunnerComesBack | band-bridge/bridge_core/bridge.py:152-203 | a drained runner can connect and consume again with everything else as it was |
| ForwardingLaws.RunnerGoesDown | band-bridge/bridge_core/bridge.py:218-245 | a drained runner can exit and disconnect, and is closed once its nudges have settled |
| ForwardingSafety.CachedIdsAreSuppressed | band-bridge/bridge_core/bridge.py:471-480 | a task checked while its id is among the last 10,000 recordings settles as suppressed and stays so |
| ForwardingSafety.ForwardsWereUnseen | band-bridge/bridge_core/bridge.py:471-516 | whatever is inside `forward` had, when it was checked, an id not among the last 10,000 recordings |
| ForwardingSafety.CancelReachesTheRoom | band-bridge/bridge_core/dispatch.py:54-62 | in every run `cancel(room)` marks exactly the unsettled tasks admitted for the room and changes nothing else |
| ForwardingSafety.LateArrivalSharesTheGate | band-bridge/bridge_core/bridge.py:561-574 | a task admitted while a room still has an owner shares that owner's gate as long as both are in the room, and in every such later state neither holds the lock nor can take it while the owner holds it |
| ForwardingSafety.HolderKeepsOthersOut | band-bridge/bridge_core/dispatch.py:44-48 | two tasks of one room have one gate, and while one holds its lock the other neither holds nor can take it |
| ForwardingSafety.CancelledNeverForwards | band-bridge/bridge_core/bridge.py:425-436 | a task asked to cancel never advances: in every later state it is where it was or has settled as cancelled |
| ForwardingSafety.RegisterMatchesAccept | band-bridge/bridge_core/dispatch.py:32-36 | the protocol's entry into `accepted` changes ownership as `RoomForwards.Accept` does |
| ForwardingSafety.SettleMatchesSettle | band-bridge/bridge_core/dispatch.py:39-42 | the protocol's exit changes ownership as `RoomForwards.Settle` does, and meets that method's precondition |
| ForwardingSafety.ConsumeLeavesNothing | band-bridge/bridge_core/bridge.py:309-318 | outside the consume loop and its drain every task the loop spawned has settled |
| ForwardingSafety.SettledMeansEmpty | band-bridge/bridge_core/dispatch.py:39-48 | with every task settled no room is mapped, no gate is locked or owned, every permit is free |
| ForwardingSafety.ClosedIsEmpty | band-bridge/bridge_core/bridge.py:218-245 | after `run` has exited and `close` has completed no task is unsettled and no gate remains |
| ForwardingDrain.TaskStepDescends | band-bridge/bridge_core/bridge.py:438-516 | every resumption lowers a measure of the work left |
| ForwardingDrain.SomeTaskResumes | band-bridge/bridge_core/dispatch.py:44-48 | with capacity at least one, some task can resume whenever one is unsettled: no deadlock |
| ForwardingDrain.ZeroCapacityDeadlocks | band-bridge/bridge_core/config.py:168-172 | a run with capacity zero in which the only task waits for ever |
| ForwardingDrain.WorkIsBounded | band-bridge/bridge_core/bridge.py:425-516 | in any stretch of a run, arrivals, control signals, reconnects and shutdown included, resumptions plus the work left are at most the work there was plus five per arrival |
| ForwardingDrain.RunsAreBounded | band-bridge/bridge_core/bridge.py:425-516 | a whole run takes at most five resumptions per task spawned |
| ForwardingDrain.EveryScheduleDrains | band-bridge/bridge_core/bridge.py:309-318 | every stretch of a run that ends where no task can resume, whatever steps it is made of, ends with every task settled, no room mapped and every permit returned |
| ForwardingDrain.SomeScheduleDrains | band-bridge/bridge_core/bridge.py:309-318 | from every reachable state resumptions alone lead to such an end |
| Rooms.JoinThenLeave | band-bridge/bridge_core/dispatch.py:26-42 | a task that joins a room and settles leaves the ownership it found |
| Rooms.RoomForwards.constructor | band-bridge/bridge_core/dispatch.py:22-24 | no room is owned at first |
| Rooms.RoomForwards.Accept | band-bridge/bridge_core/dispatch.py:32-36 | a mapped gate object is reused, otherwise a fresh one is mapped; only this room gains an owner; rooms never share a gate |
| Rooms.RoomForwards.Settle | band-bridge/bridge_core/dispatch.py:39-42 | the owner leaves; the room goes with its last owner; every other room keeps its gate object |
| Rooms.RoomForwards.Cancel | band-bridge/bridge_core/dispatch.py:54-62 | exactly the room's unfinished owners are asked and counted, and ownership is untouched |
| Rooms.RoomForwards.ActiveRooms | band-bridge/bridge_core/dispatch.py:50-52 | the rooms that own accepted work |
| Dedup.RememberTracksWindow | band-bridge/bridge_core/bridge.py:540-546 | one recording keeps the cache equal to the last N entries of an unbounded log, without repeats |
| Dedup.CacheRefinesLog | band-bridge/bridge_core/control.py:89-118 | after every sequence of signals the cache is exactly the last N recordings, all distinct |
| Dedup.WindowIsFresh | band-bridge/bridge_core/bridge.py:540-546 | an id is cached if and only if fewer than N ids were recorded after some recording of it |
| Dedup.SuppressedIffFresh | band-bridge/bridge_core/control.py:89-118 | a signal is suppressed if and only if it has an id recorded with fewer than N recordings since; one without an id never is |
| Dedup.SuppressedIffRepeated | band-bridge/bridge_core/control.py:89-118 | without cache or log: a signal is suppressed if and only if an earlier one with its id was let through and fewer than N others were let through since |
| Dedup.BoundedIds.RememberMessage | band-bridge/bridge_core/bridge.py:540-546 | the object's cache takes the step of the specification; a known id keeps its place |
| Dedup.BoundedIds.IsDuplicate | band-bridge/bridge_core/control.py:89-118 | the verdict on a signal and the cache it leaves |
| Control.ControlSignalHandler.Handle | band-bridge/bridge_core/control.py:47-87 | a suppressed signal does nothing; an interrupt or stop cancels and a play nudges exactly its target rooms, in order; its id is recorded |
| Control.SignalsDoAsTold | band-bridge/bridge_core/control.py:47-136 | in every stream the k-th signal does nothing when its id is among the last 256 recordings; otherwise an interrupt or stop cancels and a play nudges exactly its room, or for the whole agent every fetched room in order, and any other signal does nothing |
| Control.RedeliveryIsHarmless | band-bridge/bridge_core/control.py:38-118 | a redelivered signal does nothing, and every later signal does what it would have done without it |
| Control.CacheIsLane | band-bridge/bridge_core/control.py:105-118 | the handler's cache after any signals is the one the dedup results speak of |
| Control.EffectsSplit | band-bridge/bridge_core/control.py:47-87 | what a stream of signals does is what its halves do, the second from the cache the first left |
| Reconnect.SleepSeconds | band-bridge/bridge_core/bridge.py:205-216 | the sleep lies between the fixed share of the delay and the delay, and both ends are reached |
| Reconnect.BackOff | band-bridge/bridge_core/bridge.py:198-203 | the wait after the k-th failure of a streak, and the closed form of the next delay |
| Reconnect.NextDelay | band-bridge/bridge_core/bridge.py:200-203 | multiplying and capping the k-th delay gives min(initial * multiplier^k, max_delay), even when the initial delay exceeds the cap |
| Reconnect.Run | band-bridge/bridge_core/bridge.py:147-203 | for every script of attempts: which of them are slept after and for how long, and how the loop ends |
| Reconnect.GivesUpAtTheLimit | band-bridge/bridge_core/bridge.py:167-182 | when the loop gives up it is at exactly the n-th failure of the last streak, no link having come up since that streak's first |
| Reconnect.TurnsDecide | band-bridge/bridge_core/bridge.py:152-182 | at whichever turn the loop reaches: it retries exactly after an undisturbed failure that is not the last allowed of its streak, and otherwise ends as the turn says - it gives up if and only if the failure is the n-th of its streak and n is the limit |
| Reconnect.SleepsFollowTheStreak | band-bridge/bridge_core/bridge.py:164-203 | each sleep is the initial delay at the start of a streak, then min(initial * multiplier^(place), max_delay), less at most the jitter |
| LifecycleProofs.StepKeeps | src/band/agent.py:314-507 | every step of `start`, `stop` and the unwind keeps the lifecycle invariant |
| LifecycleProofs.RunKeeps | src/band/agent.py:314-507 | so every state of every run satisfies it |
| LifecycleProofs.StepFollows | src/band/agent.py:314-507 | a step lets go of the claim last, loses a request's target only by a leak, and forgets neither a latch nor a non-graceful stop |
| LifecycleTheorems.CleanupExcludesStart | src/band/agent.py:328-346 | at every await inside `stop`'s cleanup something is pending, a new `start` is refused and changes nothing, and no start is at one of its own awaits |
| LifecycleTheorems.StopOnlyLatchesDuringStart | src/band/agent.py:460-465 | while a start boots or unwinds, a `stop` with the lock only records its request, and no cleanup is under way |
| LifecycleTheorems.StopDuringStartWins | src/band/agent.py:320-322 | a `stop` that arrives anywhere while a start is in flight keeps that start from returning with the agent running, if nobody waited for the stop lock as the start was called |
| LifecycleTheorems.StopsWinExactlyWhenUnqueued | src/band/agent.py:320-322 | for every state in which a start would be accepted with no request left over: every `stop` that arrives during that start wins, on every continuation, if and only if nobody waits for the stop lock |
| LifecycleTheorems.LateStopLoses | src/band/agent.py:459-464 | from every such state with a waiter, a continuation in which a `stop` arrives during the start and the start returns with the agent running |
| LifecycleTheorems.UnqueuedStartsObeyStops | src/band/agent.py:409-413 | the same over a whole run all of whose accepted starts were called with nobody waiting |
| LifecycleTheorems.ServedStopWins | src/band/agent.py:459-464 | a `stop` that has the lock while a start boots or unwinds keeps that start from returning with the agent running, whoever else waits |
| LifecycleTheorems.OwnStopWins | src/band/agent.py:409-413 | a start that has come to its own `stop` never returns with the agent running |
| LifecycleTheorems.LatchedStartNeverRuns | src/band/agent.py:409-411 | a start with a latched request never returns with the agent running, whatever fails or is cancelled |
| LifecycleTheorems.ClaimIsHeldWhenNeeded | src/band/agent.py:352-360 | the claim is held while the agent is started and not held while it is idle with nothing pending |
| LifecycleTheorems.ClaimIsReleasedLast | src/band/agent.py:430-431 | the step that releases the claim leaves no phase pending and no agent started |
| LifecycleTheorems.PhasesSucceedOnce | src/band/agent.py:482-495 | each phase succeeds at most once per lifetime and is no longer pending afterwards |
| LifecycleTheorems.SettledMeansRuntimeDone | src/band/agent.py:497-507 | `work_settled` is passed as True if and only if RUNTIME is not pending, in `stop` and in the unwind |
| LifecycleTheorems.AdapterIsAttemptedRegardless | src/band/agent.py:482-495 | a cleanup that begins with the adapter phase pending and is not cancelled reaches the adapter's disposal before it ends, with the work unsettled when the runtime stop raised |
| LifecycleTheorems.FinishedStopLeavesNothing | src/band/agent.py:471-480 | a `stop` that finishes leaves no phase pending, no agent started and no claim held |
| LifecycleTheorems.UngracefulStopIsReported | src/band/agent.py:497-502 | after a non-graceful runtime stop no later attempt of that lifetime reports a graceful one |
| LifecycleTheorems.RequestsStayTargeted | src/band/agent.py:390-396 | a run keeps "a pending request targets a start in flight" if and only if none of its steps leaks |
| LifecycleTheorems.RequestsStayTargetedExactlyWhenUnqueued | src/band/agent.py:393-396 | for every state in which a start would be accepted with no request left over: no continuation up to the next start lets a request outlive its start if and only if nobody waits for the stop lock |
| LifecycleTheorems.LateStopLeaks | src/band/agent.py:409-413 | from every such state with a waiter, a continuation that ends with a request pending and no start in flight |
| LifecycleTheorems.UnqueuedStartsNeverLeak | src/band/agent.py:147-150 | over a whole run all of whose accepted starts were called with nobody waiting, no request outlives its start |
| LifecycleTheorems.UncontendedStartsNeverLeak | src/band/agent.py:459-465 | no request outlives its start when nobody waits for the stop lock while a start awaits its runtime |
| LifecycleTheorems.QueuedStopLeaks | src/band/agent.py:409-413 | from two stops left queued by a finished one, the steps to an idle agent with a request pending |
| LifecycleTheorems.RequestsCanLeak | src/band/agent.py:147-150 | a run from construction that ends with a request pending and no start in flight |
| LifecycleTheorems.NextStartIsPoisoned | src/band/agent.py:393-396 | from there a start comes up and stops itself although no `stop` is called |
| LifecycleOutcomes.StopIsServed | src/band/agent.py:458-471 | with the lock free and unqueued `stop` latches during a start, has nothing to do on a stopped agent that owes nothing, and otherwise begins a cleanup, at the runtime's await if and only if that phase is owed; else it waits |
| LifecycleOutcomes.WaiterIsServed | src/band/agent.py:459-471 | the head of the queue is served the same way when it is granted the lock |
| LifecycleOutcomes.WaiterIsCancelled | src/band/agent.py:459-459 | a cancelled waiter leaves the queue and raises, and nothing else changes |
| LifecycleOutcomes.IdleMeansNothingOwed | src/band/agent.py:466-467 | in every run a `stop` answers that there was nothing to stop only if nothing is pending, started or claimed |
| LifecycleOutcomes.CleanupOutcome | src/band/agent.py:469-495 | whatever the two awaits of a cleanup do: a phase is struck off exactly when it succeeds, the attempt raises exactly when one fails or is cancelled, and only an attempt that does not raise lets go of the claim and reports its gracefulness |
| LifecycleOutcomes.AfterFirstPhase | src/band/agent.py:485-502 | after the runtime phase, failed or not, the adapter's disposal is awaited if it is owed, told whether work has settled |
| LifecycleOutcomes.AfterSecondPhase | src/band/agent.py:485-507 | the adapter phase ends the attempt, which raises if either phase failed or it was cancelled |
| LifecycleOutcomes.OwedCleanupIsRetried | src/band/agent.py:440-442 | from every state of an idle, stopped agent that owes cleanup, with the lock free, the next `stop` begins it, and when its awaits succeed nothing is owed and the claim is gone |
| LifecycleOutcomes.StartIsRefused | src/band/agent.py:328-343 | a start is refused exactly over a started agent or owed cleanup, and then changes nothing |
| LifecycleOutcomes.StartBegins | src/band/agent.py:346-360 | an accepted start claims first; without the claim it unwinds what it took over, or raises having taken nothing |
| LifecycleOutcomes.StartAdvances | src/band/agent.py:360-413 | what each await of `start` that succeeds leads to, with and without a request pending |
| LifecycleOutcomes.UndisturbedStartRuns | src/band/agent.py:360-413 | a start nobody stops, whose awaits succeed, returns with the agent running, claimed and owing both phases |
| LifecycleOutcomes.AskedStartStops | src/band/agent.py:409-411 | a start that was asked to stop takes the agent down, and returns or raises as that cleanup does |
| LifecycleOutcomes.FailureOutcome | src/band/agent.py:390-431 | a start that fails at any await tries to release the adapter it owes, told that work has settled exactly when no runtime is held; it raises, its request is gone, and it keeps the claim exactly while something is owed |
| LifecycleOutcomes.ReleaseOutcome | src/band/agent.py:421-431 | the unwind strikes the adapter off only if it was released |
| AgentObject.Agent.Resume | src/band/agent.py:314-507 | whatever is due next, the object's fields end in the protocol's next state, keep its invariant and the claim and cleanup discipline |
| AgentObject.Agent.ValidIsDisciplined | src/band/agent.py:135-156 | at every await: started means guarded with both phases owed; idle with nothing owed means no guard; a cleanup under way means something owed and nothing booting |
| AgentObject.Agent.BeginStart | src/band/agent.py:328-360 | `start` up to its first await; a started agent or one that owes cleanup is left as it was |
| AgentObject.Agent.Initialized | src/band/agent.py:366-370 | the adapter phase is owed before the adapter boots |
| AgentObject.Agent.AdapterStarted | src/band/agent.py:377-378 | the runtime phase is owed before the runtime starts |
| AgentObject.Agent.RuntimeStarted | src/band/agent.py:403-413 | the start returns with the agent up only if no request was pending; otherwise its own `stop` asks for the lock |
| AgentObject.Agent.StepFailed | src/band/agent.py:390-431 | an awaited start step that raises or is cancelled leads to the unwind, the guard kept while anything is owed |
| AgentObject.Agent.Unwind | src/band/agent.py:421-431 | the unwind up to its await, or to the end of the failed start |
| AgentObject.Agent.EndUnwind | src/band/agent.py:390-431 | the rest of a failed start: its request is cleared whatever the release did, the guard kept while anything is owed |
| AgentObject.Agent.Stop | src/band/agent.py:458-471 | a `stop` is served at once when the lock is free and unqueued, and queues otherwise |
| AgentObject.Agent.GrantLock | src/band/agent.py:459-471 | the freed lock goes to the head of its queue, which then runs to its first await |
| AgentObject.Agent.AbandonWait | src/band/agent.py:459-459 | a queued `stop` that is cancelled changes neither the guard nor what is owed |
| AgentObject.Agent.EnterStop | src/band/agent.py:459-471 | `stop` from the lock to its first await |
| AgentObject.Agent.RuntimeStopped | src/band/agent.py:482-502 | the runtime phase's end, graceful, failed or cancelled, up to the next await |
| AgentObject.Agent.AfterRuntime | src/band/agent.py:485-507 | the adapter phase, told whether work has settled |
| AgentObject.Agent.AdapterDisposed | src/band/agent.py:485-507 | the adapter phase's end frees the lock, and lets the guard go only with nothing owed |
| AgentObject.Agent.EndCleanup | src/band/agent.py:471-480 | the guard is released unless a phase failed |
| Breaker.CircuitBreaker.Record | examples/docker_demo/breaker.py:168-191 | the fields a message leaves, none changed once terminal |
| Breaker.CircuitBreaker.Poll | examples/docker_demo/breaker.py:193-242 | the fields and the actions of a poll |
| Breaker.CircuitBreaker.PollDecided | examples/docker_demo/breaker.py:244-272 | the same for a decided meeting, with and without a presenter |
| BreakerAnswers.AnswersAreDetermined | examples/docker_demo/breaker.py:193-278 | every poll of every run answers what the inputs and earlier answers alone determine, in this order: close, open the floor, kill, nudge, add, nothing |
| BreakerAnswers.UndecidedAnswers | examples/docker_demo/breaker.py:208-242 | a kill if and only if the meeting is live, undecided and past the wall clock or the message cap; a nudge and an add if and only if each is due |
| BreakerAnswers.OpeningAnswers | examples/docker_demo/breaker.py:254-260 | the floor is opened if and only if a presenter's meeting is live and decided and was not opened before |
| BreakerAnswers.ClosingAnswers | examples/docker_demo/breaker.py:198-272 | a meeting is closed if and only if the presenter asked, the grace since the first poll that found the verdict has elapsed, or the presenter has been silent for the idle period since the last poll that noticed them |
| BreakerAnswers.ClosingReasons | examples/docker_demo/breaker.py:274-278 | and the recorded reason is the one that applies |
| BreakerAnswers.FlagsAreAnswers | examples/docker_demo/breaker.py:193-278 | terminal, nudged, added and opened hold exactly after the answer, or the closing, that sets them |
| BreakerAnswers.GraceIsTimed | examples/docker_demo/breaker.py:247-252 | the grace runs from the first poll that found the verdict |
| BreakerAnswers.FloorIsTimed | examples/docker_demo/breaker.py:254-272 | the silence runs from the last poll that noticed a presenter message, or from the opening |
| BreakerProofs.IrrelevantMessagesChangeNothing | examples/docker_demo/breaker.py:168-272 | deleting every non-agent message that does not mention the architect (with a presenter: and is not theirs) leaves the sequence of poll results unchanged |
| BreakerProofs.ActionsHappenOnce | examples/docker_demo/breaker.py:193-278 | a poll that acts returns one action, no action is returned twice in a run and none follows a terminal one |
| BreakerProofs.PollTakesOneNewAction | examples/docker_demo/breaker.py:193-278 | a poll returns at most one action, not taken before and taken from then on |
| BreakerProofs.RunGrows | examples/docker_demo/breaker.py:168-278 | facts, fired tiers and first stamps are kept from any point of a run to any later one |
| BreakerProofs.CountersCountMessages | examples/docker_demo/breaker.py:168-191 | until a terminal action both counters are the numbers of messages recorded, the design count only before the architect showed, and the three facts hold if and only if their message was recorded |
| BreakerProofs.HardCapStops | examples/docker_demo/breaker.py:208-222 | an undecided meeting with the hard cap of agent messages is over after the next poll |
| BreakerProofs.SoftCapNudges | examples/docker_demo/breaker.py:224-232 | a design discussion at the soft cap, with no architect and no handoff, has been nudged or is over by the next poll |
| BreakerProofs.NoKillAfterVerdict | examples/docker_demo/breaker.py:203-206 | no poll after a recorded verdict is a hard kill |
| BreakerProofs.NoNudgeOrAddAfterPresence | examples/docker_demo/breaker.py:224-240 | no poll after the architect joined or spoke nudges or adds |
| BreakerProofs.AddFollowsNudgeOrHandoff | examples/docker_demo/breaker.py:224-240 | an add is preceded by a nudge or a requested handoff, unless the deadline is negative and the soft cap not reached |
| BreakerProofs.UnpromptedAddsExactly | examples/docker_demo/breaker.py:224-240 | some run adds the architect with neither before it if and only if the deadline is negative, the soft cap positive and the add due before the hard cap |
| BreakerProofs.EarlyAddHappens | examples/docker_demo/breaker.py:233-240 | for every such configuration, a run that does |
| BreakerProofs.NudgedMeansNudge | examples/docker_demo/breaker.py:225-232 | the flag is set only by a nudge some earlier poll returned |
| BreakerProofs.HandoffMeansMention | examples/docker_demo/breaker.py:178-179 | a handoff is requested only by a recorded mention by someone else |
| BreakerProofs.StoppedAfterGrace | examples/docker_demo/breaker.py:198-252 | without a presenter a poll past the wall clock and one a grace later leave the meeting stopped, for every message stream |
| BreakerProofs.StoppedAfterIdle | examples/docker_demo/breaker.py:198-272 | with a presenter silent since a poll past the wall clock, any poll an idle period after the next one leaves it stopped |
| Workload.Validate | scripts/validate-workload.py:87-180 | the pass accepts if and only if the index satisfies the declarative predicate, and a rejection names a fault the index has |
| WorkloadComplete.AcceptableIsComplete | scripts/validate-workload.py:87-180 | the predicate the pass decides, spelled out over positions, fields and substrings: each platform exactly once, every child what its place asks for, one descriptor shared with the index, every platform attested for provenance and SBOM |
| WorkloadComplete.CountsOne | scripts/validate-workload.py:120-122 | counting one child of a platform is finding one and no second |
| WorkloadComplete.ContainsIsWithin | scripts/validate-workload.py:115-118 | a marker is contained exactly when the text is something, the marker, something |
| Workload.CheckPlatform | scripts/validate-workload.py:124-168 | a platform child passes if and only if it is a v3 workload run by the agent user through the launcher with the expected release |
| Workload.ScanLayers | scripts/validate-workload.py:110-118 | a subject gains exactly the attestation kinds its layers name |
| Workload.AttestationCollected | scripts/validate-workload.py:102-119 | what the loop has collected stays exact over an attestation child |
| Workload.PlatformCollected | scripts/validate-workload.py:120-131 | and over a platform child |
| Workload.Conclude | scripts/validate-workload.py:169-180 | what is collected decides acceptance, and `descriptors[0]` and `[1]` are in range |
| Workload.OrderDoesNotMatter | scripts/validate-workload.py:95-119 | permuting the children never changes acceptance |
| Calculator.EvalIsMeaningWithinDepth | examples/claude_sdk_docker/tools/example_tools.py:55-108 | evaluation from depth d succeeds if and only if d plus the tree's height is at most 50 and the depth-free meaning is defined, and then yields it |
| Calculator.EvalAllIsMeaningWithinDepth | examples/claude_sdk_docker/tools/example_tools.py:92-92 | the same for an argument list |
| Calculator.EvalBounded | examples/claude_sdk_docker/tools/example_tools.py:55-108 | a value has magnitude at most b to the number of constants, for every b at least 2, the largest constant and 10000^100 |
| Calculator.MeaningBounded | examples/claude_sdk_docker/tools/example_tools.py:68-106 | the same bound without the depth budget |
| Calculator.BinaryBounded | examples/claude_sdk_docker/tools/example_tools.py:71-79 | every operator keeps within the product of its operands' bounds |
| Calculator.FloorBounded | examples/claude_sdk_docker/tools/example_tools.py:24-34 | floor division shrinks, and the remainder has the divisor's sign and is smaller |
| Calculator.GuardedPowerBounded | examples/claude_sdk_docker/tools/example_tools.py:71-78 | what the power guard lets through is at most 10000^100 |
| Calculator.ExtremesAreElements | examples/claude_sdk_docker/tools/example_tools.py:37-43 | `min` and `max` are arguments that bound all arguments |
| CalculatorLaws.Leaves | examples/claude_sdk_docker/tools/example_tools.py:57-64 | below depth 50 evaluation raises; a constant is its value and a wrapper its body, one level deeper |
| CalculatorLaws.SumsAndProducts | examples/claude_sdk_docker/tools/example_tools.py:65-79 | operands x and y give x + y, x - y and x * y |
| CalculatorLaws.Divisions | examples/claude_sdk_docker/tools/example_tools.py:65-79 | floor division and remainder split the dividend, the remainder between zero and the divisor; dividing by zero raises |
| CalculatorLaws.Powers | examples/claude_sdk_docker/tools/example_tools.py:71-79 | the power, if the base is at most 10000 and the exponent at most 100 in magnitude; otherwise it raises |
| CalculatorLaws.Signs | examples/claude_sdk_docker/tools/example_tools.py:80-85 | unary minus and plus |
| CalculatorLaws.OperandErrors | examples/claude_sdk_docker/tools/example_tools.py:65-85 | an unsupported operator is refused before its operands; otherwise the first operand that raises decides |
| CalculatorLaws.CallErrors | examples/claude_sdk_docker/tools/example_tools.py:86-92 | a call of anything but a known name is refused before its arguments; otherwise the first argument that raises decides |
| CalculatorLaws.OneArgument | examples/claude_sdk_docker/tools/example_tools.py:35-43 | `abs` and one-argument `round`, and the arities they refuse |
| CalculatorLaws.Minimum | examples/claude_sdk_docker/tools/example_tools.py:35-43 | `min` of two or more numbers is an argument at most all of them; fewer raise |
| CalculatorLaws.Maximum | examples/claude_sdk_docker/tools/example_tools.py:35-43 | `max` of two or more numbers is an argument at least all of them; fewer raise |
| CalculatorLaws.PowCalls | examples/claude_sdk_docker/tools/example_tools.py:93-106 | `pow` under the same guard, and the arities it refuses |
| CalculatorLaws.PowerIsPower | examples/claude_sdk_docker/tools/example_tools.py:30-30 | the zeroth power is one, the first the base, and exponents add |
| Workspaces.EveryRunKeepsInverse | src/band/workspaces.py:33-56 | after any claims, releases and nested, possibly raising, claiming blocks the two maps are each other's inverse |
| Workspaces.NoSharedPath | src/band/workspaces.py:82-93 | so two rooms never hold one path |
| Workspaces.RefusedIffTaken | src/band/workspaces.py:82-93 | a claim is refused if and only if another room holds the path, and a failed claim changes nothing |
| Workspaces.ClaimsGiveTheRoomItsPath | src/band/workspaces.py:33-39 | a room that holds a path keeps it, any other gets the proposed path unless another room holds it, and no other room's holding changes |
| Workspaces.ReleasesFreeThePath | src/band/workspaces.py:41-46 | a release frees the room's path exactly when it names none or that one, and then any room can claim it; no other room's holding changes |
| Workspaces.NothingElseMoves | src/band/workspaces.py:41-56 | releasing nothing changes nothing, a block that ends keeps what it did, and a failed claim runs no body |
| Workspaces.RaisingBlockGivesBack | src/band/workspaces.py:48-56 | whatever its body does, a raising block leaves its room without the path it claimed and every other room as the body left it |
| Workspaces.RaisingBlockRestores | src/band/workspaces.py:48-56 | a raising block restores the maps if and only if its claim failed, or its room held nothing before and the body left the maps as they were after or before the claim |
| Workspaces.WorkspacesAreInside | src/band/workspaces.py:137-148 | a resolved workspace lies strictly inside the root; a plain room id gets its own directory there |
| Workspaces.WorkspaceIsWhatTheIdNames | src/band/workspaces.py:137-148 | a room gets a workspace if and only if what its id names below the root is strictly inside it, and then that one |
| Workspaces.DotsMoveAsUsual | src/band/workspaces.py:143-145 | "." and empty segments change nothing; ".." undoes the last segment and stays at the top |
| Workspaces.RoomWorkspaces.Claim | src/band/workspaces.py:33-39 | the maps and the answer of a claim; the inverse is kept |
| Workspaces.RoomWorkspaces.Release | src/band/workspaces.py:41-46 | the maps a release leaves; the inverse is kept |

## Left out

- ForwardingSafety.ForwardsWereUnseen: speaks of the moment of the check, because the check comes before the room lock and two copies admitted together may both forward; at-most-once forwarding is not promised.
- ForwardingDrain.EveryScheduleDrains: forwards are taken to end; a call that never returns and is never cancelled keeps its gate and permit.
- The order in which waiters of a room lock or of the semaphore are woken: any waiter may be next, which allows more interleavings than asyncio does. Acquiring a free lock and permit is split into steps that asyncio performs at once, and a permit handed to a woken waiter counts as free until that waiter runs.
- The event tasks and the consume loop are steps over values rather than methods of an `AgentRunner` class: what is in scope is their interleaving. The objects they share (`RoomForwards`, the dedup caches, the control handler) and the reconnect loop are classes and methods.
- Foreign calls: transports, REST and WebSocket traffic, forwarders, adapters and the runtime succeed, fail or are cancelled; a foreign call is taken to let a cancellation through, and work that outlives it (a boto3 thread) is not followed.
- The room list a fan-out fetches is an input of the control handler; a fetch that raises after the signal's id was recorded is not modelled.
- `_starting` is derived from the position of `start` in the protocol state, and is a field of the `Agent` class. The class holds the await of the start in flight and the holder and waiters of `_stop_lock` as fields too.
- Overlapping `start` calls on one agent, the refusal of recursive shutdown, and errors raised by `accept_adapter` or the batch hosts before `start` has changed anything.
- `Agent.run`, `run_forever`, `__aexit__` and `_stop_during_unwind`, which call `start` and `stop`; the timeout stored with a pending request.
- `dispose_adapter` and `release_adapter` themselves: `dispose_adapter(work_settled=True)` is taken to return True or raise, as `src/band/runtime/startup.py` has it.
- The breaker's stop reason is a case, not its text; the floats of clocks and delays are reals.
- Floating point results, true division, two-argument `round`, three-argument `pow` and negative exponents in the calculator end in `Outside`; parsing and the length limit of `safe_math_eval` are not modelled.
- `repository_name`, `is_v3_workload`, missing keys and malformed JSON documents other than descriptors in the validator; a descriptor's remaining fields are one opaque string.
- The file system behind workspaces: directories, symbolic links and home directories; a path is its normalised segments.
- Log messages, the health server, `BandBridge`, the conductor and the provisioning scripts.
