# Verified models of the stdexec protocols, the plugin that uses them, and dlfcn-win32

The repository vendors NVIDIA's stdexec, an implementation of P2300 `std::execution`, together with
dlfcn-win32 and a plugin that runs work on a stdexec thread pool and cleans up the thread-local keys its
libraries create. What is hard in it is a set of small concurrent protocols, each held together by a few
atomics or one mutex, and a distributed stencil solver. Each of them has a module here.

A concurrent protocol is a state machine over any number of threads: `Enabled` and `Apply` give the steps,
`IsRun` is any finite interleaving from a fresh object, `StepInv` shows that every step keeps the
invariant, and the main results are about every state of every run. An atomic operation is one step, and so is
a critical section under a mutex; where an operation calls `request_stop` on another object, that call has a
beginning, which sets the stop bit, and an end. What the code
changes in place is also there in place: a class or an array method with the source's own fields,
proved against the function that the state machine uses for that step, or against the property itself.

A module named `...History` says of the same runs what the fields of a state mean in terms of the actions that came
before, in which order the actions of one participant follow one another, and that nobody is stuck: it ties the state
machine to the code's program order without going by the functions that define its steps.

| module | what it models |
|---|---|
| `StopToken`, `StopHistory` | `inplace_stop_source`: the two-bit word, the callback list with back links to cells, `request_stop`, registration and deregistration from any thread and from inside callbacks |
| `WorkerSleep`, `WorkerHistory` | `static_thread_pool`: the sleep and notify handshake, and the packed counter of awake and stealing workers |
| `EvenShare`, `Bulk`, `BulkHistory` | the 64-bit share arithmetic and parallel `bulk` over stolen tasks |
| `Plugin` | `run_plugin` on top of `Bulk`, and the registry of thread-local keys over load and unload cycles |
| `Maxwell`, `MaxwellRanks` | the distributed solver on arrays with halo rows, against one periodic grid |
| `AsyncScope`, `ScopeHistory`, `FutureState`, `FutureHistory` | the scope's count and waiters; the ownership of a spawned future's shared state |
| `TimedThread`, `TimedHistory` | the race of timer, stop request and closing in `timed_thread_context` |
| `Trampoline`, `RepeatN` | bounded recursion with deferral, and the child operation rebuilt in place |
| `WhenAny`, `WhenAnyHistory`, `CompletionToken`, `CompletionHistory` | first result, last sender; the frames and the handler of an Asio operation |
| `OldThreadPool`, `PoolHistory` | the mutex-based pool of the benchmark |
| `Dlfcn` | the list of local objects and the symbol search of `dlsym` |

Floating-point arithmetic is an abstract type with uninterpreted operations; `std::size_t` and
`std::uint32_t` arithmetic that can wrap is written modulo 2^64 and 2^32.

Where the code and what is written about it disagree, the code is modelled:

- `request_stop` returns false to the one caller that made the request and true to all others, the reverse of
  the P2300 wording (`StopToken.StopSticks`).
- The comment on `num_agents_required` says minimum of shape and parallelism; the conversion of the thread
  count to the shape's type can break that, and `Bulk.NumAgentsIff` says exactly when. What is left may be no
  agent at all, and then the operation never completes; `Bulk.UsableIff` says when the number will do.
- A completion that a child of `when_any` sends from inside the stop callback leaves that callback working on an
  operation that may be destroyed (`WhenAny.InlineIff`, `WhenAny.DestroyedIff`, `WhenAny.InlineStopHurts`).
- The packed counter is exact for up to 65535 workers and wrong from 65536 on (`WorkerSleep.CounterExactIff`).
- The future's move assignment is defaulted and frees the state of a pending sender, and so does a consumer whose
  constructor throws (`FutureState.EarlyFreeIff`). The destructor of an unstarted consumer waits for its stop callback,
  and deregisters it, only after it has given the state away (`FutureState.ForwardIff`, `FutureState.DeleteIff`).
- What a future's consumer forwards to the shared state's stop source reaches nobody: the sender is given the scope's
  own token (stdexec-nvhpc-25.09/include/exec/async_scope.hpp:482-485).
- The catch block of the Asio operation's `start` writes to the operation without the test of its frame that the code
  after it makes (`CompletionToken.CatchIff`).
- Keys created before `plugin_init` runs are forgotten and leak (`Plugin.Registry.CycleWithEarly`), and a
  tracked key deleted elsewhere and issued again is deleted under its new holder (`Plugin.Registry.Reissue`).
- The timed context does not drain its command queue after closing
  (`TimedThread.CompletedIffNotLeftBehind`), and the exchange that should close its count again after a
  refused submission never succeeds (`TimedThread.RecloseFails`), so that after 2^62 of them submissions are queued
  again (`TimedThread.RefusedIff`).
- The older pool drops tasks that are pushed after the workers have left (`OldThreadPool.LaterIsLost`).

## Model

| member | source | states |
|---|---|---|
| `StopToken.StepInv` | stdexec-nvhpc-25.09/include/stdexec/stop_token.hpp:227-374 | every step of any number of constructors, destructors and `request_stop` calls keeps the invariant of word, list, callbacks and notifier |
| `StopToken.LockExcludes` | stdexec-nvhpc-25.09/include/stdexec/stop_token.hpp:277-341 | the lock bit is mutual exclusion, and it justifies the blind stores: the word a destructor saved is still current, a constructor that stores 0 loses no stop request |
| `StopToken.StopSticks` | stdexec-nvhpc-25.09/include/stdexec/stop_token.hpp:244-323 | the stop bit never clears; at most one `request_stop` returns false, and one has exactly when the notify loop is over |
| `StopToken.NotifyLoopEnds` | stdexec-nvhpc-25.09/include/stdexec/stop_token.hpp:251-274 | once stop is set the turns of the notify loop are bounded by the length of the list, which no longer grows |
| `StopToken.CallbackRunsOnce` | stdexec-nvhpc-25.09/include/stdexec/stop_token.hpp:227-275 | a body runs at most once; when the winner has returned every registered callback ran exactly once unless its destructor withdrew it, and a withdrawn one never runs |
| `StopToken.RemovalWaits` | stdexec-nvhpc-25.09/include/stdexec/stop_token.hpp:343-374 | when a destructor has returned on any thread but the notifying one, the body is not running |
| `StopToken.NeverAfterRemoval` | stdexec-nvhpc-25.09/include/stdexec/stop_token.hpp:343-374 | and it never runs afterwards |
| `StopToken.NeverTouchesDead` | stdexec-nvhpc-25.09/include/stdexec/stop_token.hpp:251-374 | no step reads or writes a callback whose destructor has returned, self-removal inside the body and list neighbours included |
| `StopToken.FlagIsAlive` | stdexec-nvhpc-25.09/include/stdexec/stop_token.hpp:260-268 | a destructor that writes the removed flag does so while the winner's frame holds it and before the winner reads it |
| `StopToken.CallbackList.LinkFront` | stdexec-nvhpc-25.09/include/stdexec/stop_token.hpp:331-336 | linking in place puts the node in front and keeps `*prev_ptr == node` for all nodes |
| `StopToken.CallbackList.Remove` | stdexec-nvhpc-25.09/include/stdexec/stop_token.hpp:347-353 | unlinking in place takes out that node and no other, from any position |
| `StopToken.CallbackList.PopFront` | stdexec-nvhpc-25.09/include/stdexec/stop_token.hpp:252-256 | one turn of the notify loop takes the first node and marks it as taken |
| `StopToken.CallbackList.NotifyAll` | stdexec-nvhpc-25.09/include/stdexec/stop_token.hpp:251-271 | without interference the loop visits every callback in list order and leaves the list empty |
| `StopToken.WithoutAt` | stdexec-nvhpc-25.09/include/stdexec/stop_token.hpp:350-353 | removing by identity is cutting the list at the node's position |
| `StopHistory.ProgramOrder` | stdexec-nvhpc-25.09/include/stdexec/stop_token.hpp:277-374 | a constructor links its callback unless stop was requested, and then runs the body itself; a destructor takes the callback off the list if it is there, and otherwise waits for its body, unless it is on the notifying thread |
| `StopHistory.NotifierOrder` | stdexec-nvhpc-25.09/include/stdexec/stop_token.hpp:244-275 | the winning call goes through the notify loop in order on one thread, always about the callback it took last, and marks that as completed if and only if its body did not destroy it |
| `StopHistory.StopMeans` | stdexec-nvhpc-25.09/include/stdexec/stop_token.hpp:244-323 | the stop bit is set exactly from the first call of `request_stop` on, and the loop is over exactly after its last step |
| `StopHistory.RunsMeans` | stdexec-nvhpc-25.09/include/stdexec/stop_token.hpp:227-268 | the number of runs of which `CallbackRunsOnce` speaks is that of the actions that start the body |
| `StopHistory.NewestFirst` | stdexec-nvhpc-25.09/include/stdexec/stop_token.hpp:325-341 | the list always holds the newest callback first, so callbacks are notified in the reverse of the order of registration |
| `StopHistory.StackMeans` | stdexec-nvhpc-25.09/include/stdexec/stop_token.hpp:227-374 | the calls a thread is in are those it began and has not returned from, nested |
| `StopHistory.WaitIsFor` | stdexec-nvhpc-25.09/include/stdexec/stop_token.hpp:367-372 | a destructor spins only for the callback that the notifier, on another thread, has taken and not yet marked as completed |
| `StopHistory.NeverStuck` | stdexec-nvhpc-25.09/include/stdexec/stop_token.hpp:227-374 | no deadlock: whatever bodies construct, destroy and stop, to any depth, while any thread is in a call some thread can take a step of its innermost one |
| `WorkerSleep.StepInv` | stdexec-nvhpc-25.09/include/exec/static_thread_pool.hpp:1015-1079 | every step of every worker, enqueuer and stopper keeps the handshake's invariant, spurious wakeups and weak exchange failures included |
| `WorkerSleep.NoLostWakeup` | stdexec-nvhpc-25.09/include/exec/static_thread_pool.hpp:833-860 | a blocked worker with a remote task has a signal on its way or the enqueuer of that very queue has yet to notify; with a stop request, the notification of `request_stop` is still to come |
| `WorkerSleep.WakeupDelivered` | stdexec-nvhpc-25.09/include/exec/static_thread_pool.hpp:1062-1079 | from any such state one thread alone can wake the worker within three of its own steps |
| `WorkerSleep.CounterExact` | stdexec-nvhpc-25.09/include/exec/static_thread_pool.hpp:972-998 | with at most 65535 workers the halves of the counter are the numbers of awake and of stealing workers in every reachable state, in spite of modular updates |
| `WorkerSleep.CounterExactIff` | stdexec-nvhpc-25.09/include/exec/static_thread_pool.hpp:727 | a fresh pool's counter is right if and only if there are fewer than 65536 workers |
| `WorkerSleep.PackedUpdates` | stdexec-nvhpc-25.09/include/exec/static_thread_pool.hpp:972-993 | each 32-bit update moves exactly one unit between the halves, without a borrow |
| `WorkerSleep.WakeTestsMean` | stdexec-nvhpc-25.09/include/exec/static_thread_pool.hpp:976-998 | the two wake-up tests hold exactly when the worker was the only thief with somebody awake, or nobody was awake or stealing |
| `WorkerSleep.ActiveCounter.SetStealing` | stdexec-nvhpc-25.09/include/exec/static_thread_pool.hpp:985-988 | in place: one fewer awake, one more stealing |
| `WorkerSleep.ActiveCounter.ClearStealing` | stdexec-nvhpc-25.09/include/exec/static_thread_pool.hpp:991-999 | in place: the reverse, and wakes another iff it was the last thief with a victim awake |
| `WorkerSleep.ActiveCounter.SetSleeping` | stdexec-nvhpc-25.09/include/exec/static_thread_pool.hpp:972-974 | in place: one fewer awake, thieves unchanged |
| `WorkerSleep.ActiveCounter.ClearSleeping` | stdexec-nvhpc-25.09/include/exec/static_thread_pool.hpp:977-983 | in place: one more awake, and wakes another iff nobody was active |
| `WorkerSleep.NotifyOneSleeping` | stdexec-nvhpc-25.09/include/exec/static_thread_pool.hpp:1001-1013 | the cyclic scan signals the first sleeping worker other than the caller, none iff none sleeps, and marks exactly the workers it passes |
| `WorkerHistory.RemoteCounts` | stdexec-nvhpc-25.09/include/exec/static_thread_pool.hpp:833-860 | a remote queue holds exactly the tasks pushed since its worker last emptied it: no enqueue loses its task, and no task leaves but by a visit |
| `WorkerHistory.StopMeans` | stdexec-nvhpc-25.09/include/exec/static_thread_pool.hpp:1073-1079 | a worker's stop flag is set if and only if a stop was requested of it |
| `WorkerHistory.FlagMeans` | stdexec-nvhpc-25.09/include/exec/static_thread_pool.hpp:1042-1063 | a `state_` word holds what the worker or a notification stored in it last |
| `WorkerHistory.ProgramOrder` | stdexec-nvhpc-25.09/include/exec/static_thread_pool.hpp:1015-1060 | a worker goes through `pop` in order: it runs a task if and only if it got one, goes for its lock only empty-handed, and leaves exactly if it reads its stop flag set |
| `WorkerHistory.StealKept` | stdexec-nvhpc-25.09/include/exec/static_thread_pool.hpp:1020-1036 | what a steal found is what the worker goes by after it has left the thieves |
| `WorkerHistory.VisitsEachOnce` | stdexec-nvhpc-25.09/include/exec/static_thread_pool.hpp:916-930 | one search of the remote queues visits each of them once and leaves none out |
| `WorkerHistory.AgentOrder` | stdexec-nvhpc-25.09/include/exec/static_thread_pool.hpp:1062-1079 | an enqueuer pushes before it notifies and signals the condition variable if and only if its exchange finds the worker asleep; a stopper sets the flag and then signals; both stay with the same worker |
| `WorkerHistory.NeverStuck` | stdexec-nvhpc-25.09/include/exec/static_thread_pool.hpp:1015-1060 | every worker that has not left can take its next step |
| `EvenShare.ShareIsExact` | stdexec-nvhpc-25.09/include/exec/static_thread_pool.hpp:63-78 | for all 64-bit sizes nothing wraps and rank r gets the r-th range of the ideal partition |
| `EvenShare.ShareSizes` | stdexec-nvhpc-25.09/include/exec/static_thread_pool.hpp:68-75 | sizes differ by at most one, the larger ones first |
| `EvenShare.Tiles` | stdexec-nvhpc-25.09/include/exec/static_thread_pool.hpp:52-78 | the ranges tile `[0, n)`: every element belongs to one rank and to no other |
| `Bulk.NumAgentsIff` | stdexec-nvhpc-25.09/include/exec/static_thread_pool.hpp:1287-1297 | for every signed and unsigned shape type the agent count is the documented minimum if and only if the thread count survives its conversion to that type, or converts to at least the shape |
| `Bulk.UsableIff` | stdexec-nvhpc-25.09/include/exec/static_thread_pool.hpp:1287-1297 | a non-empty shape gets at least one agent and no more than there are threads if and only if the converted count is positive, or is negative and comes out as the thread count itself |
| `Bulk.AgentsOfInit` | stdexec-nvhpc-25.09/include/exec/static_thread_pool.hpp:1314-1320 | what the runs below start from is derived from that condition |
| `Bulk.NumAgentsWrong` | stdexec-nvhpc-25.09/include/exec/static_thread_pool.hpp:1290-1293 | a pool of 200 threads and a signed 8-bit shape of 100 get 4294967240 agents |
| `Bulk.NumAgentsZero` | stdexec-nvhpc-25.09/include/exec/static_thread_pool.hpp:1290-1293 | a pool of 256 threads and an unsigned 8-bit shape of 5 get no agent |
| `Bulk.ConvertMeans` | stdexec-nvhpc-25.09/include/exec/static_thread_pool.hpp:1290-1293 | the conversion is the value in the range of the type that is congruent to the thread count, and no other |
| `Bulk.NoAgents` | stdexec-nvhpc-25.09/include/exec/static_thread_pool.hpp:1349-1377 | without agents for a non-empty shape nothing runs and no completion is ever sent |
| `Bulk.TooManyAgents` | stdexec-nvhpc-25.09/include/exec/static_thread_pool.hpp:862-869 | with more agents than threads, once the tasks 0 and `par` have started, two calls were made with the same rank |
| `Bulk.StepInv` | stdexec-nvhpc-25.09/include/exec/static_thread_pool.hpp:1215-1265 | every step of enqueuer, owners, thieves and agents keeps the bulk invariant |
| `Bulk.RankIsOrigin` | stdexec-nvhpc-25.09/include/exec/static_thread_pool.hpp:862-949 | whoever runs a task after whatever thefts, and however many agents there are, its rank is the index of the queue it was pushed to |
| `Bulk.RanksAreOwn` | stdexec-nvhpc-25.09/include/exec/static_thread_pool.hpp:862-949 | with a usable number of agents that is the task's own index, and each runs at most once |
| `Bulk.CompletesOnce` | stdexec-nvhpc-25.09/include/exec/static_thread_pool.hpp:1244-1263 | at most one completion, only after all agents, and exactly one when all have finished |
| `Bulk.ErrorIffThrown` | stdexec-nvhpc-25.09/include/exec/static_thread_pool.hpp:1231-1254 | the completion is an error if and only if some agent threw, and then one of theirs |
| `Bulk.ShapeCoveredOnce` | stdexec-nvhpc-25.09/include/exec/static_thread_pool.hpp:1215-1225 | at completion every element of the shape was handed to the function by one call and by no other |
| `BulkHistory.EnabledIff` | stdexec-nvhpc-25.09/include/exec/static_thread_pool.hpp:862-949 | the operation told by its past alone: an action is possible if and only if it is due, a task going from the submitter's queue to a worker's, into the function, on an exception through exchange and store, to the count, and the last one to the completion |
| `BulkHistory.FirstIsKept` | stdexec-nvhpc-25.09/include/exec/static_thread_pool.hpp:1231-1254 | the exception that is kept and sent is that of the first task to reach the exchange |
| `BulkHistory.HistoryMeans` | stdexec-nvhpc-25.09/include/exec/static_thread_pool.hpp:1215-1254 | the callers and throwers of which the results above speak are those of the actions |
| `BulkHistory.NeverStuck` | stdexec-nvhpc-25.09/include/exec/static_thread_pool.hpp:1215-1265 | every task that has not finished can take a step or be pushed |
| `Bulk.BulkSharedState.FinishAgent` | stdexec-nvhpc-25.09/include/exec/static_thread_pool.hpp:1235-1254 | in place: the first exception is kept, the last agent completes with it or with a value |
| `Bulk.BulkSharedState.FinishAll` | stdexec-nvhpc-25.09/include/exec/static_thread_pool.hpp:1231-1254 | agents in any order: an error iff one threw, and the first to throw is reported |
| `Plugin.RunShare` | plugin/plugin.cpp:90-98 | one agent's loop counts the odd ids of its range |
| `Plugin.FailuresOfAll` | plugin/plugin.cpp:117-130 | calls for all ranks, in any order, together count half of the elements below the last rank's end |
| `Plugin.FailureCount` | plugin/plugin.cpp:100-142 | in every run of the pool's bulk operation, from zero tasks on, `failure_count` ends as `task_count / 2`, and the exit code is 1 iff there were two tasks or more |
| `Plugin.KeyTable.Create` | plugin/plugin.cpp:48-57 | a key is created exactly while there is room, and it is a fresh one |
| `Plugin.Registry.Init` | plugin/plugin.cpp:65-70 | forgets all keys tracked so far |
| `Plugin.Registry.WrapCreate` | plugin/plugin.cpp:55-63 | tracks a key exactly when its creation succeeded |
| `Plugin.Registry.Fini` | plugin/plugin.cpp:72-84 | deletes the tracked keys; the table loses exactly the library's own ones if and only if no tracked key has passed to somebody else |
| `Plugin.Registry.Cycles` | plugin/plugin.cpp:50-84 | over any number of load, use and unload cycles the live keys are unchanged, and no creation fails if and only if each cycle's keys fit into the room there was before the first |
| `Plugin.Registry.CycleWithEarly` | plugin/plugin.cpp:65-84 | a cycle restores the table if and only if no key was created before `plugin_init`; otherwise just those leak |
| `Plugin.Registry.Reissue` | plugin/plugin.cpp:55-84 | a key the library deleted itself is deleted again on unloading, which takes away another library's key exactly when it was given the same index |
| `Plugin.Leak` | leak.cpp:6-13 | a key for every call: exactly the calls beyond the room fail |
| `Maxwell.SlotDistinct` | stdexec-nvhpc-25.09/examples/nvexec/maxwell_distributed.cpp:63-66 | different cells of the seven fields, halo rows included, are different elements of the allocation |
| `Maxwell.Slot` | stdexec-nvhpc-25.09/examples/nvexec/maxwell_distributed.cpp:44-67 | every index from the lower to the upper halo row stays in its own field's slice |
| `Maxwell.NeighboursInSlice` | stdexec-nvhpc-25.09/examples/nvexec/maxwell_distributed.cpp:280-298 | the neighbours of an own cell are own cells, or one row away and in the slice |
| `Maxwell.NeighboursMean` | stdexec-nvhpc-25.09/examples/nvexec/maxwell_distributed.cpp:280-288 | the right and the left neighbour are the next and the previous column of the same row, cyclically |
| `Maxwell.HFunctor` | stdexec-nvhpc-25.09/examples/nvexec/maxwell_distributed.cpp:304-317 | one cell's magnetic update in place changes that cell alone |
| `Maxwell.EFunctor` | stdexec-nvhpc-25.09/examples/nvexec/maxwell_distributed.cpp:344-369 | one cell's electric update in place, with the source and the clock on the cell that owns them |
| `Maxwell.UpdateH` | stdexec-nvhpc-25.09/examples/nvexec/maxwell_distributed.cpp:504-506 | the magnetic half step in place has the same result for every order of the cells |
| `Maxwell.UpdateE` | stdexec-nvhpc-25.09/examples/nvexec/maxwell_distributed.cpp:509-513 | so has the electric half step, and the clock advances once, on the owner of the source |
| `MaxwellRanks.RowForEachIff` | stdexec-nvhpc-25.09/examples/nvexec/maxwell_distributed.cpp:410-412 | every rank has a row to send if and only if there are no more ranks than rows |
| `MaxwellRanks.BandFacts` | stdexec-nvhpc-25.09/examples/nvexec/maxwell_distributed.cpp:410-412 | for up to one rank a row the bands are whole rows, at least one each, and join to the whole grid |
| `MaxwellRanks.SameNeighbours` | stdexec-nvhpc-25.09/examples/nvexec/maxwell_distributed.cpp:280-288 | the local neighbours of a rank are those of the periodic grid, which is defined on rows and columns |
| `MaxwellRanks.SourceIs` | stdexec-nvhpc-25.09/examples/nvexec/maxwell_distributed.cpp:372-377 | the source cell is the one in row n/2, column n/2 |
| `MaxwellRanks.HRefines` | stdexec-nvhpc-25.09/examples/nvexec/maxwell_distributed.cpp:301-318 | with a fresh upper halo the magnetic half step on a band is that of the periodic grid |
| `MaxwellRanks.ERefines` | stdexec-nvhpc-25.09/examples/nvexec/maxwell_distributed.cpp:326-370 | with a fresh lower halo and the owner's clock the electric half step on a band is that of the periodic grid |
| `MaxwellRanks.Transfer` | stdexec-nvhpc-25.09/examples/nvexec/maxwell_distributed.cpp:440-450 | one message copies a row of one field and nothing else, to another rank or to the same one |
| `MaxwellRanks.ExchangeHx` | stdexec-nvhpc-25.09/examples/nvexec/maxwell_distributed.cpp:435-451 | every rank receives the last row its predecessor had, on the ring |
| `MaxwellRanks.ExchangeEz` | stdexec-nvhpc-25.09/examples/nvexec/maxwell_distributed.cpp:453-465 | every rank receives the first row its successor had |
| `MaxwellRanks.HxExchangeRefines` | stdexec-nvhpc-25.09/examples/nvexec/maxwell_distributed.cpp:438-451 | the received lower halo row is the periodic neighbour row, for one rank or many |
| `MaxwellRanks.EzExchangeRefines` | stdexec-nvhpc-25.09/examples/nvexec/maxwell_distributed.cpp:453-465 | the received upper halo row is the periodic neighbour row |
| `MaxwellRanks.TimeStep` | stdexec-nvhpc-25.09/examples/nvexec/maxwell_distributed.cpp:503-518 | one turn of the time loop on all ranks is one step of the periodic grid |
| `MaxwellRanks.Simulate` | stdexec-nvhpc-25.09/examples/nvexec/maxwell_distributed.cpp:467-518 | for every grid, rank count up to the number of rows, number of steps and cell order, the ranks end with the slices of the periodic grid stepped by one process |
| `AsyncScope.StepInv` | stdexec-nvhpc-25.09/include/exec/async_scope.hpp:80-233 | every step of operations, waiters and the scope's destruction keeps the invariant |
| `AsyncScope.ActiveCounts` | stdexec-nvhpc-25.09/include/exec/async_scope.hpp:155-233 | the count is the number of nested operations started and not finished, and waiters are kept only while it is not zero |
| `AsyncScope.WaitersStartOnce` | stdexec-nvhpc-25.09/include/exec/async_scope.hpp:80-169 | a waiter starts at most once, only after the count was zero at or after its arrival, and has started once everybody is done |
| `AsyncScope.DestroyedIsUntouched` | stdexec-nvhpc-25.09/include/exec/async_scope.hpp:155-169 | a completer that unlocked at zero never touches the scope again, so it may be destroyed at once |
| `AsyncScope.Scope.Act` | stdexec-nvhpc-25.09/include/exec/async_scope.hpp:80-233 | in place: each section of the code ends in the protocol's next state, gives the completer the waiters it is to notify, and tells a waiter whether it waits |
| `AsyncScope.Scope.Replay` | stdexec-nvhpc-25.09/include/exec/async_scope.hpp:80-233 | the object goes through every run of the protocol and hands out the same waiters |
| `AsyncScope.Scope.Complete` | stdexec-nvhpc-25.09/include/exec/async_scope.hpp:155-169 | in place: the completer that reaches zero takes all waiters, in order, and leaves none |
| `ScopeHistory.OperationLife` | stdexec-nvhpc-25.09/include/exec/async_scope.hpp:155-233 | a nested operation is started once, completes once, and starts waiters only between its section and its return |
| `ScopeHistory.SawZeroMeans` | stdexec-nvhpc-25.09/include/exec/async_scope.hpp:80-169 | what `WaitersStartOnce` calls having seen zero: the count was zero when the waiter arrived or at some time since |
| `ScopeHistory.StartsMeans` | stdexec-nvhpc-25.09/include/exec/async_scope.hpp:80-169 | the starts it counts are the immediate one at a zero count and those by completers |
| `ScopeHistory.OldestFirst` | stdexec-nvhpc-25.09/include/exec/async_scope.hpp:80-169 | waiters are queued and started in the order in which they came |
| `ScopeHistory.CallersMay` | stdexec-nvhpc-25.09/include/exec/async_scope.hpp:80-233 | operations start and waiters come at any time before the destruction, each once, and the scope may be destroyed if and only if no operation is active |
| `ScopeHistory.NeverStuck` | stdexec-nvhpc-25.09/include/exec/async_scope.hpp:155-169 | every operation that has not returned can take its next step |
| `FutureState.StepInv` | stdexec-nvhpc-25.09/include/exec/async_scope.hpp:315-673 | every step of sender, future, consumer and the two stop callbacks keeps the accounting of owner, step, completion and registered callbacks, if early frees are of completed senders only |
| `FutureState.TouchedIff` | stdexec-nvhpc-25.09/include/exec/async_scope.hpp:287-673 | in every such run freed memory is used if and only if a call of the consumer's stop callback begins or ends after the state was freed: no other step ever does, the scope's callback included |
| `FutureState.StepsAreSound` | stdexec-nvhpc-25.09/include/exec/async_scope.hpp:315-673 | no assertion fails, nothing is used after it is freed, and the step goes created, future, deleted, or through no_future, or straight to deleted, if besides the consumer's callback is not being called when an unstarted consumer's destruction begins nor is called during it |
| `FutureState.FreedOnce` | stdexec-nvhpc-25.09/include/exec/async_scope.hpp:364-377 | the shared state is freed at most once, and exactly once when all parties are done |
| `FutureState.CompletedOnce` | stdexec-nvhpc-25.09/include/exec/async_scope.hpp:315-407 | a started consumer is completed at most once, and exactly once when all parties are done |
| `FutureState.NotStartedNotCompleted` | stdexec-nvhpc-25.09/include/exec/async_scope.hpp:392-407 | a consumer that is never started is never completed |
| `FutureState.EarlyFreeIff` | stdexec-nvhpc-25.09/include/exec/async_scope.hpp:379-390 | after a move assignment over a future, or a consumer's constructor that throws, a step can use freed memory if and only if the sender had not completed |
| `FutureState.ForwardIff` | stdexec-nvhpc-25.09/include/exec/async_scope.hpp:364-390 | a call of the consumer's callback that begins or ends after the section of an unstarted consumer's destructor uses freed memory if and only if the sender deleted the state between the two |
| `FutureState.DeleteIff` | stdexec-nvhpc-25.09/include/exec/async_scope.hpp:532-538 | the sender's deletion leaves a step that uses freed memory if and only if that callback may still be called or has not returned, which is only while such a consumer is being destroyed |
| `FutureState.MoveAssignHurts` | stdexec-nvhpc-25.09/include/exec/async_scope.hpp:636-637 | the shortest run with an early free that is used afterwards |
| `FutureState.ForwardHurts` | stdexec-nvhpc-25.09/include/exec/async_scope.hpp:364-390 | the shortest run with a call that begins too late |
| `FutureState.ForwardEndHurts` | stdexec-nvhpc-25.09/include/exec/async_scope.hpp:364-390 | and one with a call that begins before the destruction and ends too late |
| `FutureState.SharedState.Act` | stdexec-nvhpc-25.09/include/exec/async_scope.hpp:315-673 | in place: each section of the code ends in the protocol's next state, and what it answers is what its caller does next |
| `FutureState.SharedState.Replay` | stdexec-nvhpc-25.09/include/exec/async_scope.hpp:315-673 | the object goes through every run of the protocol, faulty ones included, with the same answers |
| `FutureHistory.EnabledIff` | stdexec-nvhpc-25.09/include/exec/async_scope.hpp:315-673 | the protocol told by its past alone: an action is possible if and only if it is due, with the sender deleting the state exactly if the future or its consumer was dropped before its section, and completing the consumer exactly if that was started before |
| `FutureHistory.OnceEach` | stdexec-nvhpc-25.09/include/exec/async_scope.hpp:315-673 | everything happens at most once |
| `FutureHistory.FaultMeans` | stdexec-nvhpc-25.09/include/exec/async_scope.hpp:487-508 | the fault that `StepsAreSound` excludes is recorded exactly when a step finds another value than its assertion asks for |
| `FutureHistory.PathMeans` | stdexec-nvhpc-25.09/include/exec/async_scope.hpp:487-508 | the path it speaks of holds every value the step has had |
| `FutureHistory.NeverStuck` | stdexec-nvhpc-25.09/include/exec/async_scope.hpp:315-673 | until everybody is through something other than the call of a callback is possible |
| `TimedThread.LessIsTotal` | stdexec-nvhpc-25.09/include/exec/timed_thread_scheduler.hpp:62-65 | the comparison is a strict total order by time and then submission |
| `TimedThread.StepInv` | stdexec-nvhpc-25.09/include/exec/timed_thread_scheduler.hpp:132-302 | every step of operations, submissions and the context's thread keeps the accounting of references and submissions |
| `TimedThread.CompletesOnce` | stdexec-nvhpc-25.09/include/exec/timed_thread_scheduler.hpp:236-302 | whatever races with what, an operation completes at most once, and with a value only after its deadline |
| `TimedThread.CompletedIffNotLeftBehind` | stdexec-nvhpc-25.09/include/exec/timed_thread_scheduler.hpp:161-190 | after shutdown a started operation has completed if and only if none of its commands was left in the queue |
| `TimedThread.RefusedIff` | stdexec-nvhpc-25.09/include/exec/timed_thread_scheduler.hpp:179-191 | a submission is completed inline if and only if the context is closed and fewer than 2^62 submissions found it so before |
| `TimedThread.RecloseFails` | stdexec-nvhpc-25.09/include/exec/timed_thread_scheduler.hpp:188-189 | the exchange after an inline completion never changes the count |
| `TimedThread.QueueFrozen` | stdexec-nvhpc-25.09/include/exec/timed_thread_scheduler.hpp:162-190 | from closing on, and up to 2^62 refusals, nothing enters or leaves the command queue |
| `TimedThread.ExactlyOnceAfterCleanClose` | stdexec-nvhpc-25.09/include/exec/timed_thread_scheduler.hpp:132-198 | if the queue is empty when the context closes, every operation started before or later, up to 2^62 refusals, completes exactly once |
| `TimedThread.FireInOrder` | stdexec-nvhpc-25.09/include/exec/timed_thread_scheduler.hpp:149-154 | of two operations in the heap together the later key does not fire before the earlier one is done |
| `TimedThread.Timer.Front` | stdexec-nvhpc-25.09/include/exec/timed_thread_scheduler.hpp:149-153 | the front of the heap is the least key |
| `TimedThread.Timer.FireDue` | stdexec-nvhpc-25.09/include/exec/timed_thread_scheduler.hpp:148-154 | in place: the firing loop fires every due task and no other, in key order |
| `TimedHistory.StoppedMeans` | stdexec-nvhpc-25.09/include/exec/timed_thread_scheduler.hpp:236-302 | an operation is completed as stopped only if a stop was requested of it or the context is closed |
| `TimedHistory.FireSends` | stdexec-nvhpc-25.09/include/exec/timed_thread_scheduler.hpp:148-154 | a timer that fires for an operation nobody asked to stop sends the value there and then |
| `TimedHistory.DrainStops` | stdexec-nvhpc-25.09/include/exec/timed_thread_scheduler.hpp:168-174 | when the closed context drains its heap, an operation nobody asked to stop is completed as stopped |
| `TimedHistory.StopTakesOut` | stdexec-nvhpc-25.09/include/exec/timed_thread_scheduler.hpp:139-146 | when a stop command has been handled its operation is not in the heap |
| `TimedHistory.OpMeans` | stdexec-nvhpc-25.09/include/exec/timed_thread_scheduler.hpp:268-302 | an operation exists from its start on, with the deadline given there; its callback has fired, is deregistered, and its exchange is over exactly after those steps |
| `TimedHistory.QueueMeans` | stdexec-nvhpc-25.09/include/exec/timed_thread_scheduler.hpp:134-192 | the command queue is first in, first out: it holds the commands pushed except for as many as were taken |
| `TimedHistory.KeyMeans` | stdexec-nvhpc-25.09/include/exec/timed_thread_scheduler.hpp:135-138 | a schedule command puts its operation in the heap under its deadline and its number among the schedule commands |
| `TimedHistory.ProgramOrder` | stdexec-nvhpc-25.09/include/exec/timed_thread_scheduler.hpp:132-176 | the context's thread empties the queue, fires what is due, waits, and closes exactly if it finds the stop flag set, after which it drains the heap |
| `TimedHistory.FiresTheDue` | stdexec-nvhpc-25.09/include/exec/timed_thread_scheduler.hpp:148-154 | what the firing loop fires was due at the clock reading before it, and the loop ends only when nothing in the heap is |
| `TimedHistory.QueueIsEmpty` | stdexec-nvhpc-25.09/include/exec/timed_thread_scheduler.hpp:134-147 | the clock is read only when every command pushed so far has been handled |
| `TimedHistory.ResetMeans` | stdexec-nvhpc-25.09/include/exec/timed_thread_scheduler.hpp:236-262 | an operation's stop callback is deregistered only by whoever completes it |
| `TimedHistory.SubmissionOrder` | stdexec-nvhpc-25.09/include/exec/timed_thread_scheduler.hpp:179-198 | the steps of a submission come in the order of the code |
| `TimedHistory.NeverStuck` | stdexec-nvhpc-25.09/include/exec/timed_thread_scheduler.hpp:132-176 | the thread can always go on until it has exited, unless it is closing while a submission is under way |
| `Trampoline.Thread.Start` | stdexec-nvhpc-25.09/include/exec/trampoline_scheduler.hpp:71-84 | for every finite tree of nested starts the outermost call executes each operation once and ends with an empty list, never deeper than the limit or one; a nested call executes its operation at once if and only if the depth is below the limit, and otherwise defers it in front |
| `Trampoline.Thread.Execute` | stdexec-nvhpc-25.09/include/exec/trampoline_scheduler.hpp:67-83 | executing an operation loses none of what it starts, and the unexecuted remainder shrinks |
| `Trampoline.Thread.Drain` | stdexec-nvhpc-25.09/include/exec/trampoline_scheduler.hpp:168-174 | the drain loop executes everything deferred and terminates |
| `RepeatN.ExpectedMeans` | stdexec-nvhpc-25.09/include/exec/repeat_n.hpp:149-169 | a value is sent if and only if all `count` runs succeed and no reconnection throws, after exactly `count` starts; otherwise the first failure is forwarded and nothing is started after it |
| `RepeatN.State.Complete` | stdexec-nvhpc-25.09/include/exec/repeat_n.hpp:149-169 | in place: destroys the child, then completes or rebuilds and starts it |
| `RepeatN.State.Start` | stdexec-nvhpc-25.09/include/exec/repeat_n.hpp:138-147 | in place: a count of zero sends a value without a start; otherwise the outcome is the expected one |
| `RepeatN.State.Destroy` | stdexec-nvhpc-25.09/include/exec/repeat_n.hpp:121-129 | in place: afterwards as many children were destroyed as constructed |
| `RepeatN.Life` | stdexec-nvhpc-25.09/include/exec/repeat_n.hpp:115-169 | every constructed child is destroyed exactly once, whether never started, count zero, connect throwing, or finished |
| `RepeatN.RunOverTrampoline` | stdexec-nvhpc-25.09/include/exec/repeat_n.hpp:131-160 | whatever the children do and for every count, the stack holds at most sixteen executions, and the turns executed on the trampoline, each once, are exactly the child's starts |
| `WhenAny.StepInv` | stdexec-nvhpc-25.09/include/exec/when_any.hpp:117-225 | every step of `start`, the children and the stop callback keeps the invariant |
| `WhenAny.CompletesOnce` | stdexec-nvhpc-25.09/include/exec/when_any.hpp:117-225 | at most one completion, exactly one when all children have finished; a refused start sends stopped and starts no child |
| `WhenAny.LastSendsFirst` | stdexec-nvhpc-25.09/include/exec/when_any.hpp:121-150 | the completion comes from the last child after all others, and carries the first winner's result, the exception thrown while storing it, or stopped if the receiver's token is; the result is never missing |
| `WhenAny.CountMeans` | stdexec-nvhpc-25.09/include/exec/when_any.hpp:140 | the count is the number of children yet to decrement it and never wraps |
| `WhenAny.NobodyTouchesIt` | stdexec-nvhpc-25.09/include/exec/when_any.hpp:140-151 | once a child has sent the completion from outside the stop callback, no child and no callback touches the operation |
| `WhenAny.RefusedIff` | stdexec-nvhpc-25.09/include/exec/when_any.hpp:217-222 | after a refused start the rest of the stop callback is the one step that still can, if and only if it was running when `start` looked |
| `WhenAny.InlineIff` | stdexec-nvhpc-25.09/include/exec/when_any.hpp:140-151 | a child's completion leaves the rest of the callback to come if and only if the child sent it from inside the callback |
| `WhenAny.DestroyedIff` | stdexec-nvhpc-25.09/include/exec/when_any.hpp:103-107 | destroying the operation waits for the callback, so that nothing touches it afterwards, except for the callback from inside which the completion was sent |
| `WhenAny.InlineStopHurts` | stdexec-nvhpc-25.09/include/exec/when_any.hpp:31-37 | a concrete run of that kind: one child whose stop callback completes it |
| `WhenAny.OpBase.Notify` | stdexec-nvhpc-25.09/include/exec/when_any.hpp:117-151 | in place: the first caller stores and requests stop, the one that reaches zero sends |
| `WhenAny.StartInline` | stdexec-nvhpc-25.09/include/exec/when_any.hpp:217-225 | children that complete inside their own start: the first one's signal is sent |
| `WhenAnyHistory.StopMeans` | stdexec-nvhpc-25.09/include/exec/when_any.hpp:117-225 | the children are told to stop exactly from the winner's request, or the receiver's, on |
| `WhenAnyHistory.RefusedMeans` | stdexec-nvhpc-25.09/include/exec/when_any.hpp:217-225 | `start` gives up if and only if the inner stop was requested before it looked, and starts from the first child otherwise |
| `WhenAnyHistory.StartedMeans` | stdexec-nvhpc-25.09/include/exec/when_any.hpp:223-225 | child c has been started exactly after c + 1 starts: they are started in order |
| `WhenAnyHistory.SendsMean` | stdexec-nvhpc-25.09/include/exec/when_any.hpp:117-151 | what the completion carries, told by the actions: stopped if the receiver has been, else the exception if copying the first notification's arguments threw, else that notification |
| `WhenAnyHistory.LogMeans` | stdexec-nvhpc-25.09/include/exec/when_any.hpp:117-132 | the log of which `LastSendsFirst` speaks holds the signals in the order of the notifications |
| `WhenAnyHistory.ProgramOrder` | stdexec-nvhpc-25.09/include/exec/when_any.hpp:117-151 | the first child to notify stores its signal and requests the inner stop before it decrements, the others decrement at once, and the last to do so disarms the callback and completes |
| `WhenAnyHistory.CallbackMeans` | stdexec-nvhpc-25.09/include/exec/when_any.hpp:31-37 | the callback is called at most once: inside its registration if the receiver had been stopped, and otherwise from a beginning to an end |
| `WhenAnyHistory.NeverStuck` | stdexec-nvhpc-25.09/include/exec/when_any.hpp:117-225 | until something is sent `start`, a child or the callback can go on, without any stop request |
| `CompletionToken.StepInv` | stdexec-nvhpc-25.09/include/asioexec/completion_token.hpp:128-327 | every frame, handler and exception step on any thread keeps the invariant of mutex, stacks and handler |
| `CompletionToken.CompletedWhenIdle` | stdexec-nvhpc-25.09/include/asioexec/completion_token.hpp:160-175 | at most one completion, and it has been sent if and only if no handler is left and no frame is open that was not neutralised |
| `CompletionToken.FirstExceptionWins` | stdexec-nvhpc-25.09/include/asioexec/completion_token.hpp:195-207 | the first exception that escaped from a frame is what is reported; without one an invocation sends its value or the conversion's exception, a drop sends stopped |
| `CompletionToken.InvocationNeutralises` | stdexec-nvhpc-25.09/include/asioexec/completion_token.hpp:247-270 | an invocation releases every open frame before it completes, and closing those frames later touches nothing |
| `CompletionToken.CompletedIsUntouched` | stdexec-nvhpc-25.09/include/asioexec/completion_token.hpp:302-327 | after the completion no owned frame and no live handler remains, which is what `start` relies on when it tests its frame |
| `CompletionToken.FramesNest` | stdexec-nvhpc-25.09/include/asioexec/completion_token.hpp:160-191 | the assertions on frames hold: the frame closed is the innermost, and those released belong to the invoking thread and give the recursive mutex back |
| `CompletionToken.CatchIff` | stdexec-nvhpc-25.09/include/asioexec/completion_token.hpp:302-327 | an exception that reaches a frame finds the operation completed if and only if the handler was invoked before, which is when the frame no longer owns its lock |
| `CompletionToken.InvokeThenThrow` | stdexec-nvhpc-25.09/include/asioexec/completion_token.hpp:314-319 | a concrete run in which `start`'s catch block is reached after the completion |
| `CompletionToken.OperationState.Open` | stdexec-nvhpc-25.09/include/asioexec/completion_token.hpp:151-156 | in place: links the frame as the innermost |
| `CompletionToken.OperationState.Close` | stdexec-nvhpc-25.09/include/asioexec/completion_token.hpp:160-175 | in place: unlinks it and completes if it was the last and the handler is gone; a released frame does nothing |
| `CompletionToken.OperationState.Release` | stdexec-nvhpc-25.09/include/asioexec/completion_token.hpp:181-191 | in place: the loop unlocks and unlinks every frame |
| `CompletionToken.OperationState.Run` | stdexec-nvhpc-25.09/include/asioexec/completion_token.hpp:194-207 | in place: a call inside a frame of its own leaves the frames as they were and keeps the first exception |
| `CompletionToken.OperationState.DropThenRun` | stdexec-nvhpc-25.09/include/asioexec/completion_token.hpp:194-244 | in place: with the handler dropped inside `start`'s frame, the frame completes the receiver with the first exception that any of the calls after it let out, or with stopped if none did |
| `CompletionToken.OperationState.DropHandler` | stdexec-nvhpc-25.09/include/asioexec/completion_token.hpp:236-244 | in place: the handler's destructor completes at once or leaves it to the frames above |
| `CompletionToken.OperationState.Invoke` | stdexec-nvhpc-25.09/include/asioexec/completion_token.hpp:247-270 | in place: releases all frames and sends one signal: the first exception there was, else the value if the conversion does not throw, else its exception |
| `CompletionHistory.SendMeans` | stdexec-nvhpc-25.09/include/asioexec/completion_token.hpp:247-270 | an invocation sends the first exception caught; without one its value if the conversion does not throw, and the conversion's exception if it does |
| `CompletionHistory.RaisedMeans` | stdexec-nvhpc-25.09/include/asioexec/completion_token.hpp:195-207 | the exceptions that count are those the frames caught, in that order |
| `CompletionHistory.InvokedMeans` | stdexec-nvhpc-25.09/include/asioexec/completion_token.hpp:247-270 | there is at most one invocation, and the value is its |
| `CompletionHistory.StackMeans` | stdexec-nvhpc-25.09/include/asioexec/completion_token.hpp:151-175 | the open frames of a thread are those it opened and has not closed |
| `CompletionHistory.HandlerLife` | stdexec-nvhpc-25.09/include/asioexec/completion_token.hpp:213-270 | every handler object is made once and dropped once, and only a live one is moved on, invoked or dropped with effect |
| `CompletionHistory.CallersMay` | stdexec-nvhpc-25.09/include/asioexec/completion_token.hpp:151-270 | a thread may open a frame, and move, drop or invoke a live handler, if and only if no other thread has an open frame that it still owns |
| `CompletionHistory.NeverStuck` | stdexec-nvhpc-25.09/include/asioexec/completion_token.hpp:151-270 | until the receiver is completed a frame can be closed, a handler invoked or an invocation finished |
| `OldThreadPool.StepInv` | stdexec-nvhpc-25.09/examples/benchmark/static_thread_pool_old.hpp:300-401 | every push, stop and worker step keeps the invariant |
| `OldThreadPool.Conservation` | stdexec-nvhpc-25.09/examples/benchmark/static_thread_pool_old.hpp:300-395 | at every step the tasks pushed are those executed, in execution and queued, as multisets |
| `OldThreadPool.NothingLeftBehind` | stdexec-nvhpc-25.09/examples/benchmark/static_thread_pool_old.hpp:300-401 | when all workers have returned a queue holds a task only if it was pushed to after its stop flag was set; without such pushes everything was executed, as often as pushed |
| `OldThreadPool.LaterIsLost` | stdexec-nvhpc-25.09/examples/benchmark/static_thread_pool_old.hpp:331-347 | whatever is pushed after all workers have returned stays queued |
| `OldThreadPool.LatePushIsLost` | stdexec-nvhpc-25.09/examples/benchmark/static_thread_pool_old.hpp:364-401 | a concrete run that loses a task pushed after the stop request |
| `OldThreadPool.ProbesOnce` | stdexec-nvhpc-25.09/examples/benchmark/static_thread_pool_old.hpp:303-316 | a probe round tries no queue twice, and a worker blocks only after it has tried them all |
| `OldThreadPool.NoLostWakeup` | stdexec-nvhpc-25.09/examples/benchmark/static_thread_pool_old.hpp:364-401 | a worker waits without a notification under way only while its queue is empty and its stop flag clear |
| `OldThreadPool.IndexIff` | stdexec-nvhpc-25.09/examples/benchmark/static_thread_pool_old.hpp:337-339 | the probe index is the cyclic one if and only if the 32-bit sum does not wrap, which up to 2^31 threads it cannot, and it never leaves the pool |
| `OldThreadPool.Pool.Enqueue` | stdexec-nvhpc-25.09/examples/benchmark/static_thread_pool_old.hpp:331-347 | in place: the task goes to the first queue on the way whose mutex is free, to the first of all if none is, and to no other |
| `OldThreadPool.Pool.BulkEnqueue` | stdexec-nvhpc-25.09/examples/benchmark/static_thread_pool_old.hpp:349-354 | in place: spreads the tasks round the queues |
| `OldThreadPool.SpreadMeans` | stdexec-nvhpc-25.09/examples/benchmark/static_thread_pool_old.hpp:349-354 | task i is in queue i modulo the number of queues, and none is lost or doubled |
| `OldThreadPool.Pool.ProbeRound` | stdexec-nvhpc-25.09/examples/benchmark/static_thread_pool_old.hpp:303-310 | in place: takes the first task of a queue whose mutex was free, or finds every queue busy or empty and is back at its own |
| `PoolHistory.FirstInFirstOut` | stdexec-nvhpc-25.09/examples/benchmark/static_thread_pool_old.hpp:300-395 | the tasks that workers took from a queue, the owner or others, followed by those it holds, are the tasks pushed to it, in that order |
| `PoolHistory.FlagMeans` | stdexec-nvhpc-25.09/examples/benchmark/static_thread_pool_old.hpp:364-401 | a stop flag is set exactly if a stop was requested, and the late queues are those pushed to after that |
| `PoolHistory.HistoryMeans` | stdexec-nvhpc-25.09/examples/benchmark/static_thread_pool_old.hpp:300-395 | the tasks pushed and executed of which `Conservation` speaks are those of the actions |
| `PoolHistory.ProgramOrder` | stdexec-nvhpc-25.09/examples/benchmark/static_thread_pool_old.hpp:300-330 | a worker executes what it got, tries the next queue if it got nothing, pops from its own after a full round, and leaves exactly if that is empty and stopped |
| `PoolHistory.SignalMeans` | stdexec-nvhpc-25.09/examples/benchmark/static_thread_pool_old.hpp:364-395 | the signal of which `NoLostWakeup` speaks: the queue was pushed to or stopped since the worker began to wait |
| `PoolHistory.NeverStuck` | stdexec-nvhpc-25.09/examples/benchmark/static_thread_pool_old.hpp:300-395 | a worker that has not left can take its next step |
| `Dlfcn.RemovedMeans` | dlfcn-win32-1.4.2/src/dlfcn.c:156-174 | removal keeps the list a set and takes out that module only |
| `Dlfcn.RunMeans` | dlfcn-win32-1.4.2/src/dlfcn.c:418-475 | after any sequence of `dlopen` and `dlclose` the list is duplicate-free, and a module is on it if and only if the last call concerning its mark was a local open that loaded something |
| `Dlfcn.NextMeans` | dlfcn-win32-1.4.2/src/dlfcn.c:510-580 | RTLD_NEXT returns the first definition behind the caller in load order that is not local, or fails |
| `Dlfcn.NextOfStranger` | dlfcn-win32-1.4.2/src/dlfcn.c:520-570 | for a caller outside the module list it fails, with its own error if the caller is unknown |
| `Dlfcn.ProgramMeans` | dlfcn-win32-1.4.2/src/dlfcn.c:501-590 | the program handle tries the program first and then the first definition in load order that is not local |
| `Dlfcn.HiddenIff` | dlfcn-win32-1.4.2/src/dlfcn.c:438-590 | a symbol only one library defines is hidden from the program handle if and only if the history of calls left that library marked |
| `Dlfcn.LibraryMeans` | dlfcn-win32-1.4.2/src/dlfcn.c:529-535 | the handle of a library that is not the program is answered by that library alone, with its definition or the stated failure, whatever is marked |
| `Dlfcn.UnlistedMeans` | dlfcn-win32-1.4.2/src/dlfcn.c:501-590 | the program handle and RTLD_NEXT when the modules cannot be counted, stored or listed |
| `Dlfcn.AnswerMeans` | dlfcn-win32-1.4.2/src/dlfcn.c:355-483 | `dlopen` returns a handle exactly if the library was loaded and its mark could be stored, and `dlclose` returns 0 exactly on success |
| `Dlfcn.AddedMeans` | dlfcn-win32-1.4.2/src/dlfcn.c:127-154 | adding to the list fails exactly without memory, and otherwise lists that module besides |
| `Dlfcn.LocalList.Search` | dlfcn-win32-1.4.2/src/dlfcn.c:113-125 | in place: finds the object of a module if and only if it is listed, and never the sentinel |
| `Dlfcn.LocalList.Add` | dlfcn-win32-1.4.2/src/dlfcn.c:127-154 | in place: appends a module that is not listed yet, and reports failure exactly when memory for it is missing |
| `Dlfcn.LocalList.Rem` | dlfcn-win32-1.4.2/src/dlfcn.c:156-174 | in place: unlinks and frees exactly the module's object, keeps both directions linked, and never frees the sentinel |
| `Dlfcn.LocalList.DlOpen` | dlfcn-win32-1.4.2/src/dlfcn.c:355-459 | in place: marks, unmarks or leaves the module by mode and module counts; the library is loaded once more if and only if a handle on it is returned, so an open whose mark cannot be stored is undone |
| `Dlfcn.LocalList.DlClose` | dlfcn-win32-1.4.2/src/dlfcn.c:462-483 | in place: drops the mark and one load exactly on success, with the inverted status |
| `Dlfcn.LocalList.DlSym` | dlfcn-win32-1.4.2/src/dlfcn.c:487-601 | in place: the search loop over the modules and the in-place list answers as the specified resolution, and for the handle of an ordinary library with its definition or the stated failure |

## Left out

- Weak memory orderings, `yield`, spin backoff, fairness and liveness: every atomic is one sequentially
  consistent step, and results say what holds in every reachable state.
- The bwos queue, the atomic, MPSC and intrusive queues, the intrusive heap, NUMA placement and `run_loop` are
  bags, FIFO sequences or priority orders here.
- The concurrent protocols are state machines on values; only their critical sections, and what one thread does
  without interference, are also given in place.
- `schedule_all`'s `operation::start` (stdexec-nvhpc-25.09/include/exec/static_thread_pool.hpp:1605-1638).
- `Bulk.StepInv`: does not model the throwing path of `bulk_receiver::set_value`, where an enqueue follows the error;
  storing the arguments is taken not to throw.
- That all tasks of the new pool run before it shuts down, and that NUMA constraints are honoured: the code does not
  guarantee either.
- `WorkerSleep.NoLostWakeup`: is about the submitters' queues. A worker's own queues are not modelled, and whether a task comes
  out of them is left open; tasks that a worker has moved to its private `pending_queue_` and left there wake nobody, and
  wait for its next wakeup. A notification by a worker is one by an agent.
- `OldThreadPool.NothingLeftBehind`: has no converse, because a late task may still be taken by a worker that has not left;
  `OldThreadPool.LaterIsLost` gives it for pushes after all have left.
- `FutureState.StepsAreSound`: asks that callers move-assign over a future, or let its consumer's constructor throw, only when
  the sender has completed, and that a consumer's token is not triggered so late that its callback is being called when the
  unstarted consumer is destroyed; what happens otherwise is said by `FutureState.EarlyFreeIff`, `FutureState.TouchedIff` and
  `FutureState.ForwardIff`. The completion's data are not modelled.
- `TimedThread.StepInv`: does not model how the heap's `erase` finds its entry.
- `Trampoline.Thread.Start`: does not model the stop token of the receiver; either completion may start further operations.
- `CompletionToken.StepInv`: takes it from Asio that frames are opened only inside a frame or while there is a handler, and that
  no exception leaves a frame after it was neutralised; what `start` would do with one is said by
  `CompletionToken.CatchIff`. Cancellation slots are not part of the model.
- `WhenAny.OpBase.Notify`: is one call without interference; interleavings are in the state machine.
- `WhenAny.NobodyTouchesIt`: does not hold of completions sent from inside the stop callback or by a refused `start`; for these
  `WhenAny.InlineIff`, `WhenAny.RefusedIff` and `WhenAny.DestroyedIff` give the exact condition.
- `Bulk.CompletesOnce`: asks for a usable number of agents, as do the results about bulk runs after it.
- `MaxwellRanks.Simulate`: does not model more ranks than rows, when some rank has no row to send
  (`MaxwellRanks.RowForEachIff`), grids of 2^64 cells or more, the `OVERLAP` branch, or how MPI,
  CUDA and the initialiser work: messages are their effect, and the initial slices are taken to agree with the grid.
- `Plugin.FailureCount`: takes the bulk operation as started; `transfer`, `sync_wait` and the counter's atomicity are not modelled.
- `Plugin.Registry.Cycles`: does not model key destructors or the mutex around the registry.
- Null stop tokens, and which thread owns a default-constructed `std::thread::id`.
- In dlfcn: the error text, path translation, PE parsing and the Windows API, whose answers are parameters. That a local
  library stays hidden while it is loaded is not claimed, as `dlclose` drops the mark on any success.
- Templates, completion-signature computation, type-erased vtables, environments and coroutines.
- CMake modules, documentation, package recipes, test frameworks, printing examples and benchmarks other than the older pool.
