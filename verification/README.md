# Centreon Collect: a verified model

A Dafny model of the parts of Centreon Collect whose behaviour is hardest to see from the code: event-driven
state machines, in-place algorithms and codecs. Each one is modelled the way the source is written (objects that
are updated in place are classes, loops are loops) and tied to functions about which the properties are proved.

| file | what it models |
|---|---|
| `Scheduler.dfy` | the agent's check scheduler and the life of a check |
| `DroppedUpdates.dfy` | what becomes of the scheduler after an update it cannot serve |
| `Export.dfy` | the export requests in which the agent sends its results |
| `Templates.dfy` | template inheritance in the engine configuration |
| `TemplateRings.dfy` | templates that use one another in a ring |
| `ProcessExec.dfy` | how a child process is started, descriptor by descriptor |
| `Supervisor.dfy` | the process manager: streams, pids, orphan exits, deadlines |
| `IncludeGraph.dfy`, `Digraph.dfy` | the redundant-include finder, and directed graphs |
| `Base64.dfy` | the base64 codec, with its 32-bit accumulators |
| `DateRange.dfy` | printing and reading the date ranges of a time period, with the scanning that reading uses |
| `TaskManager.dfy` | timestamps and the task manager |
| `WorkerPool.dfy` | the task manager's worker threads, and an execution together with them |
| `Bireactor.dfy` | the stream between agent and engine, and the client that replaces it |
| `DriveFilter.dfy` | the drive filter with its caches |
| `Arithmetic.dfy`, `Collections.dfy` | what the others share |

`dafny verify dfyconfig.toml` checks all of it.

## Reading the model

Time, the outcome of system calls, the contents of messages and the order in which threads run are inputs: clocks
are parameters, a system call may be refused at any point, and a concurrent part is a machine whose steps are the
critical sections of the source, with a theorem about all legal sequences of steps.

Where the code does not do what its comments or its callers would expect, the model does what the code does, and
the condition under which the expectation holds is proved, as an equivalence where nothing else is said:

* A completed check is re-queued before its earliest next start, by less than a microsecond, exactly when it is
  late, the present is less than a microsecond past a slot and no check waits in that slot (`RescheduleBound`): the
  rounding that finds the next slot works on microseconds and the clock on nanoseconds.
* A configuration with a zero check interval empties the queue and resets the counter but keeps the old
  configuration, and a completion of a check that was running then wraps the counter to 4294967295
  (`DroppedUpdateWraps`). A scheduler that was not stopped starts no check any more, in any run without a new
  configuration, exactly when the number of checks that were running and the limit on them add up to at most
  4294967296 (`DroppedUpdateStallsIff`).
* A configuration whose interval is not zero but whose slots are, the interval having been multiplied in 32 bits,
  keeps all its checks exactly when it builds at most one; that one cannot be re-queued, as its grid has no step
  to divide by (`UpdateConservesIff`).
* Removing all redundant includes at once changes no reachability exactly when the includes left still hold each
  group of headers that include one another together, and no two groups with nothing between them are joined by
  two includes (`ReachabilityKeptIff`). Between groups this is a condition on the graph as it was; within a group it
  is the property itself over the includes left, and it is only shown to hold if no include within a group is
  redundant (`GroupsHoldIfSpared`). An acyclic include graph is always so (`TransitiveReduction`).
* The order in which templates are resolved decides neither success nor the set of objects resolved, and the
  fields only of objects that inherit from a ring (`OrderIndependent`). In a ring, where each object uses the
  next and nothing else, it decides who ends up with an optional field exactly when some object of the ring has
  the field and two neighbours lack it (`RingOrderMattersIff`). It decides what a field of any kind holds exactly
  when two neighbours have not set it and the second has something else in it than the next object that has set
  it, or, if none has, when they do not all have the same in it (`RingContentsMatterIff`). That is for every plain
  field that is not optional, and for the others where they are empty unless set. What stays open: what an
  optional field with a default, or a list filled without being marked as set, holds in the end; and objects that
  inherit from rings of other shapes.
* A process that is started with standard input open but standard output or error closed does not give standard
  input back (`Process.Exec`); for a start that fails, it is only shown that all three open suffices. When the three
  are put back, they are what they were exactly if none was to be closed on exec: that flag is lost
  (`ClearedIsIntactIff`).
* Subtracting timestamps is exact only if a borrow is needed or the right side has no microseconds
  (`MinusIsExactIff`); a task that repeats after more than 2147483647 microseconds is put back before the present
  (`NothingLeftDueIff`).
* A task that is to run without any concurrency waits for an empty queue, which does not mean that no task is
  running (`EmptyQueueIsIdleIff`); an execution returns in that state too. The task runs alone in every interleaving
  exactly when the workers had nothing left to do as its execution began and no task dispatched before it in that
  execution went to them (`RunsAloneIff`).
* A process is told of its end in one step and taken off the list of deadlines in another, which looks it up by the
  deadline it has by then. The deadlines listed are those of executions under way, in every run, exactly if no
  process is executed again with another deadline between the two while its old one is listed
  (`DeadlinesAreCurrentIff`); an execution that is, is killed when the old deadline passes (`LateIsKilled`).
* A date range comes back from its text unless it is a calendar date, a single date or a day of the week in a month
  with an interval to skip, without time ranges, not in whole minutes, or too long (`RoundTripIff`).
* Base64 text is what encoding its octets gives exactly when it is canonical, padded and without white space
  (`ReencodedIff`).
* A client that has been shut down stays so, in every run, exactly when at that moment no timer was set and the
  stream in use had no read or write under way and no error to report (`ShutdownIsFinalIff`).

## Model

| member | source | states |
|---|---|---|
| `CheckRuns.OneCompletionPerStart` | agent/src/check.cc:71-148 | Over every interleaving of starts, timeouts, ends and stale completions, the handler is called exactly once per finished run, in order, with the run already closed; every attempted start is a call, a refusal on its way, or the open run. |
| `CheckRuns.RunningCheck.StartCheck` | agent/src/check.cc:71-86 | A start is accepted iff no run is open, and the tag given out is that of the new run. |
| `CheckRuns.RunningCheck.OnCompletion` | agent/src/check.cc:133-148 | A completion calls the handler iff its tag is that of the current run; it closes the run first and moves on to the next tag. |
| `Scheduler.SlotAfterMin` | agent/inc/com/centreon/agent/check.hh:85-90 | The slot at which the search starts is the first at or after the minimum, up to a microsecond; it is not before the minimum exactly when the distance to the grid is zero or at least a microsecond. |
| `Scheduler.FirstFreeBound` | agent/src/scheduler.cc:276-279 | The search for a free slot ends, on a free slot, passes no free one, and takes no more steps than there are slots taken from its start on. |
| `Scheduler.IntervalHoldsAllSlots` | agent/src/scheduler.cc:174-177 | With the interval multiplied in 32 bits, as many slots as there are services still fit in a check interval. |
| `Scheduler.SlotsFillIntervalIff` | agent/src/scheduler.cc:174-177 | They fill it, but for less than a microsecond each, if and only if its microseconds fit in 32 bits. |
| `Scheduler.RescheduleBound` | agent/src/scheduler.cc:266-280 | A completed check gets a slot on the shared grid that no queued check has, at least one interval after its last start, later than a microsecond before now, and less than one interval after min := max(last start + interval, now), with no free slot from min on passed over; it is before now if and only if last start + interval is no later than now, now is less than a microsecond past a slot, and that slot is free. |
| `Scheduler.StartOneKeepsInv` | agent/src/scheduler.cc:224-234 | Starting the first queued check keeps the invariant: queue sorted and unique, every check queued or running and not both, counter equal to the running ones and within the limit. |
| `Scheduler.StartWaitingKeepsInv` | agent/src/scheduler.cc:138-150 | So does starting all that is due. |
| `Scheduler.StartWaitingTakesDuePrefix` | agent/src/scheduler.cc:138-150 | What is started is a prefix of the queue, all of it due, and it stops at the limit, at the end of the queue or at a check not yet due. |
| `Scheduler.RescheduleKeepsInv` | agent/src/scheduler.cc:266-280 | Re-queueing a completed check keeps the invariant. |
| `Scheduler.FinishKeepsInv` | agent/src/scheduler.cc:245-281 | A completion, current or stale, of this configuration or an older one, keeps the invariant. |
| `Scheduler.RunnableUpdateKeepsInv` | agent/src/scheduler.cc:160-217 | A new configuration with a positive interval, whose slots are at least a microsecond apart if any check can be built, establishes the invariant whatever was running. |
| `Scheduler.UpdateKeepsInvExactly` | agent/src/scheduler.cc:160-217 | An update keeps the invariant, which includes slots of at least a microsecond, if and only if it is runnable in that sense or, with a zero interval, nothing is running and, while the scheduler is alive, no check of the current configuration exists. |
| `Scheduler.BuildSpreads` | agent/src/scheduler.cc:179-211 | The k-th service whose check can be built gets its first start k steps after now, and they wait in that order behind what waits already. |
| `Scheduler.UpdateSpreads` | agent/src/scheduler.cc:160-217 | After a runnable configuration the k-th check built starts k steps from now, all within one check interval; the first m of them are started at once, being due and within the limit, the next one is not due or the limit is reached, and the others wait in order. |
| `Scheduler.DroppedUpdateWraps` | agent/src/scheduler.cc:160-169 | After an update with a zero interval, the first completion of a check that was running wraps the counter to 4294967295, and at that value no tick starts a check. |
| `Scheduler.EveryRunIsSafe` | agent/src/scheduler.cc:138-293 | Over every run of updates that keep the invariant, ticks, also after a stop, completions current and stale, and stops, each built check of the current configuration is in exactly one of queue and running set, the counter is the number of running ones and never above the limit. |
| `Scheduler.StopLetsGo` | agent/src/scheduler.cc:245-293 | After a stop, over every run without a new configuration, what waits is a tail of the queue as it was: nothing is queued again. |
| `Scheduler.CheckScheduler.constructor` | agent/src/scheduler.cc:35-43 | A scheduler starts with an empty queue and no active check. |
| `Scheduler.CheckScheduler.InsertCheck` | agent/src/scheduler.cc:276-276 | Insertion into the queue, refused iff a queued check has the same start. |
| `Scheduler.CheckScheduler.StartWaitingChecks` | agent/src/scheduler.cc:138-150 | The loop does what `StartWaiting` says. |
| `Scheduler.CheckScheduler.OnCompletion` | agent/src/scheduler.cc:245-281 | The completion handler does what `Finish` says. |
| `Scheduler.CheckScheduler.Requeue` | agent/src/scheduler.cc:266-280 | The re-queueing does what `Reschedule` says. |
| `Scheduler.CheckScheduler.SearchSlot` | agent/src/scheduler.cc:275-279 | The search loop ends at the first free slot. |
| `Scheduler.CheckScheduler.FirstIndex` | agent/src/scheduler.cc:267-275 | The index the search starts from is that of the later of the last start plus the interval and now. |
| `Scheduler.CheckScheduler.Place` | agent/src/scheduler.cc:276-278 | One attempt of the search: the check is queued at the slot, or nothing but its slot has changed. |
| `Scheduler.CheckScheduler.UpdateConfig` | agent/src/scheduler.cc:160-217 | The update does what `Update` says, the early return included. |
| `Scheduler.CheckScheduler.BuildChecks` | agent/src/scheduler.cc:179-211 | Checks are built as `Build` says, so one step apart (`Scheduler.BuildSpreads`); a service whose check cannot be built takes no slot. |
| `Scheduler.CheckScheduler.BuildCheck` | agent/src/scheduler.cc:193-205 | One check is built and queued at the next slot. |
| `Scheduler.CheckScheduler.StopScheduling` | agent/src/scheduler.cc:287-293 | Stopping changes nothing but that completions are no longer followed by re-queueing. |
| `DroppedUpdates.DroppedUpdateStallsIff` | agent/src/scheduler.cc:160-169 | After an update with a zero interval, no run of ticks, completions and stops ever comes to a state from which a tick starts a check, if and only if the scheduler is stopped or the checks running and the limit add up to at most 2^32; otherwise the run in which all of them complete does. |
| `DroppedUpdates.AllComplete` | agent/src/scheduler.cc:245-281 | Such a run: as many completions as there are checks running, after which none runs and the counter is that many below 2^32. |
| `DroppedUpdates.UpdateConservesIff` | agent/src/scheduler.cc:174-211 | A live scheduler that takes over a configuration with a positive interval keeps every check built in queue or running set if and only if the step between slots is positive or at most one check is built; with a zero step no check has a grid to be re-queued on (check.hh:85-88). |
| `Export.StorePoints` | agent/src/scheduler.cc:338-363 | Storing a result adds to each service and metric exactly the points the result has for it: one status point and one per perfdata. |
| `Export.ResultsAreConserved` | agent/src/scheduler.cc:64-82 | Over every sequence of results and send timers, the requests sent and the current one together hold exactly the points of the results, per service and metric and in order. |
| `Export.EveryRequestIsFindable` | agent/src/scheduler.cc:64-82 | Over every such sequence, each request sent and the current one has one resource per service and one metric per name in it, so that no point is beside those found by name. |
| `Export.EachTimerSendsItsBatch` | agent/src/scheduler.cc:64-82 | Over every such sequence, the requests sent are, in order, one for each timer before which a result came since the timer before it, each with exactly the points of the results in between; the current one has those since the last timer. |
| `Export.PutKeepsIndexed` | agent/src/scheduler.cc:372-395 | The index agrees with the request after an update: one resource per service, one metric per name. |
| `Export.AddToMetric` | agent/src/scheduler.cc:405-437 | With an index that agrees, looking a metric up and adding a point is what a linear search would do. |
| `Export.Sender.GetScopeMetrics` | agent/src/scheduler.cc:372-395 | The position of a service's entry, which is added only if there is none. |
| `Export.Sender.AddDataPoint` | agent/src/scheduler.cc:405-437 | A point is added where `AddPoint` says, and the index still agrees. |
| `Export.Sender.StoreResult` | agent/src/scheduler.cc:338-363 | A result is stored as `Store` says. |
| `Export.Sender.OnSendTimer` | agent/src/scheduler.cc:64-82 | The request is sent, whole and after those before, iff it holds something; then the current one is empty. |
| `Templates.AddMissingUnites` | common/engine_conf/parser.cc:656-721 | Adding what is missing represents every item of the template, and every item added is one of the template that nothing before it represents. |
| `Templates.AddMissingIsFresh` | common/engine_conf/parser.cc:656-721 | What is added is exactly, in the order of the template, each item that neither the field nor an earlier item of the template represents. |
| `Templates.TakenTakesOver` | common/engine_conf/parser.cc:635-812 | What a field of each kind holds after a template is merged into it: the text of the template; its own items and then those it lacked; its own and then all; or those of the template if it had none. |
| `Templates.ResolveKeeps` | common/engine_conf/parser.cc:604-625 | Resolution leaves every object that was resolved before as it was. |
| `Templates.ResolveReaches` | common/engine_conf/parser.cc:604-625 | Every object resolved on the way is reachable along the use relation. |
| `Templates.ResolveRefines` | common/engine_conf/parser.cc:604-625 | On any use graph, memoised in-place resolution of an object that succeeds leaves everything resolved with its templates known and resolved, and with its inherited value unless it inherits from a ring; for an object that does not, it succeeds if and only if nothing it inherits from is missing. |
| `Templates.FailureMeansMissing` | common/engine_conf/parser.cc:617-621 | On any use graph, rings included, resolution fails only if something inherited from is missing. |
| `Templates.InheritanceExists` | common/engine_conf/parser.cc:604-824 | The recursive inheritance function satisfies the law of inheritance. |
| `Templates.InheritanceIsUnique` | common/engine_conf/parser.cc:604-824 | Any two solutions of the law agree on the objects that inherit from nothing missing and from no ring. |
| `Templates.ResolveAllRefines` | common/engine_conf/parser.cc:497-536 | On any use graph, resolving any objects in any order succeeds if and only if none inherits from a missing template; then exactly the objects they reach are resolved, each that inherits from no ring with its inherited value, and the others are as parsed. |
| `Templates.OrderIndependent` | common/engine_conf/parser.cc:497-536 | On any use graph, two orders over the same objects agree on success, on the objects resolved and on the fields of every object that inherits from no ring; if none of those asked for does, the results are the same. |
| `Templates.RequiredFieldFromFirstTemplate` | common/engine_conf/parser.cc:644-654 | A field that is not optional is the object's own if set, and otherwise holds, by its kind, its own contents and those of the first template in use, of no other. |
| `Templates.OptionalFieldFromFirstOffer` | common/engine_conf/parser.cc:644-654 | An optional field the object lacks takes over, by its kind, the contents of the first template, in the order of use, whose resolved form has it; without one it stays as it was. |
| `Templates.ResolveMergesOnce` | common/engine_conf/parser.cc:604-625 | On any use graph, rings included, an object is merged into at most once per entry of its use list, in order, and all of them if resolution succeeds. |
| `TemplateRings.RingOutcome` | common/engine_conf/parser.cc:604-625 | In a ring of any length resolved from one object on, every object is merged, field by field and whatever the kind, with what the next one ends up with, but the last with the first as parsed. |
| `TemplateRings.RingOrderMattersIff` | common/engine_conf/parser.cc:604-625 | In a ring of any length, which object is resolved first decides whether some object has an optional field at the end if and only if one of them had it and two neighbours lacked it. |
| `TemplateRings.BlankTakesAll` | common/engine_conf/parser.cc:644-812 | A field that is not set and empty takes over from a template its text or items, less the repetitions of a repeated field, and passes just that on. |
| `TemplateRings.OutcomeAt` | common/engine_conf/parser.cc:604-824 | In a ring resolved from the object m further on, a field that is not set ends up with what the first of those m objects that has set it has, or else with what the object resolved first had when parsed; one that is set keeps its own. |
| `TemplateRings.RingContentsMatterIff` | common/engine_conf/parser.cc:604-824 | For a field of any kind that is empty where it is not set: which object of a ring of any length is resolved first decides what the field of some object holds, if and only if two neighbours have not set it and the second had something else in it than the next object that has set it has; or, if none has set it, if they did not all have the same in it. |
| `TemplateRings.RingExample` | common/engine_conf/parser.cc:604-625 | An example with a required text set in one object of three. |
| `Templates.Search` | common/engine_conf/parser.cc:665-672 | The search loop finds an item iff one is represented. |
| `Templates.CollectMissing` | common/engine_conf/parser.cc:656-676 | The merging loop adds exactly what is missing. |
| `Templates.TakeField` | common/engine_conf/parser.cc:731-812 | One field is taken over by its kind, contents included: text copied, missing items united, or items appended when additive and filled when empty. |
| `Templates.Parser.Merge` | common/engine_conf/parser.cc:635-824 | The loop over fields merges a template as `MergeFields` says and touches no other object. |
| `Templates.Parser.ResolveTemplate` | common/engine_conf/parser.cc:604-625 | The recursive method does what `Resolve` says and terminates on every graph. |
| `Templates.Parser.MergeUses` | common/engine_conf/parser.cc:617-624 | The loop over the use list does what `ResolveUses` says. |
| `Templates.Parser.MergeUse` | common/engine_conf/parser.cc:618-623 | One entry: an unknown name fails, a known one is resolved and then merged. |
| `Templates.Parser.ResolveObjects` | common/engine_conf/parser.cc:497-536 | The loop over objects does what `ResolveAll` says. |
| `ProcessExec.Process.Exec` | clib/src/process.cc:104-218 | For every outcome of the system calls: nothing is closed twice; on failure the descriptors are those of the start and no child exists; on success they are those of the start and the parent's pipe ends, and the standard streams refer to what they did iff output and error were open at the start; then they are no longer closed on exec, and the child has the other ends of the pipes and no copy or parent's end. On failure they are untouched or put back in that way, unless input was open and output or error was not. |
| `ProcessExec.Process.Launch` | clib/src/process.cc:142-217 | The same for the part that runs with the standard descriptors set aside. |
| `ProcessExec.Backup` | clib/src/process.cc:133-140 | The standard descriptors are copied and the copies kept from programs; a copy takes the place of a missing output or error; a failure leaves only copies to close. |
| `ProcessExec.WireAll` | clib/src/process.cc:144-170 | Each stream of the child is a pipe end or the null device and everything opened on the way is held in the pipe table. |
| `ProcessExec.WirePipe` | clib/src/process.cc:148-151 | One pipe: the child's end replaces the stream and is closed, the parent's end is kept from programs; a failure leaves both ends accounted for. |
| `ProcessExec.DevNull` | clib/src/process.cc:570-583 | The null device replaces a descriptor, or nothing changes. |
| `ProcessExec.StreamsRestored` | clib/src/process.cc:188-196 | Putting the copies back restores what the standard descriptors referred to, if all three were open, with the close-on-exec flag cleared. |
| `ProcessExec.ClearedIsIntactIff` | clib/src/process.cc:188-196 | Every descriptor is then as it was, flag included, if and only if none of the three was to be closed on exec. |
| `ProcessExec.InputLost` | clib/src/process.cc:188-191 | Otherwise standard input ends up on a stream of the child. |
| `ProcessExec.ChildInherits` | clib/src/process.cc:181-182 | The child gets its three streams, whose other ends the parent keeps, and the parent's inheritable descriptors, nothing else. |
| `ProcessExec.CloseAll` | clib/src/process.cc:209-215 | Everything held is closed, each descriptor once. |
| `Supervisor.CloseKeepsInv` | clib/src/process_manager.cc:186-203 | A hangup keeps the invariant of the tables. |
| `Supervisor.ExecKeepsInv` | clib/src/process.cc:104-202 | So does starting a process, again after an earlier end too. |
| `Supervisor.AddKeepsInv` | clib/src/process_manager.cc:93-99 | So does queueing it. |
| `Supervisor.RegisterAllKeepsCore` | clib/src/process_manager.cc:118-169 | So does taking the whole queue over. |
| `Supervisor.ReapKeepsInv` | clib/src/process_manager.cc:397-427 | So does reaping an exit: that of a registered process is delivered, one of an unknown process is held as the last orphan with the update flag set. |
| `Supervisor.MeetOrphanKeepsInv` | clib/src/process_manager.cc:366-391 | So does looking at one orphan, which is delivered or passed over; none that was passed over belongs to a registered process. |
| `Supervisor.EraseKeepsInv` | clib/src/process_manager.cc:210-222 | So does taking a process that has been told of its end off the list of deadlines, whatever happened to it in between. |
| `Supervisor.KillKeepsInv` | clib/src/process_manager.cc:227-243 | So does killing what is over its deadline. |
| `Supervisor.KillIsSafe` | clib/src/process_manager.cc:227-243 | While every deadline listed is the current one of its process, a process on the list is signalled if and only if its own deadline has passed, and its pid is that of a child not yet reaped. |
| `Supervisor.KillSignalsIff` | clib/src/process_manager.cc:227-243 | Whatever is listed, a process is signalled if and only if it runs and a deadline listed for it has passed; exactly the later ones stay on the list. |
| `Supervisor.StepSoundIff` | clib/src/process_manager.cc:354-361 | Any one step keeps all deadlines listed current if and only if it is no execution, with another deadline, of the process whose end is being dealt with while its old deadline is listed. |
| `Supervisor.DeadlinesAreCurrentIff` | clib/src/process_manager.cc:354-361 | Over every run, the deadlines listed are current all along if and only if no such execution happens. |
| `Supervisor.LateIsKilled` | clib/src/process_manager.cc:210-243 | From every state in which such an execution happens, the run in which the manager goes on with its turn kills it at the time of the old deadline. |
| `Supervisor.EveryDeadlineIsKept` | clib/src/process_manager.cc:149-243 | Over every run, such executions included, a registered process that runs with a deadline is listed at that deadline or has been sent the signal; it has been once the time was read after the deadline. |
| `Supervisor.TablesAgreeAtPoll` | clib/src/process_manager.cc:276-297 | At every poll the descriptors listed are exactly the keys of the stream table, each once. |
| `Supervisor.EveryRunKeepsInv` | clib/src/process_manager.cc:276-345 | The invariant holds over every run of starts, additions and steps of the loop. |
| `Supervisor.EveryRunIsAccounted` | clib/src/process_manager.cc:366-427 | Over every run, every exit reaped is delivered or held as an orphan; a process has been told of its end once per execution that is over and has received one exit per execution whose pid is gone, the k-th with the pid of its k-th execution and the last being its status; and an exit not received is still to be reaped or among the orphans. |
| `Supervisor.FinishedAtTheLastStep` | clib/src/process.cc:267-288 | The listener is called in exactly the step that takes away the last of pid and streams. |
| `Supervisor.TimedOutIff` | clib/src/process_manager.cc:366-427 | Over every run, a process counts as timed out if and only if it has ended and its last exit was that of a killed process delivered by the wait itself; one reaped before the process was registered does not count. |
| `Supervisor.ExecutionStarts` | clib/src/process.cc:104-202 | An execution gives its process exactly the pid, streams and deadline it was started with, and changes no other process and no table. |
| `Supervisor.HangUpCloses` | clib/src/process_manager.cc:186-203 | A hangup takes the stream from the process that has it registered, and leaves all else as it was. |
| `Supervisor.AddedIsRegistered` | clib/src/process_manager.cc:93-169 | Whatever happens in between, a process that is added is registered under its pid by the next poll. |
| `Supervisor.RegisteringLateLosesNothing` | clib/src/process_manager.cc:366-391 | Once orphans were looked at, a registered process has all its exits, those of its own pids in order, or is an unreaped child. |
| `Supervisor.Manager.constructor` | clib/src/process_manager.cc:40-46 | A manager starts with empty tables and the update flag set. |
| `Supervisor.Manager.AddProcess` | clib/src/process_manager.cc:93-99 | Queueing does what `Add` says. |
| `Supervisor.Manager.RegisterQueued` | clib/src/process_manager.cc:118-162 | The loop over the queue does what `RegisterAll` says. |
| `Supervisor.Manager.EnterTables` | clib/src/process_manager.cc:128-162 | One process is entered in the tables of streams, deadlines and pids. |
| `Supervisor.Manager.ListFds` | clib/src/process_manager.cc:138-148 | The list of descriptors to poll is rebuilt with every key once. |
| `Supervisor.Manager.UpdateList` | clib/src/process_manager.cc:118-169 | Both together, and the update flag is cleared. |
| `Supervisor.Manager.CloseStreamOf` | clib/src/process_manager.cc:186-203 | A hangup does what `CloseStream` says. |
| `Supervisor.Manager.InsertTimeout` | clib/src/process_manager.cc:151-158 | A deadline is inserted in order. |
| `Supervisor.Manager.EraseTimeout` | clib/src/process_manager.cc:210-222 | The first entry for a process at the deadline it has now is removed, if there is one. |
| `Supervisor.Manager.UpdateEndingProcess` | clib/src/process_manager.cc:354-361 | The process is told of its exit and, if it is not executed again in between, its deadline removed. |
| `Supervisor.Manager.WaitProcess` | clib/src/process_manager.cc:397-427 | One exit reported does what `Reap` says and, for a registered process, the erasure that follows. |
| `Supervisor.Manager.WaitProcesses` | clib/src/process_manager.cc:397-427 | The loop does the run of one exit event per exit reported, in order, and of the erasures that these leave. |
| `Supervisor.Manager.WaitOrphansPid` | clib/src/process_manager.cc:366-391 | The loop does the run in which every orphan is looked at once, delivered or passed over, with the erasures that deliveries leave. |
| `Supervisor.Manager.KillProcessesTimeout` | clib/src/process_manager.cc:227-243 | The loop does what `Kill` says; a process without a pid is sent nothing. |
| `Supervisor.Manager.Refresh` | clib/src/process_manager.cc:285-306 | Before a poll, queued processes are taken over if need be, as the poll event says, and the two tables agree in size and in content. |
| `Supervisor.Manager.CloseStreams` | clib/src/process_manager.cc:313-328 | The loop over the polled descriptors closes those that hang up, one hangup event each, in the order of the list. |
| `Supervisor.Manager.Round` | clib/src/process_manager.cc:283-340 | A whole turn of the loop, given hangups, exits and the time, does exactly the run of events of that turn (poll, hangups in the order of the list, exits in order, orphans, deadlines, and the erasures that deliveries leave), a legal one that leaves no expired deadline. |
| `IncludeGraph.Trail.Dfs` | deps.py:76-90 | The search appends exactly the completions of the current path and gives the path back as it was, and it ends on cyclic graphs too. |
| `IncludeGraph.FindAllPaths` | deps.py:62-73 | The direct edge first and once, if there is one, and then exactly the simple paths of at least two edges. |
| `IncludeGraph.FindAllPairsWithAtLeastTwoPaths` | deps.py:93-120 | The pairs reported are exactly those with a direct edge and a simple path of at least two edges, each with all its paths. |
| `IncludeGraph.ReachabilityKeptIff` | deps.py:93-120 | On any graph, deleting all reported edges at once keeps reachability between every two nodes if and only if it does so within each group of nodes that reach one another, and two groups with no node between them have at most one edge from the one to the other. |
| `IncludeGraph.DoubleCrossingIsLost` | deps.py:93-120 | If they have two, all edges between the groups are reported and the second is no longer reached from the first. |
| `IncludeGraph.GroupsHoldIfSpared` | deps.py:93-120 | If no reported edge lies within a group of nodes that reach one another, deleting them keeps reachability within each group. |
| `IncludeGraph.TransitiveReduction` | deps.py:93-120 | On an acyclic graph, deleting all reported edges at once keeps reachability between every two nodes, and every edge left is needed for it. |
| `IncludeGraph.EdgeSurvives` | deps.py:93-120 | Under the condition of `ReachabilityKeptIff`, every deleted edge is replaced by a walk over edges that stay. |
| `IncludeGraph.KeptEdgeIsNeeded` | deps.py:93-120 | On any graph, without an edge between two headers that was not reported, the second can no longer be reached from the first. |
| `IncludeGraph.CyclicGraphCanLoseReachability` | deps.py:93-120 | An example: two headers that include each other, both included by a third. |
| `Base64.Encode` | common/crypto/base64.cc:32-53 | For every string of octets, the loops with their signed 32-bit accumulator give the encoding of section 4 of RFC 4648. |
| `Base64.SextetsAreDigits` | common/crypto/base64.cc:38-48 | The four characters of a group are the digits to base 64 of its 24-bit number. |
| `Base64.OverflowIsHarmless` | common/crypto/base64.cc:40-43 | Wrapping at 32 bits does not reach the bits still to be written. |
| `Base64.EncodedLength` | common/crypto/base64.cc:36-50 | Four characters for every three octets begun. |
| `Base64.TestVectors` | common/crypto/base64.cc:32-53 | Three test vectors of section 10 of RFC 4648. |
| `Base64.Decode` | common/crypto/base64.cc:62-100 | For every text, the loop with its unsigned 32-bit accumulator gives the octets completed by its characters, or an error iff a character that is not skipped is outside the alphabet. |
| `Base64.RoundTrip` | common/crypto/base64.cc:32-100 | Any text whose counting characters are those of the encoding, white space and padding put anywhere, decodes to the octets encoded. |
| `Base64.SextetsOfOctets` | common/crypto/base64.cc:62-100 | The sextets decoded come back if and only if they are canonical: no lone one at the end, and no bits set beyond the last octet. |
| `Base64.ReencodedIff` | common/crypto/base64.cc:32-100 | For every text that decodes, encoding the result gives its counting characters back if and only if they are canonical, and the text itself if and only if it is also those characters and the padding, nothing else. |
| `Scanning.ScanWord` | common/engine_conf/timeperiod_helper.cc:311-313 | Scanning a printed word yields the word and goes on after it. |
| `Scanning.ScanInteger` | common/engine_conf/timeperiod_helper.cc:311-313 | Scanning a printed 32-bit number yields the number. |
| `Scanning.ScanBlanks` | common/engine_conf/timeperiod_helper.cc:311-313 | A blank in a format matches any amount of white space, none included. |
| `Scanning.ScanNumber` | common/engine_conf/timeperiod_helper.cc:311-313 | A number, signed or not, after any white space, is scanned up to what is no digit. |
| `Scanning.ScanStops` | common/engine_conf/timeperiod_helper.cc:311-313 | Where a word, a number or a character is wanted and something else comes, scanning stops there. |
| `DateRanges.ReadToNumber` | common/engine_conf/timeperiod_helper.cc:337-380 | A name, a number, a dash and a number are read by the third pattern with an interval to skip and by the fifth without; no earlier one captures the line. |
| `DateRanges.ReadToPhrase` | common/engine_conf/timeperiod_helper.cc:320-396 | A name and a number on both sides of a dash are read by the second or the sixth pattern. |
| `DateRanges.ReadMonths` | common/engine_conf/timeperiod_helper.cc:355-363 | Two days of the week in months are read by the fourth pattern. |
| `DateRanges.ReadMonthsSkip` | common/engine_conf/timeperiod_helper.cc:311-319 | With an interval to skip they are read by the first pattern, each part in its place. |
| `DateRanges.ReadSpelled` | common/engine_conf/timeperiod_helper.cc:311-363 | Whatever two days of the week in months, offsets and interval, the line that spells them out is read as just those. |
| `DateRanges.ParseSpelled` | common/engine_conf/timeperiod_helper.cc:294-476 | So the whole line adds the range it spells out, unless it is longer than 1024 characters. |
| `DateRanges.NamesMustMatch` | common/engine_conf/timeperiod_helper.cc:320-396 | Two names with numbers make a range if and only if both are days of the week, both months, or both the word for a day. |
| `DateRanges.ReadMonth` | common/engine_conf/timeperiod_helper.cc:397-406 | One day of the week in a month is read by the seventh pattern. |
| `DateRanges.ReadPlain` | common/engine_conf/timeperiod_helper.cc:407-428 | A name and a number alone are read by the last pattern, and so is one followed by an interval, which is left over. |
| `DateRanges.ReadPrinted` | common/engine_conf/timeperiod_helper.cc:294-428 | What every printed line is read as. |
| `DateRanges.ReadRangesText` | common/engine_conf/timeperiod_helper.cc:224-266 | The printed text of time ranges is read back up to whole minutes and 32-bit hours. |
| `DateRanges.AtoiIff` | common/engine_conf/timeperiod_helper.cc:253-266 | A text is read as a number if and only if it is digits, after a plus sign or not, whose value fits 64 bits, between blanks or not. |
| `DateRanges.ReadRangeIff` | common/engine_conf/timeperiod_helper.cc:224-266 | A text is read as a time range, and as that one, if and only if it is two times of hours, a colon and minutes with a dash between them. |
| `DateRanges.ReadPiecesIs` | common/engine_conf/timeperiod_helper.cc:224-244 | The ranges kept are those of the pieces before the first that is no time range, and reading succeeds if and only if there is no such piece. |
| `DateRanges.RoundTripIff` | common/engine_conf/timeperiod_helper.cc:294-588 | Reading a printed range succeeds and adds the very same range if and only if it is no calendar date, has time ranges, all in whole minutes with hours below 2^32, has no interval to skip or is neither single nor a day of the week in a month, and its line has at most 1024 characters. |
| `DateRanges.Timeperiod.AddOtherDate` | common/engine_conf/timeperiod_helper.cc:294-476 | A line appends the range that `Parse` gives to the list of its form and to no other, also when its time ranges are not understood; one that is not understood changes nothing. |
| `DateRanges.BuildTimeranges` | common/engine_conf/timeperiod_helper.cc:224-244 | The loop keeps the ranges before the first that is not understood. |
| `DateRanges.DaterangeToStr` | common/engine_conf/timeperiod_helper.cc:521-588 | The line printed is what `Print` says, with the form that has no format reported. |
| `DateRanges.JoinRanges` | common/engine_conf/timeperiod_helper.cc:576-586 | The time ranges are joined with a comma and a space. |
| `Timestamps.OrderIsThatOfTotals` | clib/src/timestamp.cc:67-126 | On normalised timestamps the comparisons are those of total microseconds. |
| `Timestamps.Timestamp.AddUseconds` | clib/src/timestamp.cc:200-215 | Adding microseconds, negative ones too, is exact and leaves a normalised timestamp. |
| `Timestamps.Timestamp.Add` | clib/src/timestamp.cc:161-169 | Adding a timestamp is exact and stays normalised. |
| `Timestamps.Timestamp.Subtract` | clib/src/timestamp.cc:178-186 | Subtracting does what `Minus` says. |
| `Timestamps.MinusIsExactIff` | clib/src/timestamp.cc:178-186 | Subtraction is exact if and only if it borrows or the right side has no microseconds; otherwise it is too large by those. |
| `Timestamps.MinusCanBeWrong` | clib/src/timestamp.cc:178-186 | An example: 5.7 s less 2.3 s gives 3.7 s. |
| `TaskManager.DueIsPrefix` | clib/src/task_manager.cc:196-196 | The tasks due are exactly those at the front of the table. |
| `TaskManager.InsertKeeps` | clib/src/task_manager.cc:82-117 | Insertion keeps the table in time order and adds one entry. |
| `TaskManager.InsertPlace` | clib/src/task_manager.cc:82-117 | A new entry goes behind those due no later and before those due later, whose order stays. |
| `TaskManager.ExecutedKeeps` | clib/src/task_manager.cc:191-236 | An execution leaves a table in time order that holds what was not due and the recurring tasks at their next time. |
| `TaskManager.ExecutionDispatchesDue` | clib/src/task_manager.cc:191-236 | The tasks dispatched are exactly those due, recurring or not, in the order of the table. |
| `TaskManager.NextTimeIsLaterIff` | clib/src/task_manager.cc:203-207 | The next time of a task is after now iff its interval is at most 2147483647, and then it is now plus the interval. |
| `TaskManager.NothingLeftDueIff` | clib/src/task_manager.cc:191-236 | After an execution everything in the table is later than now if and only if no task that was due has a longer interval. |
| `TaskManager.RunConserves` | clib/src/task_manager.cc:82-236 | Over any additions, removals and executions, as many entries of a task as were there or were added are there, were removed, or, if it runs once, were dispatched. |
| `TaskManager.LeftWasNotDue` | clib/src/task_manager.cc:82-236 | A task run once that is still there after any such requests was there at first or added by one of them, and no execution since had come to its time. |
| `TaskManager.Manager.Add` | clib/src/task_manager.cc:82-117 | A new identifier, and the task inserted in order. |
| `TaskManager.Manager.NextExecutionTime` | clib/src/task_manager.cc:126-130 | The earliest time in the table, or the maximum. |
| `TaskManager.Manager.Remove` | clib/src/task_manager.cc:140-159 | All entries of a task are removed and counted. |
| `TaskManager.Manager.Execute` | clib/src/task_manager.cc:191-231 | Exactly the tasks due are dispatched, in order, counted, and the table is left as `Executed` says. |
| `TaskManager.Manager.DispatchDue` | clib/src/task_manager.cc:196-221 | The loop takes the due tasks off one by one and collects the recurring ones. |
| `WorkerPool.ApplyKeepsInv` | clib/src/task_manager.cc:40-69 | Every step of a worker, a producer or the destructor keeps the invariant. |
| `WorkerPool.EveryTaskIsRunOnce` | clib/src/task_manager.cc:40-69 | Over every run the tasks taken are the first ones the run queued, in order, one by each taking; when all workers have gone every task has been taken and has ended, as often as it was queued. |
| `WorkerPool.ExitIsReached` | clib/src/task_manager.cc:44-48 | Once exit is asked for, every run of the workers takes exactly as many steps as are left by count: none is left iff all workers have gone, and before that one of them can go on. |
| `WorkerPool.EmptyQueueIsIdleIff` | clib/src/task_manager.cc:249-252 | Over every run, an empty queue means that no worker is at a task if and only if the run ended as many tasks as it queued. |
| `Dispatching.RunsAloneIff` | clib/src/task_manager.cc:191-252 | Over every interleaving of an execution with a pool in service, whatever its workers are still at, no worker is at a task while the execution runs the i-th task itself, if and only if no task was queued or running as the execution began and none dispatched before the i-th went to the workers. |
| `Dispatching.NextExecutionHasCompany` | clib/src/task_manager.cc:228-252 | An example: a task was queued and taken, so that an execution has returned; the next one runs its first task in company. |
| `Bireactor.NextKeepsInv` | agent/src/bireactor.cc:68-150 | Every step keeps: at most one write under way, that of the first message; acknowledged and queued messages are those accepted, in order; a message that waits has somebody to send it; at most one read under way. |
| `Bireactor.WriteDoneKeepsInv` | agent/src/bireactor.cc:133-150 | What a completion takes off the queue is the message that was under way. |
| `Bireactor.MessagesInOrder` | agent/src/bireactor.cc:68-150 | Over every interleaving, a stream has accepted exactly the messages written before it was closed, has handed over the first ones, as many as there were hand-overs, and has taken as many off its queue as were acknowledged, at most one less; the rest waits in order, and while the stream lives a thread is on its way to send it; a read is under way iff one was started and has not ended. |
| `Bireactor.Stream.Write` | agent/src/bireactor.cc:106-116 | A message goes to the end of the queue iff the stream is alive; otherwise nothing changes. |
| `Bireactor.Stream.StartWrite` | agent/src/bireactor.cc:119-130 | The first message is taken for sending iff the stream is alive, none is under way and one waits. |
| `Bireactor.Stream.OnWriteDone` | agent/src/bireactor.cc:133-150 | Success takes the message off the queue and tries the next, failure is to be reported. |
| `Bireactor.Stream.StartRead` | agent/src/bireactor.cc:68-79 | A read is started iff the stream is alive and none is under way. |
| `Bireactor.Stream.OnReadDone` | agent/src/bireactor.cc:82-103 | Success makes room for the next read, failure is to be reported. |
| `Bireactor.ApplyKeepsValid` | agent/src/streaming_client.cc:131-226 | Every event of the client keeps its invariant and those of its streams. |
| `Bireactor.LiveOrReconnecting` | agent/src/streaming_client.cc:131-226 | Over every run, until it is shut down a client has a live stream or exactly one timer set to create one. |
| `Bireactor.EveryStreamIsLostOnce` | agent/src/streaming_client.cc:206-213 | Over every run, the streams whose failure set a timer are exactly those created before the one in use, or all while a timer is set, each once and in order; other failures set none. |
| `Bireactor.MessagesGoToTheStreamInUse` | agent/src/streaming_client.cc:131-185 | Over every run, each stream has accepted the introduction and then exactly the messages sent while it was in use and alive, in order. |
| `Bireactor.ShutdownIsFinalIff` | agent/src/streaming_client.cc:206-226 | After a shutdown no run brings the client back if and only if at that moment it had a stream, that is, no timer was set, and on that stream there was no read or write under way and no error to report. |
| `Bireactor.RunStaysDown` | agent/src/streaming_client.cc:206-226 | In that case every run leaves the client without a live stream. |
| `Bireactor.UnderWayBringsBack` | agent/src/streaming_client.cc:206-226 | Otherwise a run brings it back: what is under way fails, the failure is reported, and the timer that it sets creates a new stream. |
| `Bireactor.StreamingClient.CreateReactor` | agent/src/streaming_client.cc:131-155 | The stream in use, if any, is shut down and a new one takes its place with the introduction alone in its queue. |
| `Bireactor.StreamingClient.Send` | agent/src/streaming_client.cc:181-185 | A message goes to the end of the queue of the stream in use if that is alive, or nowhere. |
| `Bireactor.StreamingClient.OnError` | agent/src/streaming_client.cc:206-213 | The error handler does what the event says. |
| `Bireactor.StreamingClient.Shutdown` | agent/src/streaming_client.cc:220-226 | So does the shutdown. |
| `DriveFilter.Filter.IsAllowed` | agent/src/drive_size.cc:190-251 | After any calls, the answer is that of type mask and patterns alone. |
| `DriveFilter.Look` | agent/src/drive_size.cc:199-223 | A name is looked up in the caches and judged only if it is new; the caches only grow and stay right. |
| `DriveFilter.VerdictsAreApart` | agent/src/drive_size.cc:190-251 | No name is both allowed and excluded. |

## Left out

- Scheduler: the running index of a check is unbounded; checks are addressed by identifiers in a table instead of by shared pointers, and the timer that drives the loop is an event.
- Export: descriptions, units, attributes and exemplars of metrics.
- Templates: an additive list that is merged into itself, which the source leaves undefined, is merged from a snapshot; message types are handled one at a time, and those without an object part use nothing.
- ProcessExec: the calls that put the standard descriptors back are taken to succeed; signal interruptions are retried until an outcome; command line parsing fails like a refused start.
- Supervisor: the bytes read from streams, the shutdown of the manager, and pids that the system gives out again while their exit is still held as an orphan; the tables are filled one process at a time instead of one table at a time; registration and the kill loop are one step each, as what they read of a process changes only by an execution that could as well have come before or after the loop.
- IncludeGraph: reading headers and building the graph; the fix mode finds the line of an include by the suffix of its name and so can take out another one as well, while the model deletes exactly the edges reported.
- DateRanges: numbers outside 32 bits, whose scanning the C standard leaves undefined, wrap; calendar dates have their own parser, which is not part of this model.
- TaskManager: removal by identifier, overflow of seconds, and additions while an execution runs; workers take queued tasks when the execution waits for them.
- Bireactor: messages that a dead stream did not deliver are dropped, as in the source, and not followed further.
- DriveFilter: patterns are arbitrary predicates on names.
- The configuration parser's group fields, week days and string lists are read item by item and keep no state; the AES wrapper, the check plugins and the broker events hand data to libraries, sensors and streams outside the repository; the legacy configuration objects repeat the inheritance modelled in Templates.
