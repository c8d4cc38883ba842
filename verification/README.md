# Verified model of the coroutine scheduler, the logger and the configuration system

The repository is a small C++ server framework: stackful coroutines ("fibers") run by a scheduler on
several threads, a logger whose formats are written in a pattern language, and configuration variables
that can be reloaded while the program runs and that rebuild the loggers through a listener. This
project models the parts that are hard to get right and proves what they are meant to guarantee.

## The scheduler

`SchedulerModel` describes any number of workers, each running the loop of `Scheduler::run` over one
task list, as a transition system. Every section under the scheduler's mutex is one step, and so is
every point at which another thread could see a change; in particular the decrement of the active
counter and the re-queueing of a READY fiber are separate steps. Task bodies are arbitrary: at every
moment the code of a fiber may submit, yield either way, return or throw. Control transfer goes
through the saved contexts: every thread has its thread-local pointers, and its own fiber and the root
fiber hold contexts. `swapIn` stores the loop's continuation in whatever fiber is the scheduler's on
its thread and continues where the context of the target leads; `swapOut` returns to what that
scheduler fiber holds; `call` stores the rest of `stop()` in the thread's own fiber and continues the
root fiber, and `back` stores the end of the root fiber in it and continues what the thread's own
fiber holds. That control comes back to the right place is therefore a theorem and not part of the
model.

`SchedulerInvariant`, `SchedulerSteps`, `SchedulerCounters`, `SchedulerShutdown`, `SchedulerHistory` and
`SchedulerTheorems` build the invariant step by step. What follows for every reachable state of every
configuration is stated in `SchedulerSafety` (ownership, counters, lifetime, dispatch, shutdown),
`SchedulerTransfer` (control transfer), `SchedulerLife` (the life cycle of fibers, no worker is
stuck), `SchedulerPins` (what a submission queues and who may take it), `SchedulerOvertaking` (how the
queue moves), `SchedulerCompletion` (exactly when a stop that
has begun can come to its end with an empty queue) and `SchedulerFairness` (that it does come to its
end: a theorem about infinite runs, under fairness; `SchedulerFairRuns` shows that such runs exist).
`SchedulerLimits` shows where the guarantees end, and that the gap at shutdown is real: a run in which `stopping()` is true while a worker still holds a
READY fiber. `SchedulerMachine` has the bodies of the functions in imperative form, cut at the same
points; a new machine can execute every run of the transition system, with no check of the source
failing on the way, and ends where the transition system says.

One rule is asked of clients: a fiber handle is submitted (or reset) only while the fiber is neither
queued nor in a worker's hands. A second rule concerns shutdown only: after `stop()` has begun,
nobody but running tasks submits, and they pin work to no thread or to their own. Submissions against
the second rule are allowed in the model and recorded as strays, by the number of the submission.

`CallerScheduler` is the scheduler with the caller's thread as its only worker, as a class. Fibers
there have finite scripts, and `stop()` is proved to terminate and to do exactly what the rotation of
`RoundRobin` does. `SchedulerRotation` ties this to the transition system: the rotation is one of its
runs, from a new scheduler to the return of `stop()`.

## The logger and the configuration

`PatternGrammar` and `LogFormatters` cover the pattern parser: the index scanner is proved against a
description of the text still to be read, and that against a grammar of all patterns, which says of each
what items it gives and whether it has an error. `DefaultPattern` shows that the format of a new logger
is accepted by it.

`LoggerSpec` is the registry of loggers and what one change of the configuration does to it,
`LogDelivery` what a message writes, and when it follows a null pointer. The listener that patches the
loggers begins with a message to the root logger. `LogHistory` puts the two together: which histories
of configurations run to their end, what they leave, and when that is what building the last
configuration from scratch would give. `Loggers` and `LoggerManagers` are the objects, with the `logs`
variable and the listener on it.
`Inheritance` follows formatters from loggers to appenders over arbitrary runs.

`ConfigVars` covers the variables and the notifications of their listeners, `ConfigLoader` the loading
of a YAML tree, and `ConfigKeys` says what loading does in terms of the keys that lead to a node. A set
of logger definitions is a map from the logger's name, which is its order.

`LockPaths` lists the locks that every entry point of the two modules takes, as trees of scoped guards,
with the shared fields that are used inside them. `LockSafety` shows that threads calling them never
come to a stop, and `DataRaces` that they never use a field at the same time with one of them writing,
unless somebody clears a logger's appenders.

## Results that differ from what one might expect

- A logger whose definition loses its formatter keeps the old one. So patching in place is a rebuild
  exactly when the current definition has a valid formatter or no earlier one ever took effect
  (`LogHistory.IncrementalIsRebuild`, `LogHistory.RetainsOldFormatter`).
- The comment at atpdxy/log.cpp:770 speaks of a high level for a dropped logger. The code sets the
  lowest one, and the logger hands its messages to the root logger (`LogHistory.LoggedAsDefined`).
- A configuration that leaves the root logger without an appender makes the next message to it
  follow a null pointer (`LogHistory.LoggingIsSafe` says exactly when). The next message may be the one
  that announces the next change of the configuration, so that even a configuration which gives the
  root logger an appender again is never applied (`LogHistory.RestoringRootCrashes`; which histories
  run to their end is `LogHistory.HistoryRuns`).
- `clearAppenders` takes no lock, and the listener on `logs` calls it: reconfiguring a logger while a
  message to it is on its way is a data race (`DataRaces.ReconfiguringRaces`, `DataRaces.ClearingRaces`).
  Without it there is none (`DataRaces.NoDataRace`).
- In a pattern, `%%` puts a percent sign into the literal but does not consume the second one, which
  may start a directive. The grammar describes this behaviour, so that the theorems hold for all
  patterns.
- The set of valid name characters lacks the digit 9 (`ConfigLoader.NameChars`).

## Model

| member | source | states |
|---|---|---|
| SchedulerSafety.NoTaskLost | atpdxy/scheduler.cpp:61-147 | when all workers have left `run`, every entry still queued is the very one that a stray submission made, no READY fiber is outside the queue, both counters are zero, and each accepted callback not among the left-overs was started exactly once |
| SchedulerSafety.StoppedMeansLeft | atpdxy/scheduler.cpp:167-213 | once `stop()` has returned, every worker has left `run` or was never needed, provided the pool was started or the caller takes part |
| SchedulerSafety.StopDrains | atpdxy/scheduler.cpp:167-213 | with no strays, `stop()` returns with an empty queue if and only if there was a worker to drain it or nothing was ever submitted |
| SchedulerSafety.ExclusiveOwnership | atpdxy/scheduler.cpp:67-128 | a fiber is in at most one queue entry or one worker's hands, an executing fiber is the current fiber of exactly one worker, a READY fiber is queued or held |
| SchedulerSafety.AssertionsNeverFail | atpdxy/fiber.cpp:94-165 | in every reachable state the run-time checks on the path of every enabled step hold: `swapIn`, `reset`, the yields, `MainFunc`, and both counters before their decrement |
| SchedulerSafety.CountersExact | atpdxy/scheduler.cpp:84-145 | the active and idle counters equal the number of workers between claim and release, and inside the idle fiber |
| SchedulerSafety.RecyclingSafe | atpdxy/scheduler.cpp:110-128 | at the loop's head the callback fiber is absent, or at its start with no function, queued nowhere and held by nobody else |
| SchedulerSafety.NeverDestroyedUnfinished | atpdxy/fiber.cpp:74-91 | a fiber to which no pointer is left is in INIT, TERM or EXCEPT and no thread is on its stack |
| SchedulerSafety.SelfReference | atpdxy/fiber.cpp:153-198 | a suspended fiber is kept alive by the pointer on its own stack; an executing one by that or by its worker |
| SchedulerTransfer.ReturnsToResumer | atpdxy/fiber.cpp:124-140 | a yield or finish resumes the loop of the worker, and the call, that resumed the fiber last, with `t_fiber` set to that thread's scheduler fiber and nothing else changed |
| SchedulerTransfer.ResumesOwnCode | atpdxy/fiber.cpp:124-132 | switching to a claimed fiber, to a callback's fiber or to the idle fiber continues the code of that fiber, a callback at its entry, with the loop waiting in the scheduler fiber |
| SchedulerTransfer.SwapsNest | atpdxy/fiber.cpp:124-140 | while a fiber is on a thread, nothing but its `swapOut` takes it off, and the loop's context stays where `swapIn` put it |
| SchedulerTransfer.CallEntersRun | atpdxy/fiber.cpp:115-122 | `call()` continues the root fiber, which is at the entry of `run`, and leaves the rest of `stop()` in the thread's own fiber |
| SchedulerTransfer.CallStaysOpen | atpdxy/fiber.cpp:108-140 | during the call no code of `stop()` runs, and no step but the worker's exit touches the context that `call()` saved |
| SchedulerTransfer.CallIsNested | atpdxy/scheduler.cpp:198-202 | in every run from a state inside the call, either it is still open with its context untouched, or the caller's worker has left, its fiber has ended, and `stop()` has gone on from where it called |
| SchedulerTransfer.CallIsOver | atpdxy/fiber.cpp:200-225 | after `back()` the root fiber is never continued |
| SchedulerTransfer.BackReturnsToStop | atpdxy/fiber.cpp:108-113 | at the end of the caller's worker the thread's own fiber holds the rest of the `stop()` that called, and `back()` continues exactly that, on the thread's own fiber |
| SchedulerLife.LifeCycle | atpdxy/scheduler.cpp:98-145 | every step keeps every fiber to its life cycle: a READY fiber stays READY until a worker holding it resumes it, an executing one changes only by its own code to the state that code asked for and loses its function by returning only, a finished one is recycled at its entry |
| SchedulerLife.NeverStuck | atpdxy/scheduler.cpp:50-148 | in every reachable state a worker still in `run` can take its next step: the fiber or context it needs is there |
| SchedulerCompletion.StopCanComplete | atpdxy/scheduler.cpp:167-213 | once `stop()` has begun, without strays: some run leads to its return with an empty queue if and only if every queued task may be run by a worker that takes part |
| SchedulerCompletion.UnnamedForever | atpdxy/scheduler.cpp:71-75 | once `stop()` has begun, a task that no worker taking part may run stays queued in every further run |
| SchedulerFairness.FairStopReturns | atpdxy/scheduler.cpp:50-213 | on every infinite run that is fair, has no strays and queues only so many tasks: a `stop()` that has begun returns with an empty queue if and only if every queued task may be run by a worker that takes part |
| SchedulerFairness.NoEndlessStop | atpdxy/scheduler.cpp:61-148 | no such run waits in `stop()` for ever: every worker comes to rest, the queue is drained, and every worker leaves |
| SchedulerFairness.CalmMeansEmpty | atpdxy/scheduler.cpp:66-92 | when claims have ended and every worker goes round its idle loop, nothing is left in the queue |
| SchedulerFairRuns.FairRunExists | atpdxy/scheduler.cpp:50-213 | from every state in which a stop has properly begun such a run exists |
| SchedulerSafety.DispatchedOnce | atpdxy/scheduler.cpp:66-128 | submitted tasks are exactly those queued and those claimed, every claim matches the pin of its task, no callback is started twice or without a claim |
| SchedulerPins.SubmissionQueues | atpdxy/scheduler.h:27-72 | a submission puts exactly one task at the back, with the pin and the handle or callback as given, under the next number; it is stray exactly by the rule for shutdown |
| SchedulerPins.PinKept | atpdxy/scheduler.cpp:71-75 | in every run, the entry of a submission stays queued until a worker takes exactly that task: the worker its pin names, or any if there is none |
| SchedulerPins.ScanExactly | atpdxy/scheduler.cpp:66-92 | a scan takes the first entry that is neither pinned to another worker nor executing, or finds that there is none |
| SchedulerSafety.IdleEndsExactly | atpdxy/scheduler.cpp:129-147 | the idle fiber ends if and only if a stop was asked for, nothing is queued and no worker is between a claim and its release |
| SchedulerOvertaking.BoundedOvertaking | atpdxy/scheduler.cpp:68-89 | an unpinned task with k tasks ahead moves up one place per claim and is claimed no later than claim k+1 from now |
| SchedulerTheorems.RunFull | atpdxy/scheduler.cpp:50-148 | the whole invariant holds along every run |
| SchedulerTheorems.ReachableFull | atpdxy/scheduler.cpp:13-148 | the whole invariant holds in every reachable state of every configuration |
| SchedulerSteps.StepInv | atpdxy/scheduler.cpp:50-148 | every step keeps ownership, the fiber life cycle, and what each worker's position says about its local variables |
| SchedulerSteps.StepProtocol | atpdxy/scheduler.cpp:150-213 | every step keeps the order of `start()`, `stop()` and the workers' life, and the pointers and contexts of their threads |
| SchedulerCounters.StepCounters | atpdxy/scheduler.cpp:84-145 | every step changes each counter by the change of the moving worker's phase |
| SchedulerShutdown.StepShutdown | atpdxy/scheduler.cpp:129-138 | after any worker saw `stopping()` true, every queue entry that is no stray has a worker that may run it and must scan again |
| SchedulerShutdown.StepOrder | atpdxy/scheduler.h:63-72 | every step keeps the queue equal to the submissions under its entries' numbers, oldest first |
| SchedulerHistory.StepHistory | atpdxy/scheduler.cpp:66-128 | every step keeps conservation of tasks, pins, and the single place of each callback |
| SchedulerLimits.StrandedForever | atpdxy/scheduler.cpp:71-75 | a task pinned to a worker that has left or never existed stays queued in every further run |
| SchedulerLimits.StoppingWithReadyFiber | atpdxy/scheduler.cpp:116-121 | a reachable state has `stopping()` true and a READY fiber in a worker's hands |
| SchedulerMachine.Machine.Find | atpdxy/scheduler.cpp:68-85 | the search loop stops at the first eligible task, or at the end |
| SchedulerMachine.Machine.Scan | atpdxy/scheduler.cpp:66-92 | the scan claims that task and counts it, or finds none |
| SchedulerMachine.Machine.FiberStep | atpdxy/fiber.cpp:124-198 | in every reachable state, the imperative code of a fiber step passes its checks and takes exactly that step |
| SchedulerMachine.Machine.LoopStep | atpdxy/scheduler.cpp:50-148 | the same for every step of the worker loop |
| SchedulerMachine.Machine.ClientStep | atpdxy/scheduler.h:27-38 | the same for what clients and task code do: fibers, handles, submissions |
| SchedulerMachine.Machine.StopStep | atpdxy/scheduler.cpp:150-213 | the same for every step of `start()`, also a second one, and of `stop()` |
| SchedulerMachine.Machine.PerformAll | atpdxy/scheduler.cpp:50-213 | any run from a reachable state can be executed and leads where the transition system says |
| SchedulerMachine.Execute | atpdxy/scheduler.cpp:13-213 | a new scheduler of any configuration can execute any run of the transition system, to the same end |
| CallerScheduler.Scheduler.Stop | atpdxy/scheduler.cpp:167-213 | `stop()` with the caller as only worker terminates with an empty queue, having run exactly the rotation of the queued and submitted work |
| CallerScheduler.Scheduler.Run | atpdxy/scheduler.cpp:50-148 | the loop terminates: its log and what each fiber has left are those of the rotation, both counters are back at zero |
| CallerScheduler.Scheduler.TakeTurn | atpdxy/scheduler.cpp:61-128 | one iteration gives the first task its turn, or finds the queue empty |
| CallerScheduler.Scheduler.RunFiber | atpdxy/scheduler.cpp:98-109 | a claimed fiber runs one segment and goes to the back, is parked, or is skipped when finished |
| CallerScheduler.Scheduler.RunCallback | atpdxy/scheduler.cpp:110-128 | a callback runs one segment on a recycled or new fiber and keeps the slot only when it has finished |
| CallerScheduler.Scheduler.Claim | atpdxy/scheduler.cpp:66-92 | the first eligible task is removed and counted |
| CallerScheduler.Scheduler.ScheduleNoLock | atpdxy/scheduler.h:63-72 | a non-empty task is appended; the result says whether the queue was empty |
| CallerScheduler.Scheduler.ScheduleAll | atpdxy/scheduler.h:40-54 | the batch appends exactly the non-empty elements in order, for any thread, and leaves its source empty |
| CallerScheduler.SubmitsInOrder | atpdxy/scheduler.h:63-72 | the submissions of a segment become tasks in their order, with handle or callback and pin as given; a null handle becomes none |
| RoundRobin.TurnDecreases | atpdxy/scheduler.cpp:61-128 | every turn consumes a script segment or removes a finished fiber's handle |
| RoundRobin.RotateBounded | atpdxy/scheduler.cpp:50-148 | no more segments run than the scripts hold |
| RoundRobin.RunsInOrder | atpdxy/scheduler.cpp:98-128 | the segments a client's fiber ran, followed by those it has left, are those it had: in order, whole, nothing twice |
| RoundRobin.NotLeftReady | atpdxy/scheduler.cpp:103-107 | a queued fiber with work left runs, and its last segment does not end in a READY yield |
| RoundRobin.TurnQueues | atpdxy/scheduler.h:27-72 | after a turn, behind what was queued stand the callbacks and the handles its segment submits, in their order, then the item itself if it yielded READY, and nothing else |
| RoundRobin.SubmittedRuns | atpdxy/scheduler.cpp:98-109 | a fiber with work left whose handle any logged segment submits runs again later in the log |
| RoundRobin.CallbacksRunWhole | atpdxy/scheduler.cpp:110-128 | the callback segments in the log are exactly those of the callbacks queued at the start and of all submitted on the way, each run to its end or its HOLD |
| SchedulerRotation.RotationIsARun | atpdxy/scheduler.cpp:50-213 | for all scripts that keep the rule for handles, the transition system with the caller as only worker has a run that claims what takes a turn, in the order of the rotation, leaves every fiber what the rotation leaves it, and goes on to the return of `stop()` |
| SchedulerRotation.RotationRuns | atpdxy/scheduler.cpp:61-128 | the same for the loop alone, from any table of queued work |
| SchedulerRotation.TurnRuns | atpdxy/scheduler.cpp:61-128 | one turn is a run with one claim, of the first item, from the head of the loop to the head |
| PatternGrammar.PrintParse | atpdxy/log.cpp:454-561 | the text of every well-formed token list, with or without an error, parses to exactly the entries the list stands for |
| PatternGrammar.ParsePrint | atpdxy/log.cpp:454-561 | every pattern is the text of a well-formed token list with the parsed entries; the list is valid if and only if there is no error |
| PatternGrammar.AcceptsGrammar | atpdxy/log.cpp:454-561 | the error flag is clear if and only if the pattern is the text of some valid token list |
| PatternGrammar.Unambiguous | atpdxy/log.cpp:545-557 | two well-formed token lists with the same text have the same entries, and both are valid or neither is |
| PatternGrammar.ValidEntries | atpdxy/log.cpp:509-542 | a valid token list stands for one entry for each token, in order |
| LogFormatters.LogFormatter.constructor | atpdxy/log.cpp:441-561 | the error flag is raised exactly outside the grammar; without an error there is one item for each token, with its text, or its letter and format text; for every pattern the items are those of what its tokens stand for |
| LogFormatters.LogFormatter.ScanDirective | atpdxy/log.cpp:471-507 | the inner loop reads one directive, or finds a brace group without an end |
| LogFormatters.LogFormatter.TakeDirective | atpdxy/log.cpp:509-520 | pending text is emitted before a directive; the scan advances also after an open brace group |
| LogFormatters.LogFormatter.Scan | atpdxy/log.cpp:458-525 | the outer loop terminates with exactly the entries of the parse |
| LogFormatters.LogFormatter.BuildItems | atpdxy/log.cpp:545-559 | one item for each entry: its text, its known letter with the format text, or an error text with the unknown name, which raises the flag |
| LogFormatters.LogFormatter.Format | atpdxy/log.cpp:446-452 | formatting gives what the items show, one after the other |
| LogFormatters.FormatJoins | atpdxy/log.cpp:446-452 | that is nothing for no items, the item's text for one, and the concatenation for two lists |
| DefaultPattern.DefaultValid | atpdxy/log.cpp:260-263 | the format of a new logger has no error |
| LogHistory.HistoryRuns | atpdxy/log.cpp:720-723 | a history of configurations runs to its end if and only if at every real change the root logger had an appender or a level above INFO |
| LogHistory.RestoringRootCrashes | atpdxy/log.cpp:336-349 | a history that ends in the null root pointer although its last configuration gives the root logger an appender |
| LogHistory.HistoryResult | atpdxy/log.cpp:719-778 | after a history that ran to its end: each defined logger has the level and appenders of its current definition and the last effective formatter, each dropped one level 0 and no appenders, all others are untouched |
| LogHistory.IncrementalIsRebuild | atpdxy/log.cpp:719-778 | for a defined logger, patching equals rebuilding if and only if its definition has an effective formatter or the retained one is the original |
| LogHistory.IncrementalMatchesDefinition | atpdxy/log.cpp:741-763 | after a history that ran to its end, the level agrees with the current definition, and each appender field by field: a file exactly for type 1, its name, its level, and its own formatter exactly when the text is not empty and in the grammar |
| LogHistory.RetainsOldFormatter | atpdxy/log.cpp:742-744 | a history after which patching and rebuilding differ |
| LogHistory.LeavesExpected | atpdxy/log.cpp:719-778 | a history that ran to its end leaves exactly the loggers that can be read off the configurations, and the root logger |
| LogHistory.LoggingIsSafe | atpdxy/log.cpp:344-347 | after such a history no message follows the missing root pointer if and only if the root logger is left with an appender |
| LogHistory.LoggedAsDefined | atpdxy/log.cpp:336-349 | after such a history, a message to any logger at any level writes nothing below the logger's level, else one line for exactly the appenders whose level it reaches, in order; without appenders it is the root logger's answer, or a crash for the root logger |
| LogHistory.LinesAlwaysFormatted | atpdxy/log.cpp:390-411 | after such a history, valid or not, every line is written with a valid format |
| LogHistory.InitialOutput | atpdxy/log.cpp:562-568 | before any configuration a message to the root logger is one line on standard output in the default format |
| LogDelivery.LinesWritten | atpdxy/log.cpp:339-343 | the lines of a message are those of exactly the appenders whose level it reaches, in order, each to its place in its format |
| LogDelivery.CrashExactly | atpdxy/log.cpp:336-349 | a message follows the null root pointer exactly when its level passes and neither the logger nor the root logger has an appender |
| LoggerManagers.LoggerManager.constructor | atpdxy/log.cpp:562-568 | the registry starts with the root logger printing to standard output |
| LoggerManagers.LoggerManager.GetLogger | atpdxy/log.cpp:570-581 | the registered logger is found, or created under its name with a pointer to the root logger |
| LoggerManagers.LoggerManager.MakeAppender | atpdxy/log.cpp:747-761 | the appender object has kind, file, level and own formatter of its definition |
| LoggerManagers.LoggerManager.Configure | atpdxy/log.cpp:741-763 | the logger object becomes what its definition says |
| LoggerManagers.LoggerManager.Reconfigure | atpdxy/log.cpp:726-763 | a new or changed definition changes the registry at its name only |
| LoggerManagers.LoggerManager.DropLogger | atpdxy/log.cpp:766-776 | a definition that is gone changes the registry at its name only |
| LoggerManagers.LoggerManager.Patch | atpdxy/log.cpp:724-777 | both loops take the objects to the patched registry, in whatever order the names come |
| LoggerManagers.LoggerManager.OnChange | atpdxy/log.cpp:720-777 | the listener announces the change to the root logger first; if that follows the null pointer nothing is patched |
| LoggerManagers.LogVariable.SetValue | atpdxy/config.h:292-304 | an equal value changes nothing; otherwise the change crashes before anything is patched or stored, or the registry is patched and the value stored |
| LoggerManagers.LogVariable.SetAll | atpdxy/config.h:292-304 | a history of values takes the objects to what the specification of histories says, crash included |
| LoggerManagers.LoggerManager.Log | atpdxy/log.cpp:336-349 | a message to a registered logger writes what the registry's view says |
| Loggers.Logger.constructor | atpdxy/log.cpp:260-263 | a new logger has level DEBUG, the default format and no appenders |
| Loggers.Logger.AddAppender | atpdxy/log.cpp:284-291 | the appender is attached and receives the logger's formatter only if it has none |
| Loggers.Logger.DelAppender | atpdxy/log.cpp:293-301 | the first occurrence of the appender is removed |
| Loggers.Logger.ClearAppenders | atpdxy/log.cpp:303-305 | all appenders are detached |
| Loggers.Logger.SetFormatter | atpdxy/log.cpp:307-317 | the formatter reaches every appender without its own, and no other |
| Loggers.Logger.SetPattern | atpdxy/log.cpp:319-329 | an invalid pattern changes nothing |
| Loggers.Logger.Log | atpdxy/log.cpp:336-349 | each appender whose level allows writes its line; without appenders the root logger takes over |
| Loggers.LogAppender.SetFormatter | atpdxy/log.cpp:250-258 | the mark of an own formatter follows the formatter |
| Inheritance.InheritanceHolds | atpdxy/log.cpp:250-317 | in every run that attaches fresh appenders and sets no null formatter, each attached appender has a formatter, its logger's current one unless it has its own |
| Inheritance.OwnIsKept | atpdxy/log.cpp:307-317 | an appender with its own formatter keeps it until a client replaces it |
| Inheritance.AttachExactly | atpdxy/log.cpp:284-291 | attaching keeps the property if and only if the appender has no formatter, its own, or just this logger's without being shared |
| Inheritance.DisownExactly | atpdxy/log.cpp:250-258 | taking an appender's formatter away keeps the property if and only if it is attached nowhere |
| Inheritance.NullFormatterExactly | atpdxy/log.cpp:307-317 | after a null formatter a logger can still write if and only if all its appenders have their own |
| Inheritance.Objects.Perform | atpdxy/log.cpp:250-329 | the object methods take the steps of these runs |
| Inheritance.Objects.PerformAll | atpdxy/log.cpp:250-329 | whole runs on the objects are runs of the model |
| ConfigVars.NotificationsReplay | atpdxy/config.h:292-330 | in every run of a new variable the calls a listener received form a chain of real changes from the value at its registration to the current one, or to the one at its removal; who was never registered received none |
| ConfigVars.ChangeCallsEachOnce | atpdxy/config.h:298-300 | a change calls each live listener once, in ascending id order, with the same pair, while the variable still holds the old value |
| ConfigVars.RemovedHearsNothing | atpdxy/config.h:316-330 | in every run, a removal leaves the other listeners registered in their order, and no later change calls the removed one, or any after all were removed |
| ConfigVars.ConfigVar.NotifyAll | atpdxy/config.h:293-301 | an equal value calls nobody; otherwise every listener is called in order with the value held at the time and the new one |
| ConfigVars.ConfigVar.SetValue | atpdxy/config.h:292-304 | listeners are called before the value is stored, and not at all for an equal value |
| ConfigVars.ConfigVar.AddListener | atpdxy/config.h:308-314 | a new listener gets the next number of the shared counter |
| ConfigVars.ConfigVar.DelListener | atpdxy/config.h:316-319 | exactly that listener is removed |
| ConfigVars.ConfigVar.ClearListener | atpdxy/config.h:327-330 | all listeners are removed |
| ConfigLoader.ListedIsValidPaths | atpdxy/config.cpp:9-21 | pruning at an invalid prefix loses no path with a valid key |
| ConfigKeys.PathsExactly | atpdxy/config.cpp:9-21 | the paths are every node that a sequence of keys leads to, once, in document order, under the text k1.k2. ... .kn of its keys (without empty ones at the beginning), and nothing else |
| ConfigKeys.LoadByKeys | atpdxy/config.cpp:24-43 | a variable that nodes under its keys give convertible values ends with the last of them in document order; no other variable changes, no name appears or disappears |
| ConfigLoader.LoadIsExact | atpdxy/config.cpp:24-43 | each variable ends with the last convertible value among the tree's paths that spell its name, no name appears or disappears, unmentioned variables and one with the empty name are untouched |
| ConfigLoader.LoadAllResult | atpdxy/config.cpp:27-43 | the same for a list of members, and the variables stay consistent with their listeners |
| ConfigLoader.LowerKeepsValid | atpdxy/config.cpp:32 | lowering a listed key changes nothing |
| ConfigLoader.ListAllMember | atpdxy/config.cpp:9-21 | the recursive walk appends exactly the specified list |
| ConfigLoader.Config.LoadMember | atpdxy/config.cpp:27-42 | one listed member assigns an existing variable, or nothing |
| ConfigLoader.Config.LoadFromYaml | atpdxy/config.cpp:24-43 | the loop applies the listed members in order |
| ConfigLoader.Config.LookupOrCreate | atpdxy/config.h:345-371 | a variable of the right type is found, a wrong type and a bad new name are reported, a good new name is created |
| ConfigLoader.Config.LookupBase | atpdxy/config.cpp:46-50 | the lookup changes nothing |
| LockPaths.CallNested | atpdxy/log.cpp:245-349 | every entry point takes its locks in the order registry, variable, manager, named logger, root logger, appender |
| LockPaths.LogCallNested | atpdxy/log.cpp:266-349 | no call into the log module takes a lock of the config module |
| LockPaths.ListenerNested | atpdxy/log.cpp:719-778 | the built-in listener keeps what is asked of listeners |
| LockPaths.SetValueNested | atpdxy/config.h:292-304 | `setValue` with any well-behaved listeners keeps the order |
| LockPaths.LookupNested | atpdxy/config.h:345-371 | `Lookup` keeps the order, also when its error message prints the variable |
| LockSafety.FlattenDisciplined | atpdxy/mutex.h:36-129 | scoped guards in such an order take locks of rising rank and let them go in reverse |
| LockSafety.ReachableInv | atpdxy/mutex.h:36-220 | in every reachable state all threads keep the hierarchy and a writer is alone |
| LockSafety.NoWaiterCycle | atpdxy/log.cpp:266-349 | no reachable state has a cycle of threads waiting for each other |
| LockSafety.NoDeadlock | atpdxy/config.h:292-371 | in every reachable state with an unfinished call some thread can step, whatever the policy of the read-write locks; at the end nothing is held |
| LockSafety.Finishes | atpdxy/config.h:292-371 | from every such state all calls can be run to their end |
| LockSafety.RunsAreShort | atpdxy/config.h:292-371 | no run has more steps than there are lock operations |
| LockSafety.ReentrantListenerStops | atpdxy/config.h:292-314 | the condition on listeners is needed: one that registers a listener on its own variable blocks for good |
| LockSafety.AloneExactly | atpdxy/mutex.h:36-220 | a thread alone can finish its code if and only if no guard conflicts with one around it |
| LockSafety.ListenerAlone | atpdxy/config.h:292-304 | `setValue` with one listener, alone, can return if and only if the listener takes its own variable for reading only and has no conflict within itself |
| DataRaces.CallCovered | atpdxy/log.cpp:245-411 | every entry point but `clearAppenders`, and a listener that calls it, uses each shared field under the field's lock, and writes it in exclusive mode |
| DataRaces.NoDataRace | atpdxy/config.h:259-371 | with such calls on any threads, no reachable state has two threads at the same field with one of them writing it |
| DataRaces.ClearingRaces | atpdxy/log.cpp:303-305 | clearing a logger's appenders races with any message to it that passes its level |
| DataRaces.ReconfiguringRaces | atpdxy/log.cpp:720-746 | so does a change of the configuration of that logger, through the listener |

## Left out

- Scheduling a fiber that is queued, executing or in a worker's hands: the model allows such a submission only for a free fiber, so the guarantees are not claimed for other clients.
- Work submitted from outside after `stop()` began, or pinned to another thread: it is in the model and may be left queued; the shutdown theorems name it as stray.
- Termination of `stop()` under unfair schedules, or while tasks are queued without end: an idle worker spins, and a fiber may yield READY for ever.
- The two assertions of `stop()` about its thread (atpdxy/scheduler.cpp:181-185): with `use_caller` clients call it on the thread of the constructor, otherwise on a thread that is no worker.
- A second `stop()`, and `start()` once `stop()` has begun.
- Reference counts: a fiber is referenced while some modelled place holds a pointer to it, there is no counter.
- Fibers as objects: workers and fibers of the N-thread model are values held by the machine object, so aliasing between handles is modelled by fiber numbers.
- What the transition system does with a handle submitted while it is queued or executing: the class of `CallerScheduler` allows that, so `SchedulerRotation` speaks only of scripts that never do it.
- What task code computes: between entering and its next yield it is arbitrary, except in `CallerScheduler`, where it is a script of submissions and yields.
- `tickle`, and the value of `tickle_me` after a claim, which compares an erased iterator: the default `tickle` only logs.
- The check of `stopping()` in the idle fiber and the state it sets are one step; nothing between them is visible to other threads.
- `ucontext`, stacks and their size, backtraces, the fiber counters, and the thread class with its start-up semaphore: creating a thread is the step that lets its worker boot.
- Fibers resumed outside a scheduler, and subclasses with their own `idle` or `stopping`.
- Messages that the config module and the scheduler log themselves: they need a logger that can take them, which is the condition of `LogDelivery.CrashExactly`.
- Log files and standard output, `reopen`, time, the single format items (opaque functions from an event to text), and `isalpha` outside the C locale.
- The text conversions of containers and of logger definitions: levels of appenders are printed but not read back, so there is no round trip to prove. Loading starts from abstract trees and partial conversions.
- Variables of different types in one registry: the model has one value type, the source's type test is kept as a type name. Mapping keys of a YAML tree are scalars.
- Concurrent `setValue` on one variable: it compares and notifies under one lock and writes under another, so the notification chain is sequential.
- Listeners and visitors that throw, and listeners that change the listener map while it is being walked.
- A root logger without appenders in the lock model: its message would follow the null pointer. Which locks a client's listener or visitor takes is a parameter, required to rank above the lock it runs under.
- Fields that the source uses without a lock throughout: levels, the mark of an own formatter, the time a file was last opened, and the counter of listener numbers, which variables of one type share under different locks.
- The destructor order of singletons and static initialisation.
