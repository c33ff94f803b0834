# Verification of the fiber scheduler, the log formatter and the configuration

This project models three parts of the repository and proves what they promise.

**The M:N fiber scheduler.** Any number of workers share one locked queue of fibers and callbacks. The model in
`WorkerSteps.dfy` is a step system: a region under `m_mutex` excludes other such regions, the scan of the queue takes
one step per entry, and each read or write of a fiber's state outside the lock is a step of its own, so a fiber may
change state between two of a worker's steps. User code is arbitrary: it may push entries, create fibers, keep and drop
pointers, yield, return or throw. The results are about every state of every run, for any number of workers, under the
queueing discipline that the code relies on (`DisciplinedUser`, `DisciplinedRun`): calls from outside end before
`stop()`; a fiber has at most one queue entry; a fiber that a worker still holds is queued only while it is EXEC, and
then yields to hold next. `WorkerScenarios.dfy` shows a run without the discipline in which two workers execute on one
stack and no assertion fails. `WorkerHistory.dfy` counts what the calls of a run hand over and start; `WorkerTasks.dfy`,
`WorkerEnds.dfy`, `WorkerOrder.dfy` and `WorkerProgress.dfy` follow a task from the call that queues it, say how
functions end, in which order callbacks are taken, and that no worker gets stuck. `WorkerPins.dfy` is about entries
pinned to a thread: it says when nothing is left behind and what happens otherwise, with concrete runs in
`WorkerPinScenarios.dfy`. `OneWorker.dfy` has `Scheduler(1, true)` as a class, where `stop()` itself runs the loop, and
proves it against a pure round robin over finite task programs (`TaskPrograms.dfy`). `ContextSwitches.dfy` treats a
context as a stack and a point in the code that runs on it and proves that switches come in matching pairs.

**The log pattern compiler.** `PatternGrammar.dfy` defines the tokens, a recursive tokenizer and a printer;
`LogFormatters.dfy` has the index loops of `LogFormatter::init` as methods, proved to compute the tokenizer and a
grouping of literal characters, and the rendering; `LogDefaults.dfy` has the line that the default pattern writes.

**Configuration and loggers.** `ConfigTrees.dfy` and `ConfigLoading.dfy` cover the flattening of YAML trees and
`LoadFromYaml`, and `ConfigPaths.dfy` says which node gets which name; `ConfigVars.dfy` is the variable with its
listeners, which may throw, in sequential runs, `ConfigRounds.dfy` the same under reader/writer locking;
`ConfigAlone.dfy` and `ConfigChains.dfy` say when the two agree. `LogDefines.dfy` is the conversion of logger
definitions from and to trees; `Loggers.dfy` has loggers, the registry and delivery; `LogReconcile.dfy` has the listener
that patches the live loggers; `LogLoading.dfy` puts them together, from a loaded tree to what the loggers write.

How to read the model:

- `sylar::` and `shs::` names are the same types: `scheduler.cpp` was taken over from sylar without renaming.
- `stopping()` is one step: its flags, the queue and the active count are read together under the lock.
- `landing` (the argument of a `switchTo` that has not returned), `submitted`, `started`, `out`, `calls`, `rounds`,
  `writes` and `history` record what has happened; no step of the code depends on them. What is said about callbacks
  is said of the steps themselves (`Handed`, `Starts`), not of `submitted` and `started`.
- `eq` stands for the `operator==` of a configuration type. For logger definitions it is not equality. `throws` says
  which listeners throw when they are called with which values.
- `emit` stands for writing a YAML node that is not a scalar, `load` for reading text as YAML, `fromStr` for a
  conversion that may throw, and `date` for `localtime` followed by `strftime`.
- The loops over a `std::set` of definitions take the names in any order; the result does not depend on it.

Where the code and its comments disagree, the model follows the code:

- The comment before `init` (src/_log/log.cpp:334) lists `%%` as an escape. The code appends one `%` and reads the
  second one again, so `%%` alone is an error (`DoublePercentIsError`), and `k` percent signs are `k - 1` literal ones
  and the start of a directive (`PercentRun`).
- `YieldToHold` is described as setting the state to hold (src/fiber/fiber.cpp:184), but leaves the fiber EXEC; `run()`
  writes HOLD after the switch back. `OneRunnerPerFiber` rests on this.
- An appender's `level` entry is meant to override the logger's (src/_log/log.cpp:618-619), but the code then reads the
  logger's entry again, so every parsed appender has its logger's level (`ParsedIsNormal`).
- Equality of definitions compares `appenders` with itself (src/_log/log.cpp:563). A change of nothing but appenders is
  therefore not carried out (`AppenderChangeIgnored`); `AgreesWithRebuildIff` says exactly when the patched loggers
  are those that a rebuild would give.

Properties that do not hold as one might expect, with a concrete input and the exact condition or the one that suffices:

- Joining patterns: `JoinCanBreak`, and `FormatJoinsIff` for the exact condition on any two error-free patterns.
- Printing and parsing a definition: `PrintThenParse` gives the result for every definition, `RoundTripIff` says when
  it is the identity.
- The chain of change notifications in a sequential run: broken if a listener is told of a change that a throwing
  listener then prevents (`ThrowingListener`). `ListenerHearsChain`: for a type whose `operator==` takes each value for
  equal to itself the chain is unbroken exactly if that never happens to the listener, and it never does if no listener
  throws (`QuietIsNeverInVain`).
- The same chain under concurrent `setValue` calls: not always unbroken (`ChainCanBreak`). For such a type it is unbroken
  exactly if no round of notifications begins while another is open (`ChainIffSerial`), which callers can arrange by
  serialising their calls; that this suffices holds for every type (`SerialCallsChain`).
- `stopping()` does not mean that no task is left: a READY fiber may be between the decrement and its requeue
  (`StoppingWithReadyFiber`, and `QuietWhenStopping` for exactly which fibers are not at rest then). Still no unpinned
  task is left behind (`NoTaskLeftBehind`, `EveryQueuedFiberRuns`).
- A second `stop()` with work queued after the root fiber has ended: `Stop` says that it fails exactly then.
- An empty queue after `stop()`: an entry pinned to a thread that is no worker (`PinnedToNobody`), or to a worker that
  has left (`PinnedToLeaver`), is never taken and stop() waits for ever (`PinnedElsewhereBlocks`). `EmptyIffLiveTargets`
  is the exact condition on the targets of the pins. It leaves out one case, where timing decides: a fiber that is
  still EXEC, pinned to a worker whose idle fiber has ended but whose last scan is to come (`ScanComesFirst`,
  `ParkComesFirst`). If every target's idle fiber has not ended and it has not been passed over, the queue is always
  empty in the end (`ServedRunsEmpty`).

`dafny verify dfyconfig.toml` checks the whole project.

## Model

| member | source | states |
|---|---|---|
| WorkerInvariants.StructureStep | src/scheduler/scheduler.cpp:152-211 | every disciplined step keeps: a fiber has one holder and at most one queue entry, a queued fiber that is held is EXEC, and each fiber's state fits the place where its holder is |
| WorkerQuantities.CoveredStep | src/scheduler/scheduler.cpp:147-230 | every step keeps: for each unpinned queued entry some live worker will still scan past it |
| WorkerQuantities.ConservedStep | src/scheduler/scheduler.cpp:152-211 | no step loses or duplicates a callback, through pick, reuse of `cb_fiber`, requeue and discard; the tallies grow by what the step itself hands over and starts |
| WorkerHistory.TalliesAreCounts | src/scheduler/scheduler.h:129-135 | in every run the tallies are the numbers of calls that hand the callback over, and of entries of a fresh fiber with it |
| WorkerTheorems.StepInv | src/scheduler/scheduler.cpp:136-231 | all invariants together are kept by every disciplined step |
| WorkerTheorems.RunInv | src/scheduler/scheduler.cpp:136-231 | all invariants hold in every state of every disciplined run |
| WorkerTheorems.OneRunnerPerFiber | src/scheduler/scheduler.cpp:163-191 | two workers never execute the same fiber, even when it is queued while still EXEC |
| WorkerTheorems.NoAssertionFails | src/fiber/fiber.cpp:121-190 | whichever step comes next: reset sees INIT, TERM or EXCEPT, swapIn never sees EXEC, a yield always sees EXEC |
| WorkerTheorems.DestroyedFibersAreIdle | src/fiber/fiber.cpp:86-102 | a fiber to which no pointer is left is INIT, TERM or EXCEPT, as the destructor asserts |
| WorkerTheorems.CountersAreExact | src/scheduler/scheduler.cpp:168-224 | the active count is the number of workers between pick and decrement, the idle count the number inside the idle fiber |
| WorkerTheorems.CallbacksConserved | src/scheduler/scheduler.cpp:152-211 | for each callback: times pushed or given to a new fiber by the steps of the run == times queued + in a worker's hand + waiting in an unentered fiber + started by them |
| WorkerTheorems.QuietWhenStopping | src/scheduler/scheduler.cpp:184-241 | when stopping() is true every callback has started as often as it was handed over, except in fibers that were never entered; nobody executes a fiber, and exactly these fibers are not at rest: the EXEC ones about to be parked and the READY ones between decrement and requeue |
| WorkerTheorems.NoTaskLeftBehind | src/scheduler/scheduler.cpp:147-230 | once all workers have left, only pinned entries are queued, every other callback has started as often as the steps of the run pushed it, and no READY fiber is lost |
| WorkerTheorems.EveryQueuedFiberRuns | src/scheduler/scheduler.cpp:147-230 | a fiber that is queued at any time is entered before the last worker has left, or has ended by then; for a pinned entry, if it is not still queued in the end, by the worker it is pinned to |
| WorkerTheorems.NoNestedSwitch | src/scheduler/scheduler.cpp:250-259 | a fiber that starts a switchTo is not inside another one |
| WorkerTheorems.SwitchToLandsThere | src/scheduler/scheduler.cpp:250-259 | when switchTo(t) returns, the fiber executes on worker t |
| WorkerTasks.PushedFiberRuns | src/scheduler/scheduler.h:129-135 | the same from the call: a fiber that is pushed or calls switchTo is taken up after that step, on the thread it is pinned to |
| WorkerTasks.PushedCallbackStarts | src/scheduler/scheduler.h:129-135 | a callback that is pushed is started after that step and before the last worker has left, on the thread it is pinned to |
| WorkerTasks.YieldedFiberRunsAgain | src/scheduler/scheduler.cpp:184-187 | a fiber that yields to ready is taken up again before the last worker has left |
| WorkerEnds.EndedExactly | src/fiber/fiber.cpp:197-220 | a fiber made by user code is TERM exactly if its function has returned at some step, EXCEPT exactly if an exception has left it |
| WorkerOrder.FirstInFirstOut | src/scheduler/scheduler.cpp:152-175 | the unpinned callbacks taken so far, followed by those still queued, are those pushed, in the order of the pushes, for any number of workers |
| WorkerProgress.ExactlyOneNext | src/scheduler/scheduler.cpp:136-231 | in every reachable state a worker in its loop, while nobody else has the lock, can take exactly one step, or leave the function of its fiber in any way |
| WorkerProgress.HolderIsFree | src/scheduler/scheduler.cpp:152-175 | whoever has the lock is a worker that can go on |
| WorkerProgress.FunctionsMaySchedule | src/scheduler/scheduler.h:77-92 | what a fiber's function may do with the scheduler, and when that is disciplined |
| WorkerPins.PinnedElsewhereBlocks | src/scheduler/scheduler.cpp:156-248 | an entry pinned to a thread that is no worker, or to a worker that has left or has made its last scan, stays queued for ever; stopping() never becomes true, and no worker still in its loop leaves |
| WorkerPins.SightedStep | src/scheduler/scheduler.cpp:156-230 | every step with live and decided pins keeps: the worker of each pinned entry will look at it, and not too early for the last time |
| WorkerPins.EmptyIffLiveTargets | src/scheduler/scheduler.cpp:156-259 | once all workers have left, the queue is empty exactly if every entry was pinned to a worker that had not made its last scan; pins of an EXEC fiber to a worker about to leave are left out |
| WorkerPins.ServedRunsEmpty | src/scheduler/scheduler.cpp:156-259 | if every pin and every switchTo aims at a worker whose idle fiber has not ended and which has not been passed over, the queue is empty and every callback has started once all workers have left |
| WorkerPinScenarios.PinnedToNobody | src/scheduler/scheduler.cpp:156-160 | a disciplined run in which a callback is pinned to thread 2 of two workers, and both stay |
| WorkerPinScenarios.PinnedToLeaver | src/scheduler/scheduler.cpp:217-259 | a disciplined run in which a fiber switches to a worker that has left, and the other worker stays |
| WorkerPinScenarios.ScanComesFirst | src/scheduler/scheduler.cpp:163-166 | a fiber switches to a worker about to leave, whose last scan finds it EXEC: the entry is stuck |
| WorkerPinScenarios.ParkComesFirst | src/scheduler/scheduler.cpp:156-191 | the same switch, but the fiber is parked before the last scan: the scan takes it |
| WorkerScenarios.TwoRunnersWithoutDiscipline | src/scheduler/scheduler.cpp:163-191 | a fiber that queues itself and yields to ready is run by two workers at once |
| WorkerScenarios.StoppingWithReadyFiber | src/scheduler/scheduler.cpp:184-187 | a disciplined run in which stopping() is true with an unqueued READY fiber |
| TaskPrograms.AppendedShrinks | src/scheduler/scheduler.cpp:181-192 | a turn of a tidy program leaves less work than it takes up: the termination measure |
| TaskPrograms.NextQueue | src/scheduler/scheduler.cpp:152-192 | the abstract queue after a turn is tidy and has less work |
| TaskPrograms.EveryOutputOnce | src/scheduler/scheduler.cpp:74-231 | if no program parks itself for good, round robin performs every output of every program exactly once |
| OneWorker.Fiber.constructor | src/fiber/fiber.cpp:63-84 | a fiber starts INIT at the beginning of its function |
| OneWorker.Fiber.Reset | src/fiber/fiber.cpp:121-137 | requires a state with an unused stack; the fiber starts over with the new function |
| OneWorker.Scheduler.constructor | src/scheduler/scheduler.cpp:13-34 | the scheduler of the calling thread: empty queue, stopping set, root fiber INIT |
| OneWorker.Scheduler.Schedule | src/scheduler/scheduler.h:128-136 | appends a non-null entry; reports whether the queue was empty |
| OneWorker.Scheduler.ScheduleAll | src/scheduler/scheduler.h:77-90 | appends the non-null elements of the range in order, leaves nulls in the range, and reports whether a tickle is needed |
| OneWorker.Scheduler.TakeFirst | src/scheduler/scheduler.cpp:152-175 | erases exactly the first entry that is neither pinned elsewhere nor EXEC, and counts it |
| OneWorker.Scheduler.Start | src/scheduler/scheduler.cpp:51-65 | clears the stopping flag |
| OneWorker.Scheduler.RunSegment | src/fiber/fiber.cpp:197-203 | the function up to its next switch away: its outputs, and the entries it queues in order |
| OneWorker.Scheduler.Depart | src/fiber/fiber.cpp:177-220 | the state and the continuation with which a fiber leaves |
| OneWorker.Scheduler.SwapIn | src/fiber/fiber.cpp:159-166 | runs one segment; the queue grows by what the segment issued, in order |
| OneWorker.Scheduler.RunFiber | src/scheduler/scheduler.cpp:181-192 | one turn of a fiber is one turn of the abstract queue: outputs, appended programs, decrement, no fiber left EXEC |
| OneWorker.Scheduler.RunCallback | src/scheduler/scheduler.cpp:193-211 | the same for a callback; the reused fiber is INIT and not queued |
| OneWorker.Scheduler.TakeFront | src/scheduler/scheduler.cpp:152-175 | between rounds on one worker the scan takes the front of the queue |
| OneWorker.Scheduler.IdleRound | src/scheduler/scheduler.cpp:217-248 | the idle fiber ends exactly if stopping(); otherwise it is parked; the idle count is restored |
| OneWorker.Scheduler.Turn | src/scheduler/scheduler.cpp:181-211 | a round with a task produces the next outputs of round robin and leaves less work |
| OneWorker.Scheduler.Taken | src/scheduler/scheduler.cpp:181-216 | a round that has erased an entry is one turn of round robin, or drops a fiber that has ended and changes nothing else |
| OneWorker.Scheduler.Round | src/scheduler/scheduler.cpp:148-230 | each pass keeps the outputs of round robin on track and decreases the measure or ends with an empty queue |
| OneWorker.Scheduler.Run | src/scheduler/scheduler.cpp:136-231 | terminates with an empty queue, counts 0 and exactly the outputs of round robin |
| OneWorker.Scheduler.CallRoot | src/fiber/fiber.cpp:141-147 | the root fiber runs the loop once; called after it has ended, it fails and nothing is run |
| OneWorker.Scheduler.Stop | src/scheduler/scheduler.cpp:74-130 | stop() runs the queued segments in the order of round robin and leaves nothing queued or active, except exactly if the root fiber has ended before and work is queued: then it fails |
| ContextSwitches.StepKeeps | src/fiber/fiber.cpp:141-174 | every allowed switch keeps: one thread per executing fiber, and the context of a fiber that does not execute is its own, at the point its code has reached |
| ContextSwitches.CurrentFiberIsNamed | src/fiber/fiber.cpp:141-174 | on every thread `t_fiber` names the fiber whose context executes |
| ContextSwitches.SwapOutResumesItsSwapIn | src/fiber/fiber.cpp:159-174 | a swapOut resumes the scheduling fiber just after the swapIn that entered the task |
| ContextSwitches.BackResumesItsCall | src/fiber/fiber.cpp:141-155 | back() resumes the thread's own fiber just after its call(), in the chain of thread fiber, root fiber and task |
| ContextSwitches.SwapInResumesAfterLastYield | src/fiber/fiber.cpp:159-190 | a swapIn, on whatever thread, resumes a task just after its last switch away |
| ContextSwitches.SwapInStartsAfterReset | src/fiber/fiber.cpp:121-137 | the first swapIn after a reset, on whatever thread, starts the new function from its beginning |
| ContextSwitches.SwapInKeepsIff | src/fiber/fiber.cpp:159-166 | a swapIn leads from a good state to a good one exactly if the scheduling fiber enters a fiber that runs nowhere and belongs to no other thread, or switches to itself |
| ContextSwitches.NestedSwapInGoesAstray | src/fiber/fiber.cpp:159-174 | a task that enters another task is what the rules must exclude: the next swapOut returns to the wrong stack |
| PatternGrammar.PrintLex | src/_log/log.cpp:335-415 | printing the tokens of any pattern gives back the pattern |
| PatternGrammar.LexPrint | src/_log/log.cpp:335-415 | reading the print of any canonical token list gives back the list |
| PatternGrammar.LexCanonical | src/_log/log.cpp:335-415 | reading gives a canonical list unless a brace is not closed |
| PatternGrammar.PercentRun | src/_log/log.cpp:347-352 | k percent signs before a directive are k literal ones; the last one of a run begins a directive |
| PatternGrammar.DoublePercentIsError | src/_log/log.cpp:334-352 | the pattern `%%` is an error |
| PatternGrammar.ErrorFreeIff | src/_log/log.cpp:399-451 | isError() is false exactly for the prints of canonical lists with names from the table |
| PatternGrammar.LexJoinIff | src/_log/log.cpp:335-415 | joining error-free patterns joins their tokens exactly if the second cannot extend a plain directive; starting with `%` suffices |
| PatternGrammar.TailAfterBrace | src/_log/log.cpp:335-415 | in an error-free pattern what follows the first closing brace is read on its own |
| PatternGrammar.ReadsLiteral | src/_log/log.cpp:339-352 | a character that is no `%`, or a `%` before a `%`, is literal text |
| PatternGrammar.ReadsName | src/_log/log.cpp:362-397 | a name is the longest run of ASCII letters and closing braces, said by character ranges |
| PatternGrammar.ReadsFormat | src/_log/log.cpp:370-388 | a brace after the name begins a format that ends at the next closing brace |
| PatternGrammar.ReadsOpenBrace | src/_log/log.cpp:406-410 | a brace that is not closed uses up the `%` only and is an error |
| LogFormatters.LetterText | src/_log/log.cpp:207-331 | what each of the twelve directives writes, alone and with braces, and what any other letter writes |
| LogFormatters.UnknownName | src/_log/log.cpp:441-448 | a name that is not in the table writes a notice with that name |
| LogFormatters.LogFormatter.constructor | src/_log/log.cpp:182-185 | the items are those of the grouped tokens and the error flag is exact |
| LogFormatters.LogFormatter.ScanDirective | src/_log/log.cpp:354-397 | the inner index loop reads exactly the next token, or reports an open brace |
| LogFormatters.LogFormatter.Scan | src/_log/log.cpp:336-415 | the outer index loop computes the grouped tokens and flags exactly the unterminated braces |
| LogFormatters.LogFormatter.Resolve | src/_log/log.cpp:438-451 | every entry becomes its item; the flag is raised exactly for unknown names |
| LogFormatters.LogFormatter.Init | src/_log/log.cpp:335-453 | the whole of init computes the items and the error flag of the pattern |
| LogFormatters.LogFormatter.Format | src/_log/log.cpp:187-204 | the text is the concatenation of the items' texts |
| LogFormatters.GroupKnown | src/_log/log.cpp:438-448 | grouping preserves whether all names are known |
| LogFormatters.GroupingKeepsText | src/_log/log.cpp:339-415 | grouping literal characters does not change the text that is written |
| LogFormatters.FormatJoins | src/_log/log.cpp:187-204 | format(a + b) is format(a) followed by format(b) for every event, even where literals merge |
| LogFormatters.UnjoinableDiffers | src/_log/log.cpp:365-415 | if the second pattern can extend the first, the join has an error or writes another text on one fixed occasion |
| LogFormatters.FormatJoinsIff | src/_log/log.cpp:187-204 | error-free patterns join without error and with the same text for every event exactly if the second cannot extend a plain directive at the end of the first |
| LogFormatters.JoinCanBreak | src/_log/log.cpp:365-368 | `%m` and `m` have no error, `%mm` has |
| LogDefaults.DefaultLine | src/_log/LogAppender.h:51-51 | the default pattern has no error; the line that it writes for every event, field by field |
| LogDefaults.DefaultDelivery | src/_log/log.cpp:98-165 | a file gets that line, the console one more line end |
| ConfigTrees.ListAllMember | src/config/config.cpp:18-29 | the pruned recursion appends exactly the full pre-order flattening, filtered by valid names |
| ConfigTrees.NothingValidBelow | src/config/config.cpp:19-22 | below an invalid name there is no valid one |
| ConfigTrees.KeptExactly | src/config/config.cpp:19-22 | exactly the members whose names have only lower-case letters, digits, dots and underscores are kept |
| ConfigPaths.ListedIffKeysLead | src/config/config.cpp:14-27 | a node is listed under a name exactly if some keys lead to it from the root and the name is those keys with dots between them |
| ConfigPaths.NamedNodeIsLoaded | src/config/config.cpp:36-55 | a variable that exactly one node names gets the value of that node's text, where a scalar's text is its own |
| ConfigPaths.TwoLevelsLoad | src/config/config.cpp:14-17 | `a: {b: text}` sets the variable `a.b` |
| ConfigPaths.LoadedVariable | src/config/config.cpp:32-59 | the same for a registered variable after `LoadFromYaml` |
| ConfigLoading.InvalidNeverMatters | src/config/config.cpp:19-45 | members with invalid names do not matter to any variable |
| ConfigLoading.LowerOfValid | src/config/config.cpp:39-41 | lower-casing changes no name that passed the check |
| ConfigLoading.UnmentionedIsKept | src/config/config.cpp:36-55 | a variable with no same-named member that converts keeps its value, and no listener is called |
| ConfigLoading.LastMemberWins | src/config/config.cpp:36-55 | the last member that the variable takes, by converting without a listener throwing, decides its value, up to what the type takes for equal |
| ConfigLoading.ConvertingIsTaken | src/config/config.h:268-279 | if no listener throws, the last member taken is the last that converts |
| ConfigLoading.LastMemberWinsExactly | src/config/config.cpp:36-55 | if the type's `operator==` is equality and no listener throws, the value is exactly that of the last member that converts |
| ConfigLoading.ReplayIsRun | src/config/config.cpp:36-55 | loading is, for each variable, a sequential run of `setValue` calls with the offered values |
| ConfigLoading.LoadingIsHeardAsChain | src/config/config.cpp:36-55 | a listener hears an unbroken chain of changes while a tree is loaded if none is told in vain, in particular if no listener throws |
| ConfigLoading.Config.Lookup | src/config/config.h:331-371 | finds, refuses another type, throws on an invalid new name, or creates; never replaces or changes a registered variable |
| ConfigLoading.Config.Find | src/config/config.h:373-381 | a variable is found exactly if one of that name and that type is registered; it is registered under no other name |
| ConfigLoading.Config.Apply | src/config/config.cpp:36-55 | one member changes the variable of its name only |
| ConfigLoading.Config.LoadFromYaml | src/config/config.cpp:32-59 | every registered variable, with the calls of its listeners, has the same-named members of the whole tree replayed onto it |
| ConfigVars.ConfigVar.constructor | src/config/config.h:254-254 | the default value and no listeners |
| ConfigVars.ConfigVar.SetValue | src/config/config.h:282-293 | no effect if equal; otherwise the listeners are called in id order with old and new value up to the first that throws; the value is stored exactly if none throws |
| ConfigVars.ConfigVar.FromString | src/config/config.h:268-279 | sets the converted value; false exactly if the conversion or a listener throws, and then the value is as before |
| ConfigVars.ConfigVar.AddListener | src/config/config.h:295-301 | a new id, larger than all before, at the end of the order |
| ConfigVars.ConfigVar.DelListener | src/config/config.h:303-306 | removes that listener and no other |
| ConfigVars.ConfigVar.ClearListener | src/config/config.h:314-317 | removes all listeners |
| ConfigVars.StepHeard | src/config/config.h:282-317 | one operation adds at most one pair to what a listener hears, from the old value to the offered one, which becomes the value unless the pair was told in vain |
| ConfigVars.ListenerHearsChain | src/config/config.h:282-317 | the pairs a persistent listener hears are an unbroken chain to the current value if none is told in vain; for a reflexive `operator==` exactly then |
| ConfigVars.QuietIsNeverInVain | src/config/config.h:287-292 | if no listener throws, no pair is told in vain |
| ConfigVars.ThrowingListener | src/config/config.h:287-292 | of three listeners the second throws: the first has heard a change that does not happen, the third is not called |
| ConfigRounds.StepKeeps | src/config/config.h:282-317 | every step of interleaved calls keeps the invariant about rounds, listeners and writes |
| ConfigRounds.OneOldValuePerRound | src/config/config.h:283-290 | all listeners of a round see one old value; until the round is finished it is still current |
| ConfigRounds.WrittenWasAnnounced | src/config/config.h:282-293 | every written value was announced to all listeners of its round, and the value is the last one written |
| ConfigRounds.ChainCanBreak | src/config/config.h:282-293 | two threads announce from the same old value and both write; the listener hears two changes away from it |
| ConfigAlone.AloneAsSequential | src/config/config.h:282-293 | a thread that nobody disturbs can carry out a whole setValue, with the effect of the sequential one |
| ConfigAlone.ListenersAsSequential | src/config/config.h:295-317 | adding and removing listeners is the same in both models |
| ConfigChains.SerialCallsChain | src/config/config.h:282-317 | if no round begins while another is open, a listener hears an unbroken chain from the first value to the last |
| ConfigChains.OverlapBreaks | src/config/config.h:282-317 | after a round has begun inside another, two consecutive pairs do not fit together |
| ConfigChains.ChainIffSerial | src/config/config.h:282-317 | in any run of interleaved calls that have all returned, the chain is unbroken exactly if no round began inside another |
| LogDefines.OwnLevelIgnored | src/_log/log.cpp:618-619 | what an appender's own `level` entry says never matters, only whether it is there |
| LogDefines.ParseDefinition | src/_log/log.cpp:579-630 | the conversion from a tree, including when it throws |
| LogDefines.PrintDefinition | src/_log/log.cpp:636-665 | the conversion to a tree |
| LogDefines.PassedOver | src/_log/log.cpp:597-610 | an appender without a type, and a file appender without a file, is passed over |
| LogDefines.FileAppender | src/_log/log.cpp:605-611 | a file appender has its path |
| LogDefines.OtherAppender | src/_log/log.cpp:612-616 | a console appender, and one of unknown type, which is kept without a kind |
| LogDefines.FormatterIsKept | src/_log/log.cpp:621-623 | an appender's formatter is taken over |
| LogDefines.NamelessThrows | src/_log/log.cpp:583-587 | a definition without a name throws |
| LogDefines.NameAndLevel | src/_log/log.cpp:588-590 | a definition has the name and the level that it says |
| LogLevels.LevelNames | src/_log/LogLevel.h:22-51 | reading the name of a level gives the level |
| LogLevels.NamesInBothCases | src/_log/LogLevel.h:22-51 | the names of the levels in upper and lower case |
| LogLevels.OtherNames | src/_log/LogLevel.h:34-51 | any other text stands for no level |
| LogLevels.PassesIsRank | src/_log/LogLevel.h:10-17 | comparing the numeric values lets exactly those levels pass that are not above the event's, listed level by level |
| LogDefines.PrintThenParse | src/_log/log.cpp:576-666 | the result of printing and parsing for every definition, and exactly when it throws |
| LogDefines.ParsedIsNormal | src/_log/log.cpp:618-619 | every parsed appender carries its logger's level |
| LogDefines.ParsePrintParse | src/_log/log.cpp:576-666 | on parse results printing and parsing only drops appenders without a type |
| LogDefines.RoundTripIff | src/_log/log.cpp:576-666 | a definition survives printing and parsing exactly if it is normal and all appenders have a type |
| Loggers.Append | src/_log/log.cpp:98-165 | an appender writes the formatted text exactly if the event passes its level, where `Passes` lists the levels |
| Loggers.Logger.Log | src/_log/log.cpp:41-57 | along any chain of roots that ends: the appenders of the first logger that has any, if the event passes every level on the way |
| Loggers.LoggerManager.constructor | src/_log/log.cpp:500-504 | the registry starts with a root logger that writes to the console |
| Loggers.LoggerManager.GetLogger | src/_log/log.cpp:509-523 | finds or creates a logger that delegates to the root; keeps all others |
| Loggers.LoggerManager.RoutedOnce | src/_log/log.cpp:41-57 | the chain of a registered logger has at most one hop |
| Loggers.LoggerManager.LogTo | src/_log/log.cpp:41-57 | in every state of the registry an event goes exactly to the appenders that `Reached` lists |
| Loggers.DeliveredExactly | src/_log/log.cpp:48-52 | a delivery is made exactly for the appenders whose level the event passes: an INFO event for UNKNOW, DEBUG and INFO, and so on |
| LogReconcile.MakeAppender | src/_log/log.cpp:698-717 | type 0 is dropped; a formatter with an error leaves the default pattern |
| LogReconcile.BuildsEach | src/_log/log.cpp:698-717 | each definition of a known type gives one appender, in order: file or console, its level, its formatter if that is given and has no error |
| LogReconcile.Rebuild | src/_log/log.cpp:691-718 | the logger gets the level and the appenders that its definition builds |
| LogReconcile.ConfigureAll | src/_log/log.cpp:676-721 | exactly the new names and those with another level or formatter are rebuilt |
| LogReconcile.DropAll | src/_log/log.cpp:724-732 | exactly the dropped names lose level and appenders |
| LogReconcile.OnConfChanged | src/_log/log.cpp:674-733 | the listener patches every logger as `PatchOne` says and touches no other |
| LogReconcile.LogConfig.SetValue | src/config/config.h:282-293 | after every setValue on `logs` the loggers are as the history of values says |
| LogReconcile.LogConfig.GetLogger | src/_log/log.cpp:509-523 | asking for a logger disturbs no configured one |
| LogReconcile.RunOutcome | src/_log/log.cpp:674-733 | for every sequence of values the incremental patches give each logger the outcome of its last change |
| LogReconcile.LogConfig.Reconciled | src/_log/log.cpp:668-733 | a configured logger has its definition's level and the appenders of the last change; a dropped one has no level and no appenders; others are untouched |
| LogReconcile.LogConfig.DroppedUsesRoot | src/_log/log.cpp:41-57 | an event for a dropped logger goes where an event for the root goes |
| LogReconcile.AgreesWithRebuildIff | src/_log/log.cpp:559-733 | the patched logger equals the rebuilt one exactly if its appenders build as at the last change |
| LogReconcile.AppenderChangeIgnored | src/_log/log.cpp:559-564 | a change of an appender's file alone is not carried out, whatever the files |
| LogLoading.ParseDefinitions | src/config/config.h:123-135 | the conversion of a node to a set of definitions |
| LogLoading.SequenceConverts | src/config/config.h:123-135 | a sequence throws exactly if some element does; otherwise the set has exactly the names of its elements, each with the first element of that name |
| LogLoading.OthersConvert | src/config/config.h:123-135 | what is no sequence gives the empty set, and a mapping with entries throws |
| LogLoading.HistoryIsConfigVar | src/config/config.h:282-293 | the history of `logs` is a run of a `ConfigVar` with one listener: same value, and its recorded calls patch each logger as `RunState` says |
| LogLoading.OfferedValid | src/config/config.cpp:19-45 | members with invalid names offer `logs` nothing |
| LogLoading.LoadLogs | src/config/config.cpp:32-59 | loading a tree sets, in order, the definitions of each `logs` member of the full flattening that converts; the loggers follow the longer history |
| LogLoading.LoadedLoggers | src/_log/log.cpp:668-733 | after loading, the last converting member decides: its names have their levels, every other name ever configured is dropped |
| LogLoading.LoadedTree | src/_log/log.cpp:668-733 | from the elements of the one `logs` sequence of a tree to the loggers: the first element of a name gives its logger the level, and on a first load the appenders |
| LogLoading.UnnamedIsDropped | src/_log/log.cpp:724-732 | a logger configured before, whose name no element has, is dropped |
| LogLoading.AppendersHaveLoggersLevel | src/_log/log.cpp:618-619 | every appender of a logger configured from trees has the logger's level |
| LogLoading.EveryAppenderWrites | src/_log/log.cpp:41-57 | an event that passes the level of a logger configured from trees is written by every one of its appenders, in order |

## Left out

- OneWorker.Scheduler.Stop: the queued entries are pinned to no other thread and the task programs are finite and follow the queueing discipline, because otherwise `run()` need not end; for pinned entries see `WorkerPins`, where `PinnedElsewhereBlocks` proves that the loop does not end and `EmptyIffLiveTargets` when it leaves nothing.
- OneWorker.Scheduler.Run: the same conditions as for `Stop`.
- WorkerTheorems.DestroyedFibersAreIdle: covers fibers with a stack; the assertions for a thread's own fiber are not stated, because that fiber is not part of the step system.
- ConfigChains.ChainIffSerial: types whose `operator==` does not take a value for equal to itself are excluded, because two overlapping changes of such a value to itself still form a chain; `SerialCallsChain` covers them.
- ConfigLoading.Config.LoadFromYaml: listeners do not call back into the registry.
- LogDefines.ParseDefinition: a mapping under `appenders` counts as empty, and a null where a text is expected throws; releases of yaml-cpp differ there. Trees stand for their text, so the quoting of scalars is not modelled.
- Loggers.Append: reopening of log files, failing streams and the order of writes by several threads are not modelled.
- LogFormatters.LogFormatter.ScanDirective: names are made of the letters of the C locale.
- LogFormatters.LogFormatter.Format: the 80-byte buffer of `strftime` is not modelled; numbers are given as their text.
- Pushing a range of entries in one critical section is several pushes in the concurrent model.
- WorkerPins.EmptyIffLiveTargets: does not say what becomes of a fiber that is still EXEC when it is pinned to a worker about to leave, because it depends on timing (`WorkerPinScenarios.ScanComesFirst` and `ParkComesFirst`).
- That all workers do leave in the end, and fairness between them: the code busy-waits and does not guarantee either.
- ConfigRounds.StepKeeps: listeners do not throw in the concurrent model; `ConfigVars` has throwing listeners in sequential runs.
- LogLoading.ParseDefinitions: a mapping with numeric keys is not looked into, and writing a node and reading it again gives the same node.
- A second `start()` or `stop()` with several workers, `Fiber::reset` by user code, and `SchedulerSwitcher` across several schedulers.
- Native contexts and stack memory, thread creation and naming, the lock implementations; `hook.h` is not part of this model.
- `tickle`, `dump` and all log messages of the scheduler itself; they change no state that the model has.
- `boost::lexical_cast`, the casts of containers, and YAML text.
- The network code in `src/server.*` and `src/main.cpp`, and the older copy under `backup`.
