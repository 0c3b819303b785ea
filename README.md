# AsyncTask: the task state machine and its continuation protocol

A model of the sequential core of the AsyncTask library (C++), with proofs.

A `Task` has these parts:

- a state (`NotStarted`, `Running`, `Finished`, `Error`);
- an ordered list of continuations;
- a predecessor link (`prevTask`);
- an error string.

Registering a continuation (`continueWith`) appends to the list. `finish()` and `error(msg)` set the state and then call `execContinuations`. That gives each continuation this task as its predecessor, starts it, and clears the list once every continuation has been started.

`TaskWithResult<T>` adds a typed result slot; the `void` specialisation has none.

`LambdaTask<T>` stores a callable, either a plain one or one that is handed the predecessor. Its `start()` does the following:

- runs the plain callable if there is one, else the predecessor-aware one;
- stores the returned value;
- then calls `finish()` if auto-finish is on;
- calls `error(what())` instead if the callable throws.

`Task::continueWhenAll(tasks, target)` is meant to be a join barrier. It registers one closure on each input, and every closure holds a copy of one shared counter. A closure that runs while it holds the only copy (`counter.unique()`) starts the target. A closure's stored copy goes away when its input's list is cleared.

A closure runs through `Details::execAction`, which takes the `std::function` by value (asynctask.h:121 and :127). While the closure body runs, that call's copy of the callable holds one more copy of the counter. So `unique()` never holds, and as written the target is never started. The model keeps this extra copy as an explicit count, `World.callCopies`. Snapshots of the heap have `callCopies == ExecActionCopies` (1). Snapshots with `callCopies == 0` describe the library with the copy removed, and for those the model proves the intended barrier. "## Findings" records the discrepancy.

The model uses these files:

- `asynctask.dfy` (module `AsyncTask`):
  - The class `Task` has the source's mutable fields. A `kind` tells a manual task (one whose `start()` does nothing, like the test suite's `SignalHandleTask`) from a `LambdaTask`.
  - The class `JoinCounter` has a `holders` field: how many stored closures hold a copy of the shared counter. A running closure sees `UseCount`: `holders` plus the copies its call holds.
  - Each method of the source that the model covers has a method of its own. The `continueWith` overloads are `ContinueWith`, `ContinueWithAction` and `ContinueWithPrevAction`. `execContinuations` is split into helpers for its parts: `StartEach` and `StartNext` for the loop, `StartContinuation` for one entry, `ClearContinuations` for the clear, and `ReleaseEach` and `DropEntry` for destroying the cleared entries. `AddClosure` is the loop body of `continueWhenAll`. Each method that starts or finishes a task is proved to produce exactly the snapshot (a `World`) that a ghost function computes from the old one: `StartS`, `FinishS`, `ErrorS` or `DispatchS`.
  - Each such method also returns, as ghost output, the tree of starts it performed (`Launch`: the task, its predecessor, what it saw of the predecessor, and the starts nested inside). This tree is how the model states ordering and exactly-once properties.
  - The source assumes continuation chains are acyclic. The model makes that an explicit ghost `rank`, which decreases along every continuation edge and every callable's reference to another task.
- `cascade_facts.dfy` (module `CascadeFacts`): what the cascade does, proved for all snapshots. This covers:
  - frames;
  - the order of starts and the predecessor each continuation sees;
  - outcomes of a lambda task's `start()`;
  - result propagation to a continuation;
  - a second `finish()`.
- `join_barrier.dfy` (module `JoinBarrier`): `continueWhenAll`. The two barrier theorems cover one shape, the one `continueWhenAll` leaves behind (`Pending`):
  - the inputs are distinct;
  - each input's list is exactly its own closure, with no `continueWith` added afterwards;
  - each input completes at top level, by `finish()` or `error(msg)`, one after another in any order.

  For that shape, as written, no completion ever starts the target (`JoinNeverFires`). Without `execAction`'s copy, only the last completion starts the target, and it starts it exactly once (`JoinFiresOnceAtLast`). `Scenarios.JoinAll` shows that `continueWhenAll` over any number of distinct inputs with empty lists produces that shape.

  Outside the shape the barrier can miss even without the copy. `Scenarios.NestedCompletionMisses` is an input that finishes another input from inside its own dispatch. The file also covers an input passed twice, which never fires, as written or not.
- `scenarios.dfy` (module `Scenarios`): the test suite's scenarios replayed on the heap model.

Where the code and its evident intent differ, the model follows the code, and "## Findings" gives the corrected variant beside it. `error()` after `finish()` is not guarded against. `continueWhenAll` takes its inputs by value and keeps a local counter copy, which is destroyed before any closure can run.

## Model

| member | source | states |
|---|---|---|
| AsyncTask.Task.Manual | asynctask.cpp:9-11 | a new task (whose start() does nothing) is NotStarted, with an empty list, no predecessor, no error text |
| AsyncTask.Task.Lambda | asynctask.h:154-157 | LambdaTask(): NotStarted, no callable, default result, auto-finish on |
| AsyncTask.Task.WithAction | asynctask.h:159-163 | LambdaTask(action): stores the plain callable only; NotStarted; auto-finish on |
| AsyncTask.Task.WithPrevAction | asynctask.h:165-169 | LambdaTask(actionWithPrevTask): stores the predecessor-aware callable only; NotStarted; auto-finish on |
| AsyncTask.Task.HasError | asynctask.cpp:22-30 | a task in error is also finished |
| AsyncTask.Task.SetResult | asynctask.h:103-106 | the result becomes the given value and nothing else changes |
| AsyncTask.Task.SetAction | asynctask.h:171 | the plain callable becomes the given one |
| AsyncTask.Task.SetAutoFinishEnabled | asynctask.h:173 | the auto-finish flag becomes the given value |
| AsyncTask.Task.ContinueWith | asynctask.cpp:43-47 | the task is appended at the end of the list, only the list changes (nothing is started), and the same task is handed back |
| AsyncTask.Task.ContinueWithAction | asynctask.cpp:49-52 | a fresh, not started lambda task holding the plain callable is appended and handed back |
| AsyncTask.Task.ContinueWithPrevAction | asynctask.cpp:54-57 | a fresh, not started lambda task holding the predecessor-aware callable is appended and handed back |
| AsyncTask.Task.Create | asynctask.cpp:73-76 | a fresh lambda task that holds the callable and has not run it: NotStarted, default result, empty list |
| AsyncTask.Task.ContinueWhenAll | asynctask.cpp:59-71 | hands back the target unstarted; one fresh, distinct void closure per input, each holding the counter and the target; each input's list gains exactly its closures in input order; nothing else of an input changes; the number of stored counter copies is the number of inputs (0 for an empty list, so nothing is registered) |
| AsyncTask.Task.AddClosure | asynctask.cpp:62-69 | one turn of that loop: the new closure holds a copy of the counter (use count +1) and is appended to the current input only |
| AsyncTask.Task.Run | asynctask.cpp:32-36 | run() is start() and hands back the same task |
| AsyncTask.Task.Start | asynctask.h:175-194 | the new snapshot and the starts performed are those StartS computes: nothing for a manual task; the callable, then error() on a throw or finish() if auto-finish is on |
| AsyncTask.Task.RunAction | asynctask.h:179-186 | the plain callable runs when present, else the predecessor-aware one with prevTask(), else nothing; a join closure runs on execAction's by-value copy (asynctask.h:127), so the use count it tests counts that copy too |
| AsyncTask.Task.PrevViewOf | asynctask.h:185 | the predecessor-aware callable is handed a view of its predecessor exactly when prevTask() is set |
| AsyncTask.Task.PrevViewAgrees | asynctask.h:185 | what that callable is handed on the heap is the predecessor's state, result and error string as the snapshot holds them |
| AsyncTask.Task.ExecAction | asynctask.h:120-142 | a returned value is stored via setResult except for a void task; a thrown exception stores nothing and is reported |
| AsyncTask.Task.Finish | asynctask.cpp:88-92 | state Finished, then the dispatch of DispatchS |
| AsyncTask.Task.Error | asynctask.cpp:94-99 | state Error with the message, then the dispatch of DispatchS |
| AsyncTask.Task.ExecContinuations | asynctask.cpp:101-109 | the loop over the list, then the clear, as DispatchS computes them |
| AsyncTask.Task.StartEach | asynctask.cpp:103-107 | the loop: each entry in order gets this task as prevTask and is started |
| AsyncTask.Task.StartNext | asynctask.cpp:105-106 | one turn of the loop on the heap: after the entry at position i is given its predecessor and started, what is left of the dispatch is the loop from i+1, with that start appended to the starts so far |
| AsyncTask.Task.StartContinuation | asynctask.cpp:105-106 | one entry gets this task as prevTask, then is started |
| AsyncTask.Task.ClearContinuations | asynctask.cpp:108 | the list becomes empty and nothing else changes |
| AsyncTask.Task.ReleaseEach | asynctask.cpp:108 | destroying the cleared entries drops each join closure's counter copy |
| AsyncTask.Task.DropEntry | asynctask.cpp:61-68 | destroying one join closure decrements its counter's use count; other entries change nothing |
| AsyncTask.JoinCounter.constructor | asynctask.cpp:61 | a fresh counter has no closure holding it |
| AsyncTask.StartS | asynctask.h:175-194 | start() on snapshots keeps the set of tasks and well-formedness, and records one start of the task with its current prevTask |
| AsyncTask.RunActionS | asynctask.h:179-186 | the callable step on snapshots preserves the set of tasks, the call's copy count and well-formedness; a join closure starts its target only when `UseCount`, the stored copies plus the call's, is 1 |
| AsyncTask.ExecActionS | asynctask.h:120-142 | execAction on snapshots starts nothing |
| AsyncTask.DispatchS | asynctask.cpp:101-109 | execContinuations on snapshots keeps the set of tasks and well-formedness |
| AsyncTask.FinishS | asynctask.cpp:88-92 | finish() on snapshots keeps the set of tasks, the counters, the call's copy count and well-formedness |
| AsyncTask.ErrorS | asynctask.cpp:94-99 | error(msg) on snapshots keeps the same |
| AsyncTask.CompleteS | asynctask.h:187-193 | the completion step of start() (error() on a throw, finish() with auto-finish, else nothing) keeps the same |
| AsyncTask.DispatchFrom | asynctask.cpp:103-107 | the dispatch loop from any position, over continuations ranked below the task, keeps the same |
| AsyncTask.ReleaseOne | asynctask.cpp:108 | destroying one cleared entry keeps the set of counters and drops no counter's use count by more than one, and raises none |
| AsyncTask.Release | asynctask.cpp:108 | destroying the n remaining cleared entries keeps the set of counters and drops no counter's use count by more than n, and raises none |
| AsyncTask.UseCount | asynctask.cpp:66 | the use count a running join closure tests (its call holds execAction's by-value copy, asynctask.h:127): as written, a closure that is still stored never sees 1; without execAction's copy, it sees 1 exactly when it holds the only stored copy |
| AsyncTask.StartedConcat | asynctask.cpp:103-107 | the starts of two consecutive stretches of a loop are those of the first followed by those of the second |
| CascadeFacts.StartFrame | asynctask.h:175-194 | start() of a task changes no other task of rank at least its own, and starts only tasks ranked below it |
| CascadeFacts.FinishFrame | asynctask.cpp:88-92 | after finish() the task is Finished with an empty list and its other fields unchanged; nothing else of rank at least its own changes |
| CascadeFacts.ErrorFrame | asynctask.cpp:94-99 | after error(msg) the task is in Error carrying msg with an empty list; nothing else of rank at least its own changes |
| CascadeFacts.DispatchFrame | asynctask.cpp:101-109 | execContinuations leaves the task's list empty and its other fields unchanged |
| CascadeFacts.DispatchFromOrder | asynctask.cpp:103-107 | the loop from position i starts exactly the remaining entries, in list order, each with this task as predecessor |
| CascadeFacts.DispatchOrder | asynctask.cpp:101-109 | execContinuations starts every registered continuation exactly once, in registration order, with this task as prevTask |
| CascadeFacts.FinishOrder | asynctask.cpp:88-92 | finish() starts the continuations the same way |
| CascadeFacts.ErrorOrder | asynctask.cpp:94-99 | error(msg) starts the continuations the same way |
| CascadeFacts.DispatchFromSeen | asynctask.cpp:103-107 | every continuation sees its predecessor as it was when dispatch began |
| CascadeFacts.FinishSeen | asynctask.cpp:88-92 | a continuation started by finish() sees its predecessor Finished with the predecessor's result and error string |
| CascadeFacts.ErrorSeen | asynctask.cpp:94-99 | a continuation started by error(msg) sees its predecessor in Error carrying msg |
| CascadeFacts.DispatchSingle | asynctask.cpp:101-109 | dispatching a one-entry list is: start that entry with this task as prevTask, then clear the list and release the entry |
| CascadeFacts.PureRun | asynctask.h:179-186 | a callable that only computes starts nothing; it stores the returned value unless the task is void, reports a throw, and the plain callable wins over the predecessor-aware one |
| CascadeFacts.CompleteOutcome | asynctask.h:187-193 | after the callable: a throw gives Error with the message; else auto-finish gives Finished; else the state is left as it was. Continuations start in order, seeing that final view, only when finish() or error() ran |
| CascadeFacts.LambdaStartFields | asynctask.h:175-194 | a lambda task's own fields after start() agree with the reference definition AfterStart: result unchanged on a throw, no state change with auto-finish off |
| CascadeFacts.LambdaStartDispatch | asynctask.h:187-193 | start() starts all continuations, in order, seeing the task's final view, exactly when it finished or failed, and none otherwise |
| CascadeFacts.CompleteIsDispatch | asynctask.h:187-193 | the completion is one dispatch from the task marked Finished, or marked Error with the message |
| CascadeFacts.DispatchSoleOutcome | asynctask.cpp:101-109 | a sole computing lambda continuation ends as AfterStart says for the predecessor view it is handed |
| CascadeFacts.SoleContinuationOutcome | asynctask.h:132-136 | result propagation: a computing continuation's fields after its predecessor's start() are AfterStart applied to what it was handed, the predecessor's final state, result and error string |
| CascadeFacts.SoleCompletion | asynctask.cpp:88-99 | the same, seen from finish() or error() |
| CascadeFacts.DispatchEmpty | asynctask.cpp:101-109 | dispatching an empty list changes nothing and starts nothing |
| CascadeFacts.CompleteAgain | asynctask.cpp:88-108 | once finished, a second finish() changes and starts nothing; a later error() only overwrites state and message and starts nothing |
| JoinBarrier.ClosureQuiet | asynctask.cpp:64-68 | a closure whose use count (stored copies plus the call's) is not 1 starts nothing and just finishes |
| JoinBarrier.ClosureFires | asynctask.cpp:64-68 | a closure whose use count is 1 (reachable only without execAction's copy) starts the target directly (the target keeps its own prevTask), then finishes |
| JoinBarrier.Completion | asynctask.cpp:88-99 | an input completes by finish() or by error(msg); either keeps the set of tasks and well-formedness |
| JoinBarrier.CompletionIsDispatch | asynctask.cpp:88-99 | either completion is one dispatch of the list from the input marked Finished, or marked Error with the message |
| JoinBarrier.NotLastStep | asynctask.cpp:59-71 | an input whose closure sees a use count other than 1 completes, by finish() or error(msg): it ends marked with an empty list; its closure ran once with it as predecessor and finished; the stored copies drop by one; nothing else changed or started |
| JoinBarrier.LastStep | asynctask.cpp:59-71 | without execAction's copy, the input whose closure holds the last copy completes, by finish() or error(msg): its closure starts, then the target exactly once, with the prevTask the target already had |
| JoinBarrier.PendingStep | asynctask.cpp:59-71 | an input completing, by finish() or error(msg), while the use count is not 1 keeps the barrier pending for the rest and leaves the target untouched |
| JoinBarrier.JoinNeverFires | asynctask.cpp:59-71 | as written (the closure runs on execAction's by-value copy, asynctask.h:127), for distinct inputs that each hold only their closure and complete at top level: whatever the order of the inputs and whether each finishes or fails, no completion starts the target and the target never changes |
| JoinBarrier.LastFires | asynctask.cpp:59-71 | without execAction's copy, the last input's completion starts the target exactly once, directly |
| JoinBarrier.JoinFiresOnceAtLast | asynctask.cpp:59-71 | the intended barrier, without execAction's copy, for distinct inputs that each hold only their closure: when the inputs complete at top level one after another in any order, by finish() or error(msg), none before the last starts the target, and the last starts it exactly once with the target's original prevTask |
| JoinBarrier.QuietFrom | asynctask.cpp:103-107 | a dispatch loop over closures whose use count is not 1 only starts exactly those closures, never the target, and keeps the counter and the target as they were |
| JoinBarrier.TwinInputNeverFires | asynctask.cpp:59-71 | an input passed twice (`{u, u}`, possibly among other inputs) gets two closures; when it completes, by finish() or error(msg), each closure runs while the other still holds the counter, so the target is never started, even without execAction's copy; the two copies are then released (for `{u, u}` alone, the counter ends held by nobody) |
| JoinBarrier.ClosuresOnlyComplete | asynctask.cpp:88-109 | completing, by finish() or error(msg), a task whose list holds only closures whose use count is not 1 never starts the target and drops one holder per entry |
| JoinBarrier.ReleaseClosures | asynctask.cpp:108 | destroying n closures of a counter drops its use count by n |
| Scenarios.FinishTwice | asynctask.cpp:22-30 | after finish(): isFinished() holds, hasError() does not, the list is empty, and a second finish() starts nothing |
| Scenarios.ErrorThenAsk | asynctask.cpp:22-30 | after error(msg): isFinished() and hasError() both hold, the error text is msg, the list is empty |
| Scenarios.HelloWorld | test.cpp:53-72 | on snapshots: the predecessor-aware continuation ends holding "Hello world!" |
| Scenarios.ContinuationWithResult | test.cpp:53-72 | the continuation's result is "" before start() and "Hello world!" after |
| Scenarios.SoleChain | test.cpp:26-51 | start() of a task whose only continuation is a leaf enters the task, then the continuation, and nothing else |
| Scenarios.SimpleContinuation | test.cpp:26-51 | registering runs nothing; one start() enters the task and then its continuation, each exactly once |
| Scenarios.SignalFinish | test.cpp:95-116 | finishing the manual task starts the first continuation, then the one chained on it, and nothing else |
| Scenarios.HandleSignalTask | test.cpp:95-116 | nothing runs before the signal; the signal's finish() runs the "Hello" then the " world!" continuation, once each |
| Scenarios.FinishTaskClosure | test.cpp:126-129 | the timeout task's continuation leaves the pause task as finish() leaves it |
| Scenarios.PauseStart | test.cpp:118-132 | with auto-finish off, start() runs the callable and leaves the pause task NotStarted |
| Scenarios.PauseTimeout | test.cpp:124-129 | finishing the timeout task finishes the pause task |
| Scenarios.PauseTask | test.cpp:118-132 | the pause task is NotStarted after start() and Finished once its timeout task has finished |
| Scenarios.JoinAll | asynctask.cpp:59-71 | continueWhenAll over any number of distinct inputs with empty lists, from a well-formed heap: the new snapshot is well-formed, the barrier is pending on every input (the precondition of both barrier theorems) and the target is unchanged |
| Scenarios.JoinAllReady | asynctask.cpp:59-71 | the snapshot after continueWhenAll, from the views before it: well-formed, pending on all inputs, target unchanged |
| Scenarios.NestedCompletionMisses | asynctask.cpp:101-109 | input `a` holds its closure and then a continuation that finishes input `b`; finishing `a` runs `a`'s closure, that continuation, then `b`'s closure, and never the target, whatever copies the call holds, because `a`'s closure is released only at `a`'s clear |
| Scenarios.JoinThree | asynctask.cpp:59-71 | continueWhenAll over three inputs gives each input exactly its own fresh closure; three holders |
| Scenarios.WhenAllFirstTwo | test.cpp:134-155 | the first two inputs to complete do not start the target and leave it as it was |
| Scenarios.WhenAllLast | test.cpp:134-155 | as written, the third completion does not start the target either, and leaves it as it was |
| Scenarios.WhenAllLastIntended | test.cpp:134-155 | without execAction's copy, the third completion starts the target exactly once |
| Scenarios.WhenAll | test.cpp:134-155 | on the heap, as written: the target is NotStarted after two of the three inputs finish and still NotStarted after the third; no finish starts it, so the test's event loop would never be quit |

## Findings

| source | as written | input that shows it | evidently intended | confidence | as-written member | corrected member |
|---|---|---|---|---|---|---|
| asynctask.h:127, asynctask.cpp:66 | `execAction<void>` takes the closure's `std::function` by value, so while the closure tests `counter.unique()` the counter has its stored copy plus the call's copy, and `unique()` is false even for the last input | `continueWhenAll({a}, target)`, then `a->finish()`: the target is never started; likewise the three inputs of the whenAll test | the last input to complete starts the target exactly once (take the callable by const reference, as `execActionWithPrevTask` does at asynctask.h:133) | not executed | JoinBarrier.JoinNeverFires, Scenarios.WhenAll | JoinBarrier.JoinFiresOnceAtLast |

## Left out

- JoinBarrier.JoinFiresOnceAtLast: proved only for `Pending` inputs. Those are distinct inputs whose lists are exactly their own closures and that complete at top level. An input that gained further continuations after `continueWhenAll` is not covered, and neither is an input completed inside another input's dispatch. The second case can miss the target even without execAction's copy (`Scenarios.NestedCompletionMisses`). The model gives no corrected barrier for that case.
- JoinBarrier.JoinNeverFires: proved for the same `Pending` shape only. That every closure sees its own stored copy plus execAction's, whatever the shape, is not stated as a theorem.

- `asyncactiontask.h`/`.cpp` are not part of this model: they only hand the work to a thread pool and Qt signals, which is concurrency and foreign calls.
- Qt timers, `QEventLoop`, `qSleep` and elapsed-time checks: a task that a timer would finish is a manual task whose `finish()` the scenario calls explicitly, in the order the timers would fire.
- Instance tracking (`enableInstanceTracking`, `instanceCount`, the counter in the constructor and destructor): a global diagnostic that depends on when `shared_ptr` destructors run. The `instanceCount()` checks of `simpleContinuation` are not modelled.
- `shared_ptr` and `enable_shared_from_this`: tasks are plain object references. Only the use count of `continueWhenAll`'s counter is modelled: the stored copies are `JoinCounter.holders`, and a running closure adds the copies its call holds (`UseCount`). The raw-pointer `continueWith(Task*)` is the same operation as `continueWith(const TaskPtr&)` once ownership is ignored.
- `CancellationToken`: an empty class that nothing uses.
- `TaskWithResult::cast`: an unchecked `static_cast`. Results are one `Value` datatype that all instantiations share, and the model reads them directly.
- C++ exceptions: a callable that throws is a `Threw(message)` outcome. `Details::execAction`, `finish()` and `error()` cannot throw in the model.
- AsyncTask.DefaultValue: C++ leaves a scalar `result_` uninitialised. The model starts an `int` task at `IntValue(0)`, strings at the empty string.
- AsyncTask.Task.ContinueWhenAll: the function's own copy of the counter is gone before any closure can run, so it is not counted.
- The `Running` state is part of the datatype, but no code assigns it, and neither does the model.
- `counter.unique()` is not thread-safe in C++. The model is sequential.
- Callables are effects, not arbitrary code. A plain callable computes a value or throws (`Produce`), finishes a given task (`FinishTask`), or is a join closure (`JoinStep`). The predecessor-aware callable is a pure function of what it sees of its predecessor.
- Side effects of callables on captured variables (`count += 1`, `res += "Hello"`, `elapsed = …`) are not modelled. The scenarios state instead which tasks start, and in what order.
- In `createPauseTask`, the callable that creates the timeout task, arms its timer and registers the closure is modelled as done beforehand (`SetUpPause`). The pause task's callable itself only returns. The scenarios also assume that the timeout task stays alive until it is finished. In the source its only owner is a local of that callable (test.cpp:124-129), so it would be destroyed when the callable returns, together with the closure that finishes the pause task.
- `execContinuations` iterates the live list. In the model no callable can append to the list being dispatched, because every task a callable refers to ranks below the dispatching task, so iterating a copy is the same.
- AsyncTask.Task.IsFinished carries no contract of its own. Its meaning, finished or in error, is stated by `HasError` and by `Scenarios.FinishTwice` and `Scenarios.ErrorThenAsk`.
- `state()`, `prevTask()` and `result()` are plain field reads, and the model reads the fields directly: `Scenarios.ContinuationWithResult` reads `result` where the test calls `result()`.
