# ClassTask lifecycle, in Dafny

`ClassTask` (toolbox/asyncio/pattern.py) wraps one awaitable entry-point and gives the wrapping class `start`, `stop` and an async context manager. Each instance holds one optional task handle and two optional hooks. `start` submits the entry-point to the event loop only when no task is stored or the stored task reports `cancelled()`. `stop` fires the end hook and calls `cancel()` only when a task is stored and does not report `cancelled()`. `__aenter__` is a `start`; `__aexit__` is a `stop` followed by the stored task's `cancelled()` status.

The project has three files:

- `lifecycle.dfy`, module `Lifecycle`: the instance's state as a value. The state holds the stored handle, a trace of the side effects caused so far (start hook, submission, driving the loop, end hook, cancellation request) and the identity the next task gets. `Start`, `Stop`, `Exit` and `Construct` model the operations. `ProcessCancel`, `CancelElsewhere` and `Finish` model what the event loop may do to a task between two calls. `Run` applies a sequence of calls and loop steps.
- `lifecycle_properties.dfy`, module `LifecycleProperties`: what holds of one call and of every sequence of calls and loop steps.
- `pattern.dfy`, module `Pattern`: the imperative model. `TaskHandle` is the object `create_task` returns, with fields `cancelRequested`, `cancelled` and `done`. `ClassTask` has the entry-point, the hooks and the run-forever flag as `const` fields (never reassigned after construction), `task: TaskHandle?` as its one mutable field, and two ghost fields: the trace and `nextId`, the identity the next task gets. Each method states its new abstract state as a `Lifecycle` function of the old one: `Start` and `Enter` follow `Lifecycle.Start`, `Stop` follows `Lifecycle.Stop`, `Exit` follows `Lifecycle.Exit`, and the handle's `Cancel`, `LoopProcessesCancel`, `LoopCancelsElsewhere` and `LoopFinishesTask` follow `RequestCancel`, `ProcessCancel`, `CancelElsewhere` and `Finish`. Its `modifies` clause names the fields it may write: `Stop` and `Exit` cannot write `task`; only `Start` can, and `Enter` through it.

The handle keeps `cancel()` and `cancelled()` apart, as asyncio does. `cancel()` only sets a request flag. `cancelled()` becomes true only when the loop ends the task cancelled. That happens when the loop processes this instance's request (`ProcessCancel`). It also happens without this instance asking (`CancelElsewhere`): another holder of the task may call `cancel()`, as `asyncio.run` does to every pending task at shutdown, or the entry-point may let a `CancelledError` escape. The model proves these consequences:

- After a `stop` that proceeded, a `start` does nothing until the loop has ended the task cancelled (`StopThenStartIsNoop`).
- Two consecutive `stop` calls request cancellation twice, and fire the end hook twice, until the loop has ended the task cancelled (`StopTwiceRequestsTwice`).
- Only a cancelled task is replaced; a task that finished normally never is (`FinishedTaskIsNeverRestarted`).
- An exit straight after an enter reports false, because the exit's own `stop` has only requested cancellation (`ExitAfterEnterReportsFalse`).
- A task cancelled without this instance asking reopens the `start` guard, and an exit then reports true without firing the end hook (`CancelledElsewhereReportsTrue`).

Python `Task` objects define no truth value, so `not self._task` holds exactly when no task is stored. A supplied hook is taken to be truthy, so `if self._start_callback:` holds exactly when a hook was supplied. asyncio's `Task.cancel()` does nothing to a task that is already done, and `RequestCancel` follows that.

## Model

| member | source | states |
|---|---|---|
| Lifecycle.RequestCancel | toolbox/asyncio/pattern.py:98 | `cancel()` never makes the task report cancelled or done; it sets the request flag unless the task is already done |
| Lifecycle.ProcessCancel | toolbox/asyncio/pattern.py:84 | the loop step after which `cancelled()` is true: exactly when it was already true, or a cancellation was requested on a task not yet done |
| Lifecycle.CancelElsewhere | toolbox/asyncio/pattern.py:84 | the loop step that ends a task cancelled without this instance's request: afterwards the task is done, and it reports cancelled unless it had already finished |
| Lifecycle.Finish | toolbox/asyncio/pattern.py:84 | a task that returns is done and its `cancelled()` status does not change |
| Lifecycle.GuardsComplementary | toolbox/asyncio/pattern.py:84-95 | in every state exactly one of the `start` and `stop` guards passes |
| Lifecycle.Start | toolbox/asyncio/pattern.py:80-89 | guard closed: the state is unchanged. Guard open: a new handle, never cancelled, with a fresh identity replaces the stored one. Either way a task that does not report cancelled is stored afterwards, and the trace only grows |
| Lifecycle.Stop | toolbox/asyncio/pattern.py:91-98 | guard closed: the state is unchanged. Otherwise cancellation is requested on the same stored task. The task is never cleared or replaced, and both guards read as before |
| Lifecycle.Exit | toolbox/asyncio/pattern.py:104-107 | performs `stop`. The report is None exactly when no task was ever stored, and true exactly when the task already reported cancelled before the exit |
| Lifecycle.Construct | toolbox/asyncio/pattern.py:71-78 | a task is stored exactly when `start` was set; without it nothing happened |
| LifecycleProperties.StartEventsOrdered | toolbox/asyncio/pattern.py:85-89 | a proceeding `start` fires its hook right before the submission, and drives the loop only after it |
| LifecycleProperties.StopEventsOrdered | toolbox/asyncio/pattern.py:96-98 | a proceeding `stop` fires its hook right before the cancellation request |
| LifecycleProperties.StartEventCounts | toolbox/asyncio/pattern.py:85-89 | a proceeding `start` submits once, fires the start hook once if present, and drives the loop once in run-forever mode |
| LifecycleProperties.StopEventCounts | toolbox/asyncio/pattern.py:96-98 | a proceeding `stop` requests cancellation once and fires the end hook once if present |
| LifecycleProperties.StartCounts | toolbox/asyncio/pattern.py:84-89 | `start` adds one submission and at most one start hook and loop drive when its guard passes, and nothing otherwise. It never fires the end hook or requests cancellation |
| LifecycleProperties.StopCounts | toolbox/asyncio/pattern.py:95-98 | `stop` adds one cancellation request and at most one end hook when its guard passes, and nothing otherwise. It never submits |
| LifecycleProperties.StartPreservesValid | toolbox/asyncio/pattern.py:80-89 | `start` keeps the invariant: the stored handle is the latest submitted, submissions are counted, each hook comes right before its effect |
| LifecycleProperties.StopPreservesValid | toolbox/asyncio/pattern.py:91-98 | `stop` keeps the same invariant |
| LifecycleProperties.StepPreservesValid | toolbox/asyncio/pattern.py:80-107 | every call and every loop step keeps the invariant |
| LifecycleProperties.RunPreservesValid | toolbox/asyncio/pattern.py:80-107 | every sequence of calls and loop steps keeps the invariant |
| LifecycleProperties.ConstructStartsOnlyWhenAsked | toolbox/asyncio/pattern.py:75-78 | construction satisfies the invariant and submits and fires the start hook once with `start` set, and never otherwise; it never requests cancellation |
| LifecycleProperties.StartTwiceSubmitsOnce | toolbox/asyncio/pattern.py:84-87 | a second `start` straight after a first changes nothing |
| LifecycleProperties.StopThenStartIsNoop | toolbox/asyncio/pattern.py:84-98 | after a `stop` that proceeded, `start` changes nothing and submits nothing until the loop processes the cancellation |
| LifecycleProperties.StopTwiceRequestsTwice | toolbox/asyncio/pattern.py:95-98 | a second `stop` before the loop processes the first passes the guard again: two cancellation requests and two end-hook calls |
| LifecycleProperties.StopBeforeStartIsNoop | toolbox/asyncio/pattern.py:95 | `stop` with no task stored changes nothing and requests no cancellation |
| LifecycleProperties.RestartAfterCancelProcessed | toolbox/asyncio/pattern.py:84-98 | stop, then the loop processing the cancellation, then start: a new handle is stored and exactly one more submission is made |
| LifecycleProperties.ExitAfterEnterReportsFalse | toolbox/asyncio/pattern.py:100-107 | leaving a scope straight after entering it always reports `False` |
| LifecycleProperties.FinishedTaskIsNeverRestarted | toolbox/asyncio/pattern.py:84-98 | after a task finished without being cancelled, no sequence of calls and loop steps replaces it or submits again |
| LifecycleProperties.CancelledElsewhereReportsTrue | toolbox/asyncio/pattern.py:84-107 | a task that is not done and not cancelled, once cancelled without this instance asking reopens the `start` guard; a following exit then changes nothing, fires no end hook and reports `True` |
| LifecycleProperties.SubmissionsPerEpoch | toolbox/asyncio/pattern.py:84-89 | over any sequence of calls and loop steps, submissions plus one while the start guard is open grow by exactly the number of steps that reopen the start guard |
| LifecycleProperties.ReopenedOnlyByLoopCancel | toolbox/asyncio/pattern.py:84-98 | no call reopens the start guard: every step that does is the loop ending the task cancelled, whoever asked for it |
| LifecycleProperties.AtMostOneSubmissionPerEpoch | toolbox/asyncio/pattern.py:84-89 | when no step reopens the start guard, any sequence submits at most once, and never while a task that does not report cancelled is stored |
| LifecycleProperties.UnrequestedCancelStepSubmitsNothing | toolbox/asyncio/pattern.py:84-89 | after a `start` that proceeded, a loop step processing a cancellation nobody requested reopens nothing, and a following `start` changes nothing |
| Pattern.TaskHandle.constructor | toolbox/asyncio/pattern.py:87 | `create_task` returns a fresh task that is not cancelled, not done and has no request |
| Pattern.TaskHandle.Cancel | toolbox/asyncio/pattern.py:98 | `cancel()` updates the handle as `RequestCancel` says |
| Pattern.TaskHandle.LoopProcessesCancel | toolbox/asyncio/pattern.py:84 | the loop step updates the handle as `ProcessCancel` says |
| Pattern.TaskHandle.LoopCancelsElsewhere | toolbox/asyncio/pattern.py:84 | the loop step updates the handle as `CancelElsewhere` says |
| Pattern.TaskHandle.LoopFinishesTask | toolbox/asyncio/pattern.py:84 | the loop step updates the handle as `Finish` says |
| Pattern.ClassTask.constructor | toolbox/asyncio/pattern.py:71-78 | keeps the entry-point, hooks and flag, satisfies the invariant, and reaches `Construct`'s state; the task is fresh when started |
| Pattern.ClassTask.Start | toolbox/asyncio/pattern.py:80-89 | writes only the task, trace and counter fields and reaches `Lifecycle.Start`'s state. The stored task is a fresh object exactly when the guard passed, and the same object otherwise |
| Pattern.ClassTask.Stop | toolbox/asyncio/pattern.py:91-98 | cannot write `task`, keeps the same stored object and reaches `Lifecycle.Stop`'s state |
| Pattern.ClassTask.Enter | toolbox/asyncio/pattern.py:100-102 | performs `start` and returns the instance itself; the stored task is a fresh object exactly when `start`'s guard passed, and the same object otherwise |
| Pattern.ClassTask.Exit | toolbox/asyncio/pattern.py:104-107 | performs `stop` and returns `Lifecycle.Exit`'s report; the exception arguments have no effect |

## Left out

- The event loop itself: `asyncio.get_event_loop()` (line 76) and the loop's scheduling. `create_task` is a fresh `TaskHandle`. The loop's progress is three explicit steps: processing this instance's cancellation request, ending the task cancelled without that request, and the entry-point returning.
- The blocking of `run_forever()` (lines 88-89): it is recorded as one event in the trace after the submission, and `start` is taken to return afterwards. Whatever the loop does to the task while it runs is not modelled.
- The `RuntimeError` that `run_forever()` raises when an event loop is already running (lines 88-89). With `run_forever` set, every `__aenter__`, and every `start` called while the loop is running, whose guard passes raises it; the docstring's own `async with AsyncClass() as process` (line 65) is such a case. The hook has already fired and the new task is already stored when it raises, so a later `__aenter__` on the same instance, while that task does not report cancelled, finds the guard closed and returns the instance without raising. The model's `start` returns normally instead, and its `Enter` returns the instance.
- Hooks that call back into the instance. A start hook that calls `start()` recurses without end, because `_task` is assigned only after the hook (lines 85-87); likewise an end hook that calls `stop()` (lines 96-98). The model's hooks have no effect on the instance.
- Falsy hooks: an object whose class defines `__call__` together with `__bool__` or `__len__` can be falsy, and then `if self._start_callback:` or `if self._end_callback:` skips it (lines 85, 96). The model takes every supplied hook to be truthy.
- The body of the entry-point and anything it raises: it is opaque, known only by name.
- Exceptions raised by a hook or by `create_task`: the model assumes each call returns. If a hook raised, `start` or `stop` would stop at that point.
- Concurrent callers of `start` and `stop`: calls are sequential steps, interleaved with explicit loop steps.
- What a truthy `__aexit__` result means to Python's `async with` (suppressing the exception): only the returned value is modelled.
- The illustrative class `AsyncClass` in the docstring (lines 38-68).
