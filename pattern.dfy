/** The ClassTask wrapper as an object: fields the operations update in
    place, the task handle the event loop hands out, and hooks and loop
    calls recorded in a ghost trace. Every method is proved to do exactly
    what a function of module Lifecycle does to the abstract state: `Start`
    and `Enter` follow `Start`, `Stop` follows `Stop`, `Exit` follows `Exit`,
    and the handle's `Cancel` and three loop steps follow `RequestCancel`,
    `ProcessCancel`, `CancelElsewhere` and `Finish`. So the properties
    proved there apply here. */
module Pattern {
  import opened Lifecycle
  import opened LifecycleProperties

  /** The awaitable entry-point of the wrapped class; its body is opaque. */
  datatype EntryPoint = EntryPoint(name: string)

  /** The task object the event loop returns from `create_task`. */
  class TaskHandle {
    ghost const id: nat
    var cancelRequested: bool
    var cancelled: bool
    var done: bool

    ghost function View(): Handle
      reads this
    {
      Handle(id, cancelRequested, cancelled, done)
    }

    /** `create_task`: a fresh task, not yet run and not cancelled. */
    constructor (ghost id: nat)
      ensures View() == NewHandle(id)
    {
      this.id := id;
      cancelRequested, cancelled, done := false, false, false;
    }

    /** `cancel()`: only requests cancellation; `cancelled` is left alone. */
    method Cancel()
      modifies this
      ensures View() == RequestCancel(old(View()))
    {
      if !done {
        cancelRequested := true;
      }
    }

    /** Loop step: a pending cancellation reaches the task. */
    method LoopProcessesCancel()
      modifies this
      ensures View() == ProcessCancel(old(View()))
    {
      if cancelRequested && !done {
        cancelled, done := true, true;
      }
    }

    /** Loop step: the task ends cancelled without this instance asking. */
    method LoopCancelsElsewhere()
      modifies this
      ensures View() == CancelElsewhere(old(View()))
    {
      if !done {
        cancelled, done := true, true;
      }
    }

    /** Loop step: the entry-point runs to its end without being cancelled. */
    method LoopFinishesTask()
      modifies this
      ensures View() == Finish(old(View()))
    {
      done := true;
    }
  }

  class ClassTask {
    const func: EntryPoint
    const startCallback: Option<Callback>
    const endCallback: Option<Callback>
    const runForever: bool
    var task: TaskHandle?
    ghost var trace: seq<Event>
    ghost var nextId: nat

    function Settings(): Config {
      Config(startCallback, endCallback, runForever)
    }

    ghost function Abs(): State
      reads this, task
    {
      State(if task == null then None else Some(task.View()), trace, nextId)
    }

    ghost predicate Valid()
      reads this, task
    {
      Lifecycle.Valid(Settings(), Abs())
    }

    /** `__init__`: keep the entry-point, hooks and run-forever flag for
        good, store no task, and start at once when `start` is set. */
    constructor (func: EntryPoint, startCallback: Option<Callback>, endCallback: Option<Callback>,
                 runForever: bool, start: bool)
      ensures this.func == func && this.startCallback == startCallback
      ensures this.endCallback == endCallback && this.runForever == runForever
      ensures Valid()
      ensures Abs() == Construct(Settings(), start)
      ensures start ==> fresh(task)
    {
      this.func := func;
      this.startCallback := startCallback;
      this.endCallback := endCallback;
      this.runForever := runForever;
      task := null;
      trace := [];
      nextId := 0;
      new;
      assert Abs() == Initial();
      if start {
        Start();
      }
    }

    /** `start`: only when no task is stored or the stored one reports
        cancelled, fire the start hook, then submit the entry-point and store
        the new task; in run-forever mode, then drive the loop. */
    method Start()
      requires Valid()
      modifies this`task, this`trace, this`nextId
      ensures Valid()
      ensures Abs() == Lifecycle.Start(Settings(), old(Abs()))
      ensures old(task == null || task.cancelled) ==> fresh(task)
      ensures !old(task == null || task.cancelled) ==> task == old(task)
    {
      ghost var s := Abs();
      StartPreservesValid(Settings(), s);
      if task == null || task.cancelled {
        if startCallback.Some? {
          trace := trace + [StartHookFired];
        }
        task := new TaskHandle(nextId);
        trace := trace + [Submitted(nextId)];
        nextId := nextId + 1;
        if runForever {
          trace := trace + [LoopDriven];
        }
        assert trace == s.trace + StartEvents(Settings(), s.nextId);
      }
    }

    /** `stop`: only when a task is stored and it does not report
        cancelled, fire the end hook, then request cancellation. The stored
        task is never replaced or cleared. */
    method Stop()
      requires Valid()
      modifies this`trace, task
      ensures Valid()
      ensures task == old(task)
      ensures Abs() == Lifecycle.Stop(Settings(), old(Abs()))
    {
      ghost var s := Abs();
      StopPreservesValid(Settings(), s);
      if task != null && !task.cancelled {
        if endCallback.Some? {
          trace := trace + [EndHookFired];
        }
        task.Cancel();
        trace := trace + [CancelRequested(task.id)];
        assert trace == s.trace + StopEvents(Settings(), task.id);
      }
    }

    /** `__aenter__`: one `start`, and the instance itself as the value. */
    method Enter() returns (self: ClassTask)
      requires Valid()
      modifies this`task, this`trace, this`nextId
      ensures self == this
      ensures Valid()
      ensures Abs() == Lifecycle.Start(Settings(), old(Abs()))
      ensures old(task == null || task.cancelled) ==> fresh(task)
      ensures !old(task == null || task.cancelled) ==> task == old(task)
    {
      Start();
      self := this;
    }

    /** `__aexit__`: `stop`, then the stored task's cancelled status, or
        no value when no task was ever created. The exception details are
        not looked at. */
    method Exit(excType: Option<string>, excValue: Option<string>, traceback: Option<string>)
      returns (report: Option<bool>)
      requires Valid()
      modifies this`trace, task
      ensures Valid()
      ensures task == old(task)
      ensures (Abs(), report) == Lifecycle.Exit(Settings(), old(Abs()))
    {
      Stop();
      if task != null {
        report := Some(task.cancelled);
      } else {
        report := None;
      }
    }
  }

  /** A worked example of a client, not a model of the source: construct
      without starting, stop (nothing happens), start twice (one submission),
      stop, let the loop process the cancellation, start again (a second, new
      task), enter a scope (the same task stays stored) and leave it. */
  method LifecycleScenario(func: EntryPoint, onStart: Callback, onStop: Callback)
  {
    var p := new ClassTask(func, Some(onStart), Some(onStop), false, false);
    p.Stop();
    assert p.task == null && p.trace == [];
    p.Start();
    var first := p.task;
    p.Start();
    assert p.task == first && p.trace == [StartHookFired, Submitted(0)];
    p.Stop();
    p.Start();
    assert p.task == first && p.nextId == 1;
    ghost var before := p.Abs();
    first.LoopProcessesCancel();
    assert p.Abs() == Step(p.Settings(), before, CancelProcessed);
    StepPreservesValid(p.Settings(), before, CancelProcessed);
    p.Start();
    assert p.task != first && p.nextId == 2;
    var second := p.task;
    var self := p.Enter();
    assert self == p && p.task == second;
    var report := p.Exit(None, None, None);
    assert report == Some(false);
  }
}
