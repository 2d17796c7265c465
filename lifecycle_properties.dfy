/** What the lifecycle promises: the invariant every operation keeps, how
    many hooks, submissions and cancellation requests each operation causes,
    and what sequences of calls and loop steps can and cannot do. */
module LifecycleProperties {
  import opened Lifecycle

  // ----------------------------------------------- the effects of one call

  lemma StartEventsOrdered(c: Config, id: nat)
    ensures Ordered(c, StartEvents(c, id))
  {
  }

  lemma StopEventsOrdered(c: Config, id: nat)
    ensures Ordered(c, StopEvents(c, id))
  {
  }

  lemma StartEventCounts(c: Config, id: nat, k: Kind)
    ensures Count(StartEvents(c, id), k) ==
      match k
      case StartHookKind => Ind(c.startCallback.Some?)
      case SubmitKind => 1
      case LoopKind => Ind(c.runForever)
      case _ => 0
  {
    var hook: seq<Event> := if c.startCallback.Some? then [StartHookFired] else [];
    var loop: seq<Event> := if c.runForever then [LoopDriven] else [];
    CountAppend(hook, [Submitted(id)], k);
    CountAppend(hook + [Submitted(id)], loop, k);
  }

  lemma StopEventCounts(c: Config, id: nat, k: Kind)
    ensures Count(StopEvents(c, id), k) ==
      match k
      case EndHookKind => Ind(c.endCallback.Some?)
      case CancelKind => 1
      case _ => 0
  {
    var hook: seq<Event> := if c.endCallback.Some? then [EndHookFired] else [];
    CountAppend(hook, [CancelRequested(id)], k);
  }

  /** A `start` that passes its guard fires the start hook (when there is
      one) exactly once, submits exactly once and, in run-forever mode, drives
      the loop once; it never fires the end hook or requests cancellation.
      A `start` that does not pass its guard causes nothing. */
  lemma StartCounts(c: Config, s: State, k: Kind)
    ensures Count(Start(c, s).trace, k) == Count(s.trace, k) +
      match k
      case StartHookKind => Ind(StartGuard(s.task) && c.startCallback.Some?)
      case SubmitKind => Ind(StartGuard(s.task))
      case LoopKind => Ind(StartGuard(s.task) && c.runForever)
      case _ => 0
  {
    if StartGuard(s.task) {
      CountAppend(s.trace, StartEvents(c, s.nextId), k);
      StartEventCounts(c, s.nextId, k);
    }
  }

  /** A `stop` that passes its guard fires the end hook (when there is one)
      exactly once and requests cancellation exactly once; it never submits,
      fires the start hook or drives the loop. A `stop` that does not pass
      its guard causes nothing. */
  lemma StopCounts(c: Config, s: State, k: Kind)
    ensures Count(Stop(c, s).trace, k) == Count(s.trace, k) +
      match k
      case EndHookKind => Ind(StopGuard(s.task) && c.endCallback.Some?)
      case CancelKind => Ind(StopGuard(s.task))
      case _ => 0
  {
    if StopGuard(s.task) {
      CountAppend(s.trace, StopEvents(c, s.task.value.id), k);
      StopEventCounts(c, s.task.value.id, k);
    }
  }

  // ---------------------------------------------------------- the invariant

  lemma StartPreservesValid(c: Config, s: State)
    requires Valid(c, s)
    ensures Valid(c, Start(c, s))
  {
    StartCounts(c, s, SubmitKind);
    if StartGuard(s.task) {
      StartEventsOrdered(c, s.nextId);
      OrderedAppend(c, s.trace, StartEvents(c, s.nextId));
    }
  }

  lemma StopPreservesValid(c: Config, s: State)
    requires Valid(c, s)
    ensures Valid(c, Stop(c, s))
  {
    StopCounts(c, s, SubmitKind);
    if StopGuard(s.task) {
      StopEventsOrdered(c, s.task.value.id);
      OrderedAppend(c, s.trace, StopEvents(c, s.task.value.id));
    }
  }

  lemma StepPreservesValid(c: Config, s: State, op: Op)
    requires Valid(c, s)
    ensures Valid(c, Step(c, s, op))
  {
    match op
    case CallStart => StartPreservesValid(c, s);
    case CallEnter => StartPreservesValid(c, s);
    case CallStop => StopPreservesValid(c, s);
    case CallExit => StopPreservesValid(c, s);
    case CancelProcessed =>
    case CancelledElsewhere =>
    case EntryPointReturned =>
  }

  /** Every reachable state satisfies the invariant: in particular the
      start hook fires once right before each submission and the end hook
      once right before each cancellation request. */
  lemma {:induction false} RunPreservesValid(c: Config, s: State, ops: seq<Op>)
    requires Valid(c, s)
    ensures Valid(c, Run(c, s, ops))
    decreases |ops|
  {
    if ops != [] {
      StepPreservesValid(c, s, ops[0]);
      RunPreservesValid(c, Step(c, s, ops[0]), ops[1..]);
    }
  }

  /** Construction: no task stored and nothing submitted unless asked to
      start; when asked, exactly one start, hence exactly one submission. */
  lemma ConstructStartsOnlyWhenAsked(c: Config, start: bool)
    ensures Valid(c, Construct(c, start))
    ensures Count(Construct(c, start).trace, SubmitKind) == Ind(start)
    ensures Count(Construct(c, start).trace, StartHookKind) == Ind(start && c.startCallback.Some?)
    ensures Count(Construct(c, start).trace, CancelKind) == 0
  {
    assert Valid(c, Initial());
    StartPreservesValid(c, Initial());
    StartCounts(c, Initial(), SubmitKind);
    StartCounts(c, Initial(), StartHookKind);
    StartCounts(c, Initial(), CancelKind);
  }

  // ------------------------------------------------ short call sequences

  /** A second `start` straight after a first one changes nothing. */
  lemma StartTwiceSubmitsOnce(c: Config, s: State)
    ensures Start(c, Start(c, s)) == Start(c, s)
  {
  }

  /** `cancel()` is only a request, so a `start` straight after a `stop`
      that proceeded is a no-op until the loop processes the cancellation. */
  lemma StopThenStartIsNoop(c: Config, s: State)
    requires StopGuard(s.task)
    ensures Start(c, Stop(c, s)) == Stop(c, s)
    ensures Count(Start(c, Stop(c, s)).trace, SubmitKind) == Count(s.trace, SubmitKind)
  {
    StopCounts(c, s, SubmitKind);
  }

  /** For the same reason a second `stop` before the loop has processed
      the first request passes the guard again: the end hook fires and
      cancellation is requested once more. */
  lemma StopTwiceRequestsTwice(c: Config, s: State)
    requires StopGuard(s.task)
    ensures StopGuard(Stop(c, s).task)
    ensures Count(Stop(c, Stop(c, s)).trace, CancelKind) == Count(s.trace, CancelKind) + 2
    ensures Count(Stop(c, Stop(c, s)).trace, EndHookKind) ==
      Count(s.trace, EndHookKind) + 2 * Ind(c.endCallback.Some?)
  {
    StopCounts(c, s, CancelKind);
    StopCounts(c, Stop(c, s), CancelKind);
    StopCounts(c, s, EndHookKind);
    StopCounts(c, Stop(c, s), EndHookKind);
  }

  /** `stop` on an instance that never started fires no hook and requests
      no cancellation. */
  lemma StopBeforeStartIsNoop(c: Config, s: State)
    requires s.task.None?
    ensures Stop(c, s) == s
    ensures Count(Stop(c, s).trace, CancelKind) == Count(s.trace, CancelKind)
  {
  }

  /** Restart works: after `stop`, once the loop has processed the
      cancellation, `start` submits a new task and stores it. */
  lemma RestartAfterCancelProcessed(c: Config, s: State)
    requires Valid(c, s) && StopGuard(s.task) && !s.task.value.done
    ensures Run(c, s, [CallStop, CancelProcessed, CallStart]).task == Some(NewHandle(s.nextId))
    ensures Count(Run(c, s, [CallStop, CancelProcessed, CallStart]).trace, SubmitKind) ==
      Count(s.trace, SubmitKind) + 1
  {
    var s1 := Stop(c, s);
    var s2 := Step(c, s1, CancelProcessed);
    assert StartGuard(s2.task);
    StopCounts(c, s, SubmitKind);
    StartCounts(c, s2, SubmitKind);
    assert [CallStop, CancelProcessed, CallStart][1..] == [CancelProcessed, CallStart];
    assert [CancelProcessed, CallStart][1..] == [CallStart];
  }

  /** Entering a scope and leaving it straight away reports that the task is
      not cancelled: the exit's `stop` has only requested cancellation. */
  lemma ExitAfterEnterReportsFalse(c: Config, s: State)
    ensures Exit(c, Start(c, s)).1 == Some(false)
  {
  }

  // -------------------------------------------------- arbitrary sequences

  /** A task that finished without being cancelled is never restarted:
      whatever is called and whatever the loop does, the same handle stays
      stored and nothing is submitted again. */
  lemma {:induction false} FinishedTaskIsNeverRestarted(c: Config, s: State, ops: seq<Op>)
    requires s.task.Some? && s.task.value.done && !s.task.value.cancelled
    ensures Run(c, s, ops).task == s.task
    ensures Run(c, s, ops).nextId == s.nextId
    ensures Count(Run(c, s, ops).trace, SubmitKind) == Count(s.trace, SubmitKind)
    decreases |ops|
  {
    if ops != [] {
      var s' := Step(c, s, ops[0]);
      StartCounts(c, s, SubmitKind);
      StopCounts(c, s, SubmitKind);
      assert s'.task == s.task && s'.nextId == s.nextId;
      assert Count(s'.trace, SubmitKind) == Count(s.trace, SubmitKind);
      FinishedTaskIsNeverRestarted(c, s', ops[1..]);
    }
  }

  /** Exactly one submission per epoch: submissions, plus one while the
      start guard is open, grow by exactly the number of steps that reopen
      the start guard. */
  lemma {:induction false} SubmissionsPerEpoch(c: Config, s: State, ops: seq<Op>)
    ensures Count(Run(c, s, ops).trace, SubmitKind) + Ind(StartGuard(Run(c, s, ops).task)) ==
      Count(s.trace, SubmitKind) + Ind(StartGuard(s.task)) + Reopens(c, s, ops)
    decreases |ops|
  {
    if ops != [] {
      var s' := Step(c, s, ops[0]);
      StartCounts(c, s, SubmitKind);
      StopCounts(c, s, SubmitKind);
      SubmissionsPerEpoch(c, s', ops[1..]);
    }
  }

  /** Only the loop reopens the start guard: no call does, so each reopening
      step is the loop ending a task cancelled. */
  lemma {:induction false} ReopenedOnlyByLoopCancel(c: Config, s: State, ops: seq<Op>)
    ensures Reopens(c, s, ops) <= CancelSteps(ops)
    decreases |ops|
  {
    if ops != [] {
      var s' := Step(c, s, ops[0]);
      assert !StartGuard(s.task) && StartGuard(s'.task) ==>
        ops[0] == CancelProcessed || ops[0] == CancelledElsewhere;
      ReopenedOnlyByLoopCancel(c, s', ops[1..]);
    }
  }

  /** Unless some step reopens the start guard, any sequence of calls and
      loop steps submits at most once, and not at all while a task that does
      not report cancelled is stored. */
  lemma AtMostOneSubmissionPerEpoch(c: Config, s: State, ops: seq<Op>)
    requires Reopens(c, s, ops) == 0
    ensures Count(Run(c, s, ops).trace, SubmitKind) <= Count(s.trace, SubmitKind) + Ind(StartGuard(s.task))
  {
    SubmissionsPerEpoch(c, s, ops);
  }

  /** A loop step that finds nothing to end reopens nothing: after a `start`
      that proceeded, processing a cancellation nobody requested and then a
      second `start` submit nothing more. */
  lemma UnrequestedCancelStepSubmitsNothing(c: Config, s: State)
    requires StartGuard(s.task)
    ensures Reopens(c, Start(c, s), [CancelProcessed, CallStart]) == 0
    ensures Run(c, Start(c, s), [CancelProcessed, CallStart]) == Start(c, s)
  {
    assert [CancelProcessed, CallStart][1..] == [CallStart];
  }

  /** A task cancelled without this instance asking reopens the `start`
      guard, and leaving a scope then fires no end hook, requests nothing and
      reports `True`. */
  lemma CancelledElsewhereReportsTrue(c: Config, s: State)
    requires StopGuard(s.task) && !s.task.value.done
    ensures StartGuard(Step(c, s, CancelledElsewhere).task)
    ensures Exit(c, Step(c, s, CancelledElsewhere)) == (Step(c, s, CancelledElsewhere), Some(true))
    ensures Count(Exit(c, Step(c, s, CancelledElsewhere)).0.trace, EndHookKind) == Count(s.trace, EndHookKind)
  {
  }
}
