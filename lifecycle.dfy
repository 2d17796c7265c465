/** The lifecycle of one ClassTask instance, as values.

    A state holds the stored task handle (if any), the trace of side effects
    the instance has caused so far (hook calls, submissions to the loop,
    cancellation requests, driving the loop) and the identity the next
    submitted task will get. `Start`, `Stop` and `Exit` are the instance's
    operations; `ProcessCancel`, `CancelElsewhere` and `Finish` are what the
    event loop may do to the stored task between two calls. The imperative
    class in module Pattern is proved to follow these functions step by step,
    so what is proved here about runs of operations holds of the class too. */
module Lifecycle {

  datatype Option<+T> = None | Some(value: T)

  /** A synchronous hook supplied at construction. What it does is not
      modelled: only whether it was supplied and when it is called. */
  datatype Callback = Callback(name: string)

  /** The settings fixed at construction and never reassigned afterwards. */
  datatype Config = Config(startCallback: Option<Callback>, endCallback: Option<Callback>, runForever: bool)

  /** What the instance can observe of a task created by the event loop.
      `cancelRequested` is set by `cancel()`; `cancelled` and `done` change
      only when the loop runs the task. */
  datatype Handle = Handle(id: nat, cancelRequested: bool, cancelled: bool, done: bool)

  /** The side effects the instance causes, in the order it causes them. */
  datatype Event =
    | StartHookFired
    | Submitted(id: nat)
    | LoopDriven
    | EndHookFired
    | CancelRequested(id: nat)

  datatype Kind = StartHookKind | SubmitKind | LoopKind | EndHookKind | CancelKind

  datatype State = State(task: Option<Handle>, trace: seq<Event>, nextId: nat)

  /** A call made on the instance, or a step the event loop takes. */
  datatype Op = CallStart | CallStop | CallEnter | CallExit | CancelProcessed | CancelledElsewhere | EntryPointReturned

  function KindOf(e: Event): Kind {
    match e
    case StartHookFired => StartHookKind
    case Submitted(_) => SubmitKind
    case LoopDriven => LoopKind
    case EndHookFired => EndHookKind
    case CancelRequested(_) => CancelKind
  }

  /** How many events of kind `k` the trace holds. */
  function Count(t: seq<Event>, k: Kind): nat {
    if t == [] then 0 else (if KindOf(t[0]) == k then 1 else 0) + Count(t[1..], k)
  }

  function Ind(b: bool): nat { if b then 1 else 0 }

  lemma {:induction false} CountAppend(t: seq<Event>, u: seq<Event>, k: Kind)
    ensures Count(t + u, k) == Count(t, k) + Count(u, k)
  {
    if t == [] {
      assert t + u == u;
    } else {
      assert (t + u)[1..] == t[1..] + u;
      CountAppend(t[1..], u, k);
    }
  }

  // ---------------------------------------------------------------- handles

  /** A handle the loop has just created: nothing requested, nothing run. */
  function NewHandle(id: nat): Handle {
    Handle(id, false, false, false)
  }

  /** What asyncio guarantees of a task: a cancelled task is done. It may
      be cancelled without this instance asking (see `CancelElsewhere`). */
  ghost predicate HandleOk(h: Handle) {
    h.cancelled ==> h.done
  }

  /** `Task.cancel()`: a request only. A task that is already done ignores it. */
  function RequestCancel(h: Handle): (r: Handle)
    ensures r.id == h.id && r.cancelled == h.cancelled && r.done == h.done
    ensures r.cancelRequested <==> h.cancelRequested || !h.done
    ensures HandleOk(h) ==> HandleOk(r)
  {
    if h.done then h else h.(cancelRequested := true)
  }

  /** Loop step: a pending cancellation reaches the task, which ends cancelled. */
  function ProcessCancel(h: Handle): (r: Handle)
    ensures r.id == h.id && r.cancelRequested == h.cancelRequested
    ensures r.cancelled <==> h.cancelled || (h.cancelRequested && !h.done)
    ensures HandleOk(h) ==> HandleOk(r)
  {
    if h.cancelRequested && !h.done then h.(cancelled := true, done := true) else h
  }

  /** Loop step: the task ends cancelled although this instance did not ask
      for it: another holder called `cancel()` (as `asyncio.run` does to every
      pending task at shutdown), or the entry-point let a `CancelledError`
      escape. A task that is already done is left alone. */
  function CancelElsewhere(h: Handle): (r: Handle)
    ensures r.id == h.id && r.cancelRequested == h.cancelRequested
    ensures r.cancelled <==> h.cancelled || !h.done
    ensures r.done
    ensures HandleOk(h) ==> HandleOk(r)
  {
    if h.done then h else h.(cancelled := true, done := true)
  }

  /** Loop step: the entry-point returns (or raises) without being cancelled. */
  function Finish(h: Handle): (r: Handle)
    ensures r.id == h.id && r.cancelRequested == h.cancelRequested
    ensures r.done && r.cancelled == h.cancelled
    ensures HandleOk(h) ==> HandleOk(r)
  {
    h.(done := true)
  }

  // ----------------------------------------------------------------- guards

  /** The guard of `start`: no task stored, or the stored one reports cancelled. */
  predicate StartGuard(t: Option<Handle>) {
    t.None? || t.value.cancelled
  }

  /** The guard of `stop`: a task is stored and it does not report cancelled. */
  predicate StopGuard(t: Option<Handle>) {
    t.Some? && !t.value.cancelled
  }

  /** In every state exactly one of `start` and `stop` proceeds. */
  lemma GuardsComplementary(t: Option<Handle>)
    ensures StopGuard(t) <==> !StartGuard(t)
  {
  }

  // ------------------------------------------------------------- invariants

  /** Position `i` of the trace is where its kind of event may stand: a hook
      fires only when configured and is immediately followed by the effect it
      precedes; a submission (a cancellation request) follows the start (end)
      hook when there is one; the loop is driven only in run-forever mode and
      right after a submission. */
  ghost predicate EventOk(c: Config, t: seq<Event>, i: nat)
    requires i < |t|
  {
    match t[i]
    case StartHookFired => c.startCallback.Some? && i + 1 < |t| && t[i + 1].Submitted?
    case Submitted(_) => c.startCallback.Some? ==> 0 < i && t[i - 1] == StartHookFired
    case LoopDriven => c.runForever && 0 < i && t[i - 1].Submitted?
    case EndHookFired => c.endCallback.Some? && i + 1 < |t| && t[i + 1].CancelRequested?
    case CancelRequested(_) => c.endCallback.Some? ==> 0 < i && t[i - 1] == EndHookFired
  }

  ghost predicate Ordered(c: Config, t: seq<Event>) {
    forall i | 0 <= i < |t| :: EventOk(c, t, i)
  }

  /** The instance invariant: the stored handle is the one most recently
      submitted (and is never cleared once there), submissions are counted by
      `nextId`, and the trace is ordered. */
  ghost predicate Valid(c: Config, s: State) {
    && (s.task.None? <==> s.nextId == 0)
    && (s.task.Some? ==> HandleOk(s.task.value) && s.task.value.id + 1 == s.nextId)
    && Count(s.trace, SubmitKind) == s.nextId
    && Ordered(c, s.trace)
  }

  lemma OrderedAppend(c: Config, t: seq<Event>, u: seq<Event>)
    requires Ordered(c, t) && Ordered(c, u)
    ensures Ordered(c, t + u)
  {
    forall i | 0 <= i < |t + u|
      ensures EventOk(c, t + u, i)
    {
      if i < |t| {
        assert EventOk(c, t, i);
      } else {
        assert EventOk(c, u, i - |t|);
      }
    }
  }

  // ------------------------------------------------------------- operations

  /** The effects of a `start` that passes its guard, in order. */
  function StartEvents(c: Config, id: nat): seq<Event> {
    (if c.startCallback.Some? then [StartHookFired] else [])
    + [Submitted(id)]
    + (if c.runForever then [LoopDriven] else [])
  }

  /** The effects of a `stop` that passes its guard, in order. */
  function StopEvents(c: Config, id: nat): seq<Event> {
    (if c.endCallback.Some? then [EndHookFired] else []) + [CancelRequested(id)]
  }

  /** `start`: when the guard passes, fire the start hook, submit the
      entry-point, store the new handle in place of the old one and, in
      run-forever mode, drive the loop; otherwise change nothing. */
  function Start(c: Config, s: State): (r: State)
    ensures !StartGuard(s.task) ==> r == s
    ensures StartGuard(s.task) ==> r.task == Some(NewHandle(s.nextId)) && r.nextId == s.nextId + 1
    ensures StopGuard(r.task)
    ensures s.trace <= r.trace
  {
    if StartGuard(s.task) then
      State(Some(NewHandle(s.nextId)), s.trace + StartEvents(c, s.nextId), s.nextId + 1)
    else
      s
  }

  /** `stop`: when the guard passes, fire the end hook and request
      cancellation of the stored handle; otherwise change nothing. The stored
      handle stays the same task. */
  function Stop(c: Config, s: State): (r: State)
    ensures !StopGuard(s.task) ==> r == s
    ensures StopGuard(s.task) ==> r.task == Some(RequestCancel(s.task.value))
    ensures r.nextId == s.nextId && (r.task.Some? <==> s.task.Some?)
    ensures r.task.Some? ==> r.task.value.id == s.task.value.id
    ensures StartGuard(r.task) == StartGuard(s.task) && StopGuard(r.task) == StopGuard(s.task)
    ensures s.trace <= r.trace
  {
    if StopGuard(s.task) then
      var h := s.task.value;
      State(Some(RequestCancel(h)), s.trace + StopEvents(c, h.id), s.nextId)
    else
      s
  }

  /** `__aexit__`: stop, then report the stored task's cancelled status, or
      no value when no task was ever created. */
  function Exit(c: Config, s: State): (r: (State, Option<bool>))
    ensures r.0 == Stop(c, s)
    ensures r.1.None? <==> s.task.None?
    ensures r.1 == Some(true) <==> s.task.Some? && s.task.value.cancelled
  {
    var s' := Stop(c, s);
    (s', if s'.task.Some? then Some(s'.task.value.cancelled) else None)
  }

  function Initial(): State {
    State(None, [], 0)
  }

  /** `__init__`: no task stored, then one `start` when asked for. */
  function Construct(c: Config, start: bool): (r: State)
    ensures r.task.Some? <==> start
    ensures !start ==> r.trace == []
  {
    if start then Start(c, Initial()) else Initial()
  }

  /** One call on the instance (`__aenter__` performs a `start`), or one step
      of the loop on the stored task. */
  function Step(c: Config, s: State, op: Op): State {
    match op
    case CallStart => Start(c, s)
    case CallStop => Stop(c, s)
    case CallEnter => Start(c, s)
    case CallExit => Exit(c, s).0
    case CancelProcessed =>
      s.(task := if s.task.Some? then Some(ProcessCancel(s.task.value)) else None)
    case CancelledElsewhere =>
      s.(task := if s.task.Some? then Some(CancelElsewhere(s.task.value)) else None)
    case EntryPointReturned =>
      s.(task := if s.task.Some? then Some(Finish(s.task.value)) else None)
  }

  function Run(c: Config, s: State, ops: seq<Op>): State
    decreases |ops|
  {
    if ops == [] then s else Run(c, Step(c, s, ops[0]), ops[1..])
  }

  /** How many steps along `ops`, taken from `s`, reopen the start guard:
      before the step `start` would do nothing, after it `start` proceeds. */
  function Reopens(c: Config, s: State, ops: seq<Op>): nat
    decreases |ops|
  {
    if ops == [] then 0
    else
      var s' := Step(c, s, ops[0]);
      Ind(!StartGuard(s.task) && StartGuard(s'.task)) + Reopens(c, s', ops[1..])
  }

  /** How many steps along `ops` are the loop ending a task cancelled,
      whoever asked for it; a step that finds no task to end still counts. */
  function CancelSteps(ops: seq<Op>): nat {
    if ops == [] then 0
    else Ind(ops[0] == CancelProcessed || ops[0] == CancelledElsewhere) + CancelSteps(ops[1..])
  }
}
