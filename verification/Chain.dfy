/**
 A chain: steps queued one after another, advanced by completions that may be repeated,
 late or racing a cancel, an approval or a resume. Routing takes two moves, as in the
 source: the binding is read without a lock, and the step is handled under it.
 */
module Chain {
  import opened Common
  import opened Workflows

  type TaskId = nat

  datatype Outcome = Open | Won | Lost

  /** A step's task; the generation it was queued in is recorded for the proofs. */
  datatype TaskRow = TaskRow(step: nat, generation: nat, outcome: Outcome)

  datatype StepRow = StepRow(gated: bool, task: Option<TaskId>)

  /** `laid`: the step rows exist. Before a run the steps are only the builder's list. */
  datatype World = World(
    status: Status,
    laid: bool,
    current: nat,
    settled: bool,
    steps: seq<StepRow>,
    tasks: seq<TaskRow>,
    hooks: Hooks,
    routing: set<TaskId>,
    generation: nat,
    settlements: nat)

  function Created(gates: seq<bool>): World {
    World(Pending, false, 0, false, seq(|gates|, i requires 0 <= i < |gates| => StepRow(gates[i], None)),
          [], Hooks({}, [], {}), {}, 0, 0)
  }

  /** `_queue_chain_step`: the task, its enqueue and the step's link in one transaction. */
  function QueueStep(w: World, i: nat): World
    requires i < |w.steps|
  {
    w.(tasks := w.tasks + [TaskRow(i, w.generation, Open)],
    steps := w.steps[i := w.steps[i].(task := Some(|w.tasks|))])
  }

  /** `settle_workflow`, and the hook its caller will dispatch after the commit. */
  function Settle(w: World, status: Status, kind: HookType): World {
    if w.settled || IsTerminal(w.status) then w
    else
      w.(status := status, settled := true, settlements := w.settlements + 1,
      hooks := w.hooks.(pending := w.hooks.pending + {Hook(kind, w.settlements)}))
  }

  // ---------------------------------------------------------------------------
  // Operations
  // ---------------------------------------------------------------------------

  /** `run`: every status it tests is its handle's, so only existing step rows can refuse it. */
  function Start(w: World, seen: Status): World {
    if seen != Pending || |w.steps| == 0 || w.laid then w
    else if w.steps[0].gated then w.(status := WaitingApproval, laid := true)
    else QueueStep(w.(status := Running, laid := true), 0)
  }

  /** The final resolution of a step's task, its retries over. */
  function Finish(w: World, t: TaskId, won: bool): World {
    if t >= |w.tasks| || w.tasks[t].outcome != Open then w
    else w.(tasks := w.tasks[t := w.tasks[t].(outcome := if won then Won else Lost)])
  }

  predicate Bound(w: World, t: TaskId) {
    t < |w.tasks| && w.tasks[t].step < |w.steps| && w.steps[w.tasks[t].step].task == Some(t)
  }

  /** The unlocked read: a completion of a superseded generation is dropped here. */
  function BeginRoute(w: World, t: TaskId): World {
    if Bound(w, t) && w.tasks[t].outcome != Open then w.(routing := w.routing + {t}) else w
  }

  /** The locked half. A refused transition raises and rolls everything back. */
  function HandleStep(w: World, t: TaskId): World
    requires t < |w.tasks|
  {
    var i := w.tasks[t].step;
    if w.status == Cancelled then w
    else if w.tasks[t].outcome == Won then
      if w.current != i then w
      else if i + 1 >= |w.steps| then Settle(w, Succeeded, SuccessHook)
      else if w.steps[i + 1].gated then
        if CanBecome(w.status, WaitingApproval) then w.(current := i + 1, status := WaitingApproval) else w
      else QueueStep(w.(current := i + 1), i + 1)
    else if w.tasks[t].outcome == Lost then Settle(w, Failed, FailureHook)
    else w
  }

  function EndRoute(w: World, t: TaskId): World {
    if t !in w.routing || t >= |w.tasks| then w
    else HandleStep(w.(routing := w.routing - {t}), t)
  }

  /** One undisturbed pass of the live handler or of the replay. */
  function Route(w: World, t: TaskId): World {
    EndRoute(BeginRoute(w, t), t)
  }

  function FireHook(w: World, hook: Hook, enqueued: bool): World {
    if hook in w.hooks.pending then w.(hooks := Fire(w.hooks, hook, enqueued)) else w
  }

  /** `cancel`, whose hook shares its transaction. */
  function Cancel(w: World, enqueued: bool): World {
    if w.settled || !(w.status == Pending || w.status == Running || w.status == WaitingApproval) then w
    else
      w.(status := Cancelled, settled := true, settlements := w.settlements + 1,
      hooks := Fire(w.hooks, Hook(CancelledHook, w.settlements), enqueued))
  }

  /** `reject`, which accepts whatever the transition table lets become CANCELLED. */
  function Reject(w: World, enqueued: bool): World {
    if !CanBecome(w.status, Cancelled) then w
    else
      w.(status := Cancelled, settled := true, settlements := w.settlements + 1,
      hooks := Fire(w.hooks, Hook(CancelledHook, w.settlements), enqueued))
  }

  /** `approve`, which accepts whatever the table lets become RUNNING and has a step row. */
  function Approve(w: World): World {
    if !CanBecome(w.status, Running) || !w.laid || w.current >= |w.steps| then w
    else QueueStep(w.(status := Running), w.current)
  }

  /** `resume`: the first test is on the caller's instance, the transition on the row. */
  function Resume(w: World, seen: Status): World {
    if seen != Failed || !CanBecome(w.status, Running) || !w.laid || w.current >= |w.steps| then w
    else
      var fresh' := w.(status := Running, settled := false, generation := w.generation + 1,
                    hooks := w.hooks.(rows := {}));
      QueueStep(fresh', w.current)
  }

  // ---------------------------------------------------------------------------
  // Runs
  // ---------------------------------------------------------------------------

  datatype Event =
    | StartChain(seen: Status)
    | FinishTask(task: TaskId, won: bool)
    | ReadBinding(task: TaskId)
    | HandleCompletion(task: TaskId)
    | DispatchHook(hook: Hook, enqueued: bool)
    | CancelChain(enqueued: bool)
    | RejectStep(enqueued: bool)
    | ApproveStep
    | ResumeChain(seen: Status)
    | Crash

  function Step(w: World, e: Event): World {
    match e
    case StartChain(seen) => Start(w, seen)
    case FinishTask(t, won) => Finish(w, t, won)
    case ReadBinding(t) => BeginRoute(w, t)
    case HandleCompletion(t) => EndRoute(w, t)
    case DispatchHook(hook, enqueued) => FireHook(w, hook, enqueued)
    case CancelChain(enqueued) => Cancel(w, enqueued)
    case RejectStep(enqueued) => Reject(w, enqueued)
    case ApproveStep => Approve(w)
    case ResumeChain(seen) => Resume(w, seen)
    case Crash => w.(routing := {}, hooks := w.hooks.(pending := {}))
  }

  function Play(gates: seq<bool>, run: seq<Event>): World {
    if run == [] then Created(gates) else Step(Play(gates, run[..|run| - 1]), run[|run| - 1])
  }

  // ---------------------------------------------------------------------------
  // Safety, with routing racing everything
  // ---------------------------------------------------------------------------

  ghost predicate StepSucceeded(tasks: seq<TaskRow>, i: nat) {
    exists t :: 0 <= t < |tasks| && tasks[t].step == i && tasks[t].outcome == Won
  }

  /** The current step's task was queued in the current generation. */
  ghost predicate CurrentIsBound(w: World) {
    && w.current < |w.steps|
    && w.steps[w.current].task.Some?
    && w.steps[w.current].task.value < |w.tasks|
    && var row := w.tasks[w.steps[w.current].task.value];
    && row.step == w.current && row.generation == w.generation
  }

  /** Nothing was ever queued for the current step. */
  ghost predicate CurrentIsParked(w: World) {
    && w.current < |w.steps|
    && w.steps[w.current].task.None?
    && forall t :: 0 <= t < |w.tasks| ==> w.tasks[t].step < w.current
  }

  /** Steps before the current one succeeded, and nothing reaches past it. */
  ghost predicate Ordered(w: World) {
    && (forall i :: 0 <= i < w.current ==> StepSucceeded(w.tasks, i))
    && (forall i :: w.current < i < |w.steps| ==> w.steps[i].task.None?)
    && (forall t :: 0 <= t < |w.tasks| ==> w.tasks[t].step <= w.current && w.tasks[t].generation <= w.generation)
    && (forall t :: t in w.routing ==> t < |w.tasks| && w.tasks[t].outcome != Open)
  }

  /** What each status says about the current step. */
  ghost predicate Placed(w: World) {
    match w.status
    case Pending => true
    case Running => CurrentIsBound(w)
    case WaitingApproval => CurrentIsParked(w)
    case Succeeded => CurrentIsBound(w) && w.current == |w.steps| - 1 && StepSucceeded(w.tasks, w.current)
    case Failed => CurrentIsBound(w) || CurrentIsParked(w)
    case Cancelled => true
  }

  /** Until its steps are laid a chain is pending, or was cancelled before it ran. */
  ghost predicate Laid(w: World) {
    && (w.status == Pending ==> !w.laid)
    && (!w.laid ==> (w.status == Pending || w.status == Cancelled) && w.tasks == [] && w.current == 0 &&
                    forall i :: 0 <= i < |w.steps| ==> w.steps[i].task.None?)
  }

  /** Each step is queued at most once in each generation. */
  ghost predicate QueuedOnce(tasks: seq<TaskRow>) {
    forall t, u :: 0 <= t < u < |tasks| ==>
                     tasks[t].step != tasks[u].step || tasks[t].generation != tasks[u].generation
  }

  /** A settled chain is terminal and a terminal one settled. */
  ghost predicate SettledIffTerminal(w: World) {
    w.settled <==> IsTerminal(w.status)
  }

  ghost predicate Safe(w: World) {
    Ordered(w) && Placed(w) && Laid(w) && HooksSound(w.hooks, w.settlements)
  }

  ghost predicate Inv(w: World) {
    Safe(w) && QueuedOnce(w.tasks) && SettledIffTerminal(w)
  }

  lemma QueuedStepSucceeded(tasks: seq<TaskRow>, row: TaskRow, i: nat)
    requires StepSucceeded(tasks, i)
    ensures StepSucceeded(tasks + [row], i)
  {
    var t :| 0 <= t < |tasks| && tasks[t].step == i && tasks[t].outcome == Won;
    assert (tasks + [row])[t] == tasks[t];
  }

  /** Queueing the current step, whatever was bound to it before. */
  lemma QueueCurrentKeeps(w: World)
    requires w.current < |w.steps| && w.laid && (w.status == Running || w.status == Failed)
    requires Ordered(w) && HooksSound(w.hooks, w.settlements) && QueuedOnce(w.tasks)
    ensures Safe(QueueStep(w, w.current)) && CurrentIsBound(QueueStep(w, w.current))
    ensures QueuedOnce(QueueStep(w, w.current).tasks) <==>
            forall t :: 0 <= t < |w.tasks| ==> w.tasks[t].step != w.current || w.tasks[t].generation != w.generation
  {
    hide HooksSound, StepSucceeded;
    var v, n := QueueStep(w, w.current), |w.tasks|;
    forall i | 0 <= i < v.current
      ensures StepSucceeded(v.tasks, i)
    {
      QueuedStepSucceeded(w.tasks, TaskRow(w.current, w.generation, Open), i);
    }
    assert v.tasks[n] == TaskRow(w.current, w.generation, Open);
    forall t | 0 <= t < n
      ensures v.tasks[t] == w.tasks[t]
    {
    }
    if QueuedOnce(v.tasks) {
      forall t | 0 <= t < n
        ensures w.tasks[t].step != w.current || w.tasks[t].generation != w.generation
      {
        assert v.tasks[t].step != v.tasks[n].step || v.tasks[t].generation != v.tasks[n].generation;
      }
    }
  }

  /**
   The exact condition on `run`: it keeps the chain's invariant unless its handle was read
   before the chain was cancelled. The cancel is then overwritten.
   */
  lemma StartKeepsIff(w: World, seen: Status)
    requires Inv(w)
    ensures Inv(Start(w, seen)) <==> !(seen == Pending && w.status == Cancelled && !w.laid && |w.steps| > 0)
  {
    hide HooksSound;
    if seen == Pending && !w.laid && |w.steps| > 0 && !w.steps[0].gated {
      QueueCurrentKeeps(w.(status := Running, laid := true));
    }
  }

  lemma FinishKeeps(w: World, t: TaskId, won: bool)
    requires Inv(w)
    ensures Inv(Finish(w, t, won))
  {
    hide HooksSound, StepSucceeded;
    var v := Finish(w, t, won);
    forall i | 0 <= i < |w.steps| && StepSucceeded(w.tasks, i)
      ensures StepSucceeded(v.tasks, i)
    {
      FinishedStepSucceeded(w, t, won, i);
    }
    forall i | 0 <= i < w.current
      ensures StepSucceeded(v.tasks, i)
    {
      FinishedStepSucceeded(w, t, won, i);
    }
    forall u | 0 <= u < |w.tasks|
      ensures v.tasks[u] == w.tasks[u].(outcome := v.tasks[u].outcome)
      ensures w.tasks[u].outcome != Open ==> v.tasks[u] == w.tasks[u]
    {
    }
  }

  lemma FinishedStepSucceeded(w: World, t: TaskId, won: bool, i: nat)
    requires StepSucceeded(w.tasks, i)
    ensures StepSucceeded(Finish(w, t, won).tasks, i)
  {
    var u :| 0 <= u < |w.tasks| && w.tasks[u].step == i && w.tasks[u].outcome == Won;
    assert Finish(w, t, won).tasks[u] == w.tasks[u];
  }

  lemma SettleKeeps(w: World, status: Status, kind: HookType)
    requires Inv(w) && w.status != Pending
    requires status == Failed ||
             (status == Succeeded && w.status != WaitingApproval && w.status != Failed &&
              w.current == |w.steps| - 1 && StepSucceeded(w.tasks, w.current))
    ensures Inv(Settle(w, status, kind))
  {
    hide HooksSound, StepSucceeded;
    NewHookIsSound(w.hooks, kind, w.settlements);
  }

  lemma HandleStepKeeps(w: World, t: TaskId)
    requires Inv(w) && t < |w.tasks|
    ensures Inv(HandleStep(w, t))
  {
    hide HooksSound, StepSucceeded;
    var i := w.tasks[t].step;
    if w.status != Cancelled && w.tasks[t].outcome == Won && w.current == i {
      assert StepSucceeded(w.tasks, i) by { WitnessSucceeded(w.tasks, t); }
      if i + 1 >= |w.steps| {
        if w.status == Running {
          SettleKeeps(w, Succeeded, SuccessHook);
        }
      } else if !w.steps[i + 1].gated {
        QueueCurrentKeeps(w.(current := i + 1));
      }
    } else if w.status != Cancelled && w.tasks[t].outcome == Lost {
      SettleKeeps(w, Failed, FailureHook);
    }
  }

  lemma WitnessSucceeded(tasks: seq<TaskRow>, t: TaskId)
    requires t < |tasks| && tasks[t].outcome == Won
    ensures StepSucceeded(tasks, tasks[t].step)
  {
  }

  lemma EndRouteKeeps(w: World, t: TaskId)
    requires Inv(w)
    ensures Inv(EndRoute(w, t))
  {
    hide HooksSound, StepSucceeded;
    if t in w.routing && t < |w.tasks| {
      HandleStepKeeps(w.(routing := w.routing - {t}), t);
    }
  }

  lemma BeginRouteKeeps(w: World, t: TaskId)
    requires Inv(w)
    ensures Inv(BeginRoute(w, t))
  {
    hide HooksSound, StepSucceeded;
  }

  lemma DecisionKeeps(w: World, enqueued: bool)
    requires Inv(w)
    ensures Inv(Cancel(w, enqueued)) && Inv(Reject(w, enqueued))
  {
    hide HooksSound, StepSucceeded, Fire;
    FiringNewHookIsSound(w.hooks, CancelledHook, enqueued, w.settlements);
  }

  lemma FireKeeps(w: World, hook: Hook, enqueued: bool)
    requires Inv(w)
    ensures Inv(FireHook(w, hook, enqueued))
  {
    hide HooksSound, StepSucceeded, Fire;
    if hook in w.hooks.pending {
      FireKeepsHooks(w.hooks, hook, enqueued, w.settlements);
    }
  }

  lemma ResumeKeeps(w: World, seen: Status)
    requires Inv(w)
    ensures Inv(Resume(w, seen))
  {
    hide HooksSound, StepSucceeded;
    if Resume(w, seen) != w {
      ClearedRowsAreSound(w.hooks, w.settlements);
      QueueCurrentKeeps(w.(status := Running, settled := false, generation := w.generation + 1,
                        hooks := w.hooks.(rows := {})));
    }
  }

  lemma ClearedRowsAreSound(h: Hooks, settlements: nat)
    requires HooksSound(h, settlements)
    ensures HooksSound(h.(rows := {}), settlements) && HooksSound(h.(pending := {}), settlements)
  {
  }

  lemma CrashKeeps(w: World)
    requires Inv(w)
    ensures Inv(Step(w, Crash))
  {
    hide HooksSound, StepSucceeded;
    ClearedRowsAreSound(w.hooks, w.settlements);
  }

  /**
   The exact condition on an approval: it keeps the chain's invariant if and only if the
   chain has not FAILED. From FAILED the transition table lets it through.
   */
  lemma ApproveKeepsIff(w: World)
    requires Inv(w)
    ensures Inv(Approve(w)) <==> w.status != Failed
  {
    hide HooksSound, StepSucceeded;
    if w.status == WaitingApproval || w.status == Failed {
      QueueCurrentKeeps(w.(status := Running));
    }
  }

  lemma StepKeeps(w: World, e: Event)
    requires Inv(w) && Sanctioned(w, e)
    ensures Inv(Step(w, e))
  {
    hide Inv, Start, Finish, EndRoute, FireHook, Cancel, Reject, Approve, Resume;
    match e
    case StartChain(seen) => StartKeepsIff(w, seen);
    case FinishTask(t, won) => FinishKeeps(w, t, won);
    case ReadBinding(t) => BeginRouteKeeps(w, t);
    case HandleCompletion(t) => EndRouteKeeps(w, t);
    case DispatchHook(hook, enqueued) => FireKeeps(w, hook, enqueued);
    case CancelChain(enqueued) => DecisionKeeps(w, enqueued);
    case RejectStep(enqueued) => DecisionKeeps(w, enqueued);
    case ApproveStep => ApproveKeepsIff(w);
    case ResumeChain(seen) => ResumeKeeps(w, seen);
    case Crash => CrashKeeps(w);
  }

  /** No approval of a FAILED chain, and no run on a handle older than a cancel. */
  ghost predicate Sanctioned(w: World, e: Event) {
    && (e.ApproveStep? ==> w.status != Failed)
    && (e.StartChain? && e.seen == Pending ==> w.status != Cancelled)
  }

  ghost predicate SanctionedRun(gates: seq<bool>, run: seq<Event>) {
    run == [] ||
    var front, last := run[..|run| - 1], run[|run| - 1];
    SanctionedRun(gates, front) && Sanctioned(Play(gates, front), last)
  }

  lemma {:induction false} RunKeeps(gates: seq<bool>, run: seq<Event>)
    requires SanctionedRun(gates, run)
    ensures Inv(Play(gates, run)) && |Play(gates, run).steps| == |gates|
  {
    hide Inv, Step;
    if run == [] {
      CreatedIsSound(gates);
    } else {
      var w := Play(gates, run[..|run| - 1]);
      RunKeeps(gates, run[..|run| - 1]);
      StepKeeps(w, run[|run| - 1]);
      StepsAreFixed(w, run[|run| - 1]);
    }
  }

  lemma CreatedIsSound(gates: seq<bool>)
    ensures Inv(Created(gates)) && |Created(gates).steps| == |gates|
  {
  }

  lemma StepsAreFixed(w: World, e: Event)
    ensures |Step(w, e).steps| == |w.steps|
  {
  }

  /**
   Chain safety, with routing racing approvals, resumes and cancels: earlier steps
   succeeded, later ones are unbound, each step is queued once a generation, a parked
   step is unbound, success means every step succeeded, and hooks go out once.
   */
  lemma ChainSafety(gates: seq<bool>, run: seq<Event>)
    requires SanctionedRun(gates, run)
    ensures var w := Play(gates, run);
            && (forall i :: 0 <= i < w.current ==> StepSucceeded(w.tasks, i))
            && (forall i :: w.current < i < |w.steps| ==> w.steps[i].task.None?)
            && (forall t, u :: 0 <= t < u < |w.tasks| ==>
                                 w.tasks[t].step != w.tasks[u].step || w.tasks[t].generation != w.tasks[u].generation)
            && (w.status == WaitingApproval ==> w.current < |w.steps| && w.steps[w.current].task.None?)
            && (w.status == Succeeded ==> forall i :: 0 <= i < |gates| ==> StepSucceeded(w.tasks, i))
            && (w.settled <==> IsTerminal(w.status))
            && (forall i, j :: 0 <= i < j < |w.hooks.sent| ==>
                                 w.hooks.sent[i].settlement != w.hooks.sent[j].settlement)
  {
    hide StepSucceeded, Play;
    RunKeeps(gates, run);
  }

  /** A step is queued only once its predecessor has succeeded. */
  lemma QueuedAfterPredecessor(w: World, e: Event)
    requires Inv(w)
    ensures var v := Step(w, e);
            |v.tasks| > |w.tasks| ==>
              && |v.tasks| == |w.tasks| + 1
              && v.tasks[|w.tasks|].step == v.current
              && (v.current > 0 ==> StepSucceeded(w.tasks, v.current - 1))
  {
    hide HooksSound, QueuedOnce, StepSucceeded;
    match e
    case HandleCompletion(t) =>
      if t in w.routing && t < |w.tasks| && w.tasks[t].outcome == Won {
        WitnessSucceeded(w.tasks, t);
      }
    case _ =>
  }

  // ---------------------------------------------------------------------------
  // Gates
  // ---------------------------------------------------------------------------

  /** From w to v at most one task was queued, and for a gated step only if it was decided. */
  ghost predicate Queues(w: World, v: World, decided: bool) {
    && |v.steps| == |w.steps| && (forall i :: 0 <= i < |w.steps| ==> v.steps[i].gated == w.steps[i].gated)
    && |w.tasks| <= |v.tasks| <= |w.tasks| + 1
    && (forall t :: 0 <= t < |w.tasks| ==> v.tasks[t].step == w.tasks[t].step && v.tasks[t].generation == w.tasks[t].generation)
    && (|v.tasks| > |w.tasks| ==>
          var row := v.tasks[|w.tasks|];
          && row.step < |w.steps| && (w.steps[row.step].gated ==> decided)
          && row.outcome == Open && row.generation == v.generation)
  }

  /**
   A task is queued for an ungated step, or by an approval or a resume, which alone opens a
   generation. Gates, and what a task was queued for, never change.
   */
  lemma GatesHold(w: World, e: Event)
    ensures Queues(w, Step(w, e), e.ApproveStep? || e.ResumeChain?)
    ensures Step(w, e).generation == w.generation + (if e.ResumeChain? && Step(w, e) != w then 1 else 0)
  {
    hide Fire, Queues, EndRoute;
    match e
    case HandleCompletion(t) => CompletionQueues(w, t);
    case ApproveStep => DecisionQueues(w, e);
    case ResumeChain(_) => DecisionQueues(w, e);
    case _ => OthersQueue(w, e);
  }

  lemma CompletionQueues(w: World, t: TaskId)
    ensures Queues(w, EndRoute(w, t), false) && EndRoute(w, t).generation == w.generation
  {
  }

  lemma DecisionQueues(w: World, e: Event)
    requires e.ApproveStep? || e.ResumeChain?
    ensures Queues(w, Step(w, e), true)
  {
  }

  lemma OthersQueue(w: World, e: Event)
    requires !e.HandleCompletion? && !e.ApproveStep? && !e.ResumeChain?
    ensures Queues(w, Step(w, e), false) && Step(w, e).generation == w.generation
  {
    hide Fire;
  }

  /** The event that queued task t, which for a gated step was an approval or a resume. */
  ghost predicate QueuedBy(gates: seq<bool>, run: seq<Event>, k: nat, t: TaskId, gated: bool) {
    && k < |run|
    && |Play(gates, run[..k]).tasks| == t && |Step(Play(gates, run[..k]), run[k]).tasks| == t + 1
    && (gated ==> run[k].ApproveStep? || run[k].ResumeChain?)
  }

  /** Over every run, stale handles and late completions included: a gated step runs only on a decision. */
  lemma {:induction false} GatedStepsAreDecided(gates: seq<bool>, run: seq<Event>, t: TaskId)
    requires t < |Play(gates, run).tasks|
    ensures |Play(gates, run).steps| == |gates|
    ensures forall i :: 0 <= i < |gates| ==> Play(gates, run).steps[i].gated == gates[i]
    ensures var i := Play(gates, run).tasks[t].step;
            && i < |gates|
            && exists k :: QueuedBy(gates, run, k, t, gates[i])
  {
    hide Step;
    GatesOf(gates, run);
    if run != [] {
      var n := |run| - 1;
      var front, last := run[..n], run[n];
      var w := Play(gates, front);
      GatesOf(gates, front);
      GatesHold(w, last);
      if t < |w.tasks| {
        GatedStepsAreDecided(gates, front, t);
        var i := w.tasks[t].step;
        var k: nat :| QueuedBy(gates, front, k, t, gates[i]);
        assert front[..k] == run[..k] && front[k] == run[k];
        assert QueuedBy(gates, run, k, t, gates[i]);
      } else {
        assert QueuedBy(gates, run, n, t, gates[Play(gates, run).tasks[t].step]);
      }
    }
  }

  lemma {:induction false} GatesOf(gates: seq<bool>, run: seq<Event>)
    ensures var w := Play(gates, run);
            |w.steps| == |gates| && forall i :: 0 <= i < |gates| ==> w.steps[i].gated == gates[i]
  {
    hide Step;
    if run != [] {
      GatesOf(gates, run[..|run| - 1]);
      GatesHold(Play(gates, run[..|run| - 1]), run[|run| - 1]);
    }
  }

  /** A task's outcome is what its first finish reported, and its completion is routed only then. */
  lemma OutcomesFollowTheirEvents(w: World, e: Event, t: TaskId)
    requires t < |w.tasks|
    ensures t < |Step(w, e).tasks|
    ensures var v := Step(w, e);
            && v.tasks[t].outcome == (if w.tasks[t].outcome == Open && e.FinishTask? && e.task == t
                                      then (if e.won then Won else Lost) else w.tasks[t].outcome)
            && (t in v.routing <==>
                  || (e == ReadBinding(t) && Bound(w, t) && w.tasks[t].outcome != Open)
                  || (t in w.routing && !e.Crash? && e != HandleCompletion(t)))
  {
    hide Fire, CanBecome;
  }

  /** No completion settles a chain twice, or one that is terminal, in any state whatever. */
  lemma CompletionsSettleOnce(w: World, t: TaskId)
    requires w.settled || IsTerminal(w.status)
    ensures var v := Step(w, HandleCompletion(t));
            && v.settled == w.settled && v.settlements == w.settlements && v.hooks == w.hooks
            && (IsTerminal(w.status) ==> v.status == w.status)
  {
  }

  /** The status a chain moves to is one the table allows, but for a first gate and for a failure while parked. */
  lemma StatusesFollowTheTable(w: World, e: Event)
    requires Inv(w) && Sanctioned(w, e) && Step(w, e).status != w.status
    ensures var v := Step(w, e);
            || CanBecome(w.status, v.status)
            || (e.StartChain? && w.status == Pending && v.status == WaitingApproval)
            || (e.HandleCompletion? && w.status == WaitingApproval && v.status == Failed)
  {
    hide HooksSound, QueuedOnce, StepSucceeded, Fire;
  }

  /**
   What a completion in flight does to a running chain. A win of the current step moves it
   on: to wait at a gate with nothing queued, to the next step's task, or to SUCCEEDED. A loss fails it.
   */
  lemma CompletionMovesTheChain(w: World, t: TaskId)
    requires Inv(w) && w.status == Running && t in w.routing && t < |w.tasks| && w.tasks[t].step == w.current
    ensures var v := Step(w, HandleCompletion(t));
            var next := w.current + 1;
            && v.routing == w.routing - {t} && v.generation == w.generation
            && (w.tasks[t].outcome == Won && next < |w.steps| ==>
                  && v.current == next && !v.settled && v.settlements == w.settlements && v.hooks == w.hooks
                  && (w.steps[next].gated ==>
                        v.status == WaitingApproval && v.tasks == w.tasks && v.steps == w.steps)
                  && (!w.steps[next].gated ==>
                        && v.status == Running && v.tasks == w.tasks + [TaskRow(next, w.generation, Open)]
                        && v.steps == w.steps[next := StepRow(false, Some(|w.tasks|))]))
            && (w.tasks[t].outcome == Won && next == |w.steps| ==>
                  v.status == Succeeded && v.current == w.current && v.tasks == w.tasks && v.steps == w.steps)
            && (w.tasks[t].outcome == Lost ==>
                  v.status == Failed && v.current == w.current && v.tasks == w.tasks && v.steps == w.steps)
  {
    hide HooksSound, QueuedOnce, StepSucceeded;
  }

  /**
   A completion that is not the current step's cannot move the chain: a win of an earlier step
   changes nothing, and a loss fails an open chain where it stands.
   */
  lemma EarlierCompletionsMoveNothing(w: World, t: TaskId)
    requires Inv(w) && t in w.routing && t < |w.tasks| && w.tasks[t].step != w.current
    ensures var v := Step(w, HandleCompletion(t));
            && v.current == w.current && v.tasks == w.tasks && v.steps == w.steps && v.generation == w.generation
            && (w.tasks[t].outcome == Won || IsTerminal(w.status) ==> v == w.(routing := w.routing - {t}))
            && (w.tasks[t].outcome == Lost && !IsTerminal(w.status) ==> v.status == Failed && v.settled)
  {
    hide HooksSound, QueuedOnce, StepSucceeded;
  }

  /** A decision or a start queues one task, for the current step, where it was parked, failed or first. */
  lemma DecisionsQueueTheCurrent(w: World, e: Event)
    requires Inv(w) && (e == ApproveStep || e == ResumeChain(Failed) || e == StartChain(Pending))
    ensures var v := Step(w, e);
            var opens := match e
                         case ApproveStep => w.status == WaitingApproval || w.status == Failed
                         case ResumeChain(_) => w.status == WaitingApproval || w.status == Failed
                         case _ => !w.laid && |w.steps| > 0 && !w.steps[0].gated;
            && v.current == w.current
            && (opens ==>
                  && v.status == Running && v.laid && w.current < |w.steps|
                  && v.tasks == w.tasks + [TaskRow(w.current, v.generation, Open)]
                  && v.steps == w.steps[w.current := w.steps[w.current].(task := Some(|w.tasks|))])
            && (!opens ==> v.tasks == w.tasks && v.steps == w.steps)
            && (e.StartChain? && !w.laid && |w.steps| > 0 && w.steps[0].gated ==> v.status == WaitingApproval && v.laid)
            && (e.ResumeChain? && opens ==> !v.settled && v.hooks.rows == {})
  {
    hide HooksSound, QueuedOnce, StepSucceeded;
  }

  // ---------------------------------------------------------------------------
  // Cancellation
  // ---------------------------------------------------------------------------

  /** A run on a handle read before the cancel, of a chain that never ran. */
  predicate StaleRun(w: World, e: Event) {
    e.StartChain? && e.seen == Pending && !w.laid && |w.steps| > 0
  }

  /** CANCELLED absorbs everything but that: status, step, bindings and tasks stay, and nothing is queued. */
  lemma CancelledIsAbsorbingIff(w: World, e: Event)
    requires w.status == Cancelled && w.settled
    ensures Step(w, e).status == Cancelled <==> !StaleRun(w, e)
    ensures var v := Step(w, e);
            !StaleRun(w, e) ==>
              && v.settled && v.current == w.current && v.steps == w.steps && v.laid == w.laid
              && |v.tasks| == |w.tasks| && v.settlements == w.settlements && v.generation == w.generation
  {
  }

  // ---------------------------------------------------------------------------
  // Decisions the code lets through
  // ---------------------------------------------------------------------------

  /** Settled while running: what approving a FAILED chain leaves behind. */
  predicate Wedged(w: World) {
    w.settled && (w.status == Running || w.status == WaitingApproval)
  }

  /** Approving a FAILED chain queues its step again without clearing the settlement. */
  lemma ApprovingFailedWedges(w: World)
    requires Inv(w) && w.status == Failed
    ensures Wedged(Approve(w)) && |Approve(w).tasks| == |w.tasks| + 1
  {
  }

  /** A stale run overwrites the cancel, queues the first step, and leaves the settlement in place. */
  lemma StaleRunWedges(w: World, e: Event)
    requires Inv(w) && w.status == Cancelled && StaleRun(w, e)
    ensures Wedged(Step(w, e)) && |Step(w, e).tasks| == if w.steps[0].gated then 0 else 1
  {
  }

  /** From there no completion settles it and `cancel` is refused; only a reject ends it. */
  lemma WedgedStaysWedged(w: World, e: Event)
    requires Wedged(w)
    ensures e.RejectStep? ==> Step(w, e).status == Cancelled
    ensures !e.RejectStep? && !(e.ResumeChain? && e.seen == Failed && w.status == WaitingApproval) ==>
              Wedged(Step(w, e)) && Step(w, e).settlements == w.settlements
  {
  }

  /** A parked step is released by a resume exactly when the caller still believes the chain FAILED. */
  lemma ResumeOpensGateIff(w: World, seen: Status)
    requires Inv(w) && w.status == WaitingApproval
    ensures Resume(w, seen).status == Running <==> seen == Failed
    ensures seen == Failed ==> |Resume(w, seen).tasks| == |w.tasks| + 1
  {
  }

  /** `reject` and `cancel` differ only in what they demand: reject needs no parked step. */
  lemma RejectCancelsAnyOpenChain(w: World, enqueued: bool)
    requires Inv(w)
    ensures Reject(w, enqueued).status == Cancelled <==> w.status != Succeeded && w.status != Failed
    ensures !IsTerminal(w.status) ==> Reject(w, enqueued) == Cancel(w, enqueued)
  {
  }

  /**
   A failure whose binding was read before a resume and handled after it settles the
   generation that replaced it: the chain is FAILED while its current task is still open.
   */
  lemma LateFailureOvertakes(w: World, t: TaskId)
    requires Inv(w) && w.status == Failed && t in w.routing && w.tasks[t].outcome == Lost
    ensures var v := EndRoute(Resume(w, Failed), t);
            && v.status == Failed && v.settlements == w.settlements + 1 && v.current == w.current
            && CurrentIsBound(v) && v.steps[v.current].task == Some(|w.tasks|) && v.tasks[|w.tasks|].outcome == Open
  {
    hide HooksSound, StepSucceeded, QueuedOnce;
  }

  /** Such a state is reached by any failure that the live handler and a replay both route. */
  lemma LateFailureIsReachable() returns (run: seq<Event>)
    ensures var w := Play([false], run); w.status == Failed && 0 in w.routing && |w.tasks| == 1 && w.tasks[0].outcome == Lost
  {
    hide Play;
    var gates := [false];
    var w := PlayNothing(gates);
    run := [];
    run, w := PlayStep(gates, run, w, StartChain(Pending));
    run, w := PlayStep(gates, run, w, FinishTask(0, false));
    run, w := PlayStep(gates, run, w, ReadBinding(0));
    run, w := PlayStep(gates, run, w, HandleCompletion(0));
    run, w := PlayStep(gates, run, w, ReadBinding(0));
  }

  lemma PlayNothing(gates: seq<bool>) returns (w: World)
    ensures w == Play(gates, []) == Created(gates)
  {
    w := Created(gates);
  }

  lemma PlayStep(gates: seq<bool>, run: seq<Event>, w: World, e: Event) returns (longer: seq<Event>, v: World)
    requires w == Play(gates, run)
    ensures longer == run + [e] && v == Step(w, e) && v == Play(gates, longer)
  {
    longer, v := run + [e], Step(w, e);
    assert longer[..|run|] == run;
  }

  // ---------------------------------------------------------------------------
  // Where no resume overtakes its own step's completion
  // ---------------------------------------------------------------------------

  ghost predicate BoundWon(w: World, i: nat)
    requires i < |w.steps|
  {
    var task := w.steps[i].task;
    task.Some? && task.value < |w.tasks| && w.tasks[task.value].step == i && w.tasks[task.value].outcome == Won
  }

  ghost predicate CurrentLost(w: World) {
    CurrentIsBound(w) && w.tasks[w.steps[w.current].task.value].outcome == Lost
  }

  /** In flight means bound; earlier steps' own tasks won; a FAILED chain's current task lost. */
  ghost predicate Quiet(w: World) {
    && (forall t :: t in w.routing ==> Bound(w, t))
    && (forall i :: 0 <= i < w.current && i < |w.steps| ==> BoundWon(w, i))
    && (w.status == Failed ==> CurrentLost(w))
  }

  /** The completion of the current step's task is still between its two halves. */
  predicate CurrentInFlight(w: World) {
    w.current < |w.steps| && w.steps[w.current].task.Some? && w.steps[w.current].task.value in w.routing
  }

  /** A resume of a FAILED chain waits for that one; repeats of earlier wins may be in flight. */
  ghost predicate QuietEvent(w: World, e: Event) {
    && Sanctioned(w, e)
    && (e.ResumeChain? && e.seen == Failed && w.status == Failed ==> !CurrentInFlight(w))
  }

  /** The exact condition on a resume: nothing in flight is superseded if and only if its step is not. */
  lemma ResumeStaysQuietIff(w: World)
    requires Inv(w) && Quiet(w) && w.status == Failed
    ensures Quiet(Resume(w, Failed)) <==> !CurrentInFlight(w)
  {
    hide HooksSound, StepSucceeded, QueuedOnce;
    var v := Resume(w, Failed);
    var t := w.steps[w.current].task.value;
    forall u | u in w.routing
      ensures Bound(v, u) <==> u != t
    {
      InFlightIsCurrent(w, u);
    }
    forall i | 0 <= i < w.current
      ensures BoundWon(v, i)
    {
      assert BoundWon(w, i);
    }
  }

  /** A finished task in flight is the current step's, unless it already won its step. */
  lemma InFlightIsCurrent(w: World, t: TaskId)
    requires Inv(w) && Quiet(w) && t in w.routing
    ensures t < |w.tasks| && Bound(w, t) && w.tasks[t].outcome != Open && w.status != Pending
    ensures w.tasks[t].step == w.current || (w.tasks[t].step < w.current && w.tasks[t].outcome == Won)
    ensures w.status == WaitingApproval ==> w.tasks[t].step < w.current
  {
    hide HooksSound, StepSucceeded, QueuedOnce;
    var i := w.tasks[t].step;
    if i < w.current {
      assert BoundWon(w, i);
    }
  }

  lemma HandlingStaysQuiet(w: World, t: TaskId)
    requires Inv(w) && Quiet(w) && t in w.routing
    ensures Quiet(EndRoute(w, t))
  {
    hide HooksSound, StepSucceeded, QueuedOnce;
    InFlightIsCurrent(w, t);
    var v := EndRoute(w, t);
    forall u | u in v.routing
      ensures Bound(v, u)
    {
      InFlightIsCurrent(w, u);
    }
    forall i | 0 <= i < v.current && i < |v.steps|
      ensures BoundWon(v, i)
    {
      if i < w.current {
        assert BoundWon(w, i);
      }
    }
  }

  /** Earlier steps keep the tasks that won them. */
  lemma EarlierStayWon(w: World, e: Event)
    requires Inv(w) && Quiet(w) && QuietEvent(w, e) && !e.HandleCompletion?
    ensures var v := Step(w, e); forall i :: 0 <= i < v.current && i < |v.steps| ==> BoundWon(v, i)
  {
    hide HooksSound, StepSucceeded, QueuedOnce, Fire;
    var v := Step(w, e);
    forall i | 0 <= i < v.current && i < |v.steps|
      ensures BoundWon(v, i)
    {
      assert BoundWon(w, i);
    }
  }

  /** No event but a resume unbinds what is in flight, and then nothing is. */
  lemma InFlightStaysBound(w: World, e: Event)
    requires Inv(w) && Quiet(w) && QuietEvent(w, e) && !e.HandleCompletion?
    ensures var v := Step(w, e); forall u :: u in v.routing ==> Bound(v, u)
  {
    hide HooksSound, StepSucceeded, QueuedOnce, Fire, BoundWon;
    forall u | u in w.routing
      ensures Bound(w, u) && (w.status == WaitingApproval ==> w.tasks[u].step < w.current) && w.status != Pending
    {
      InFlightIsCurrent(w, u);
    }
  }

  lemma StepStaysQuiet(w: World, e: Event)
    requires Inv(w) && Quiet(w) && QuietEvent(w, e)
    ensures Quiet(Step(w, e))
  {
    hide HooksSound, StepSucceeded, QueuedOnce, Fire, BoundWon, Bound;
    if e.HandleCompletion? {
      if e.task in w.routing { HandlingStaysQuiet(w, e.task); }
    } else {
      EarlierStayWon(w, e);
      InFlightStaysBound(w, e);
    }
  }

  /** The exact condition once more, by its consequence: the late failure of a step overtakes its resume. */
  lemma ResumeIsOvertakenIff(w: World)
    requires Inv(w) && Quiet(w) && w.status == Failed
    ensures CurrentInFlight(w) <==>
            exists t :: t in w.routing &&
                        var v := EndRoute(Resume(w, Failed), t); v.status == Failed && !CurrentLost(v)
  {
    hide Inv, Quiet, Resume, EndRoute, CurrentLost;
    if CurrentInFlight(w) {
      var t := w.steps[w.current].task.value;
      FailedTaskIsLost(w);
      LateFailureOvertakes(w, t);
      OpenIsNotLost(EndRoute(Resume(w, Failed), t), |w.tasks|);
    } else {
      ResumeStaysQuietIff(w);
      ResumeKeeps(w, Failed);
      var r := Resume(w, Failed);
      forall t | t in w.routing
        ensures EndRoute(r, t).status == Failed ==> CurrentLost(EndRoute(r, t))
      {
        ResumeRoutesOn(w);
        HandlingStaysQuiet(r, t);
        QuietFailureIsLost(EndRoute(r, t));
      }
    }
  }

  lemma FailedTaskIsLost(w: World)
    requires Inv(w) && Quiet(w) && w.status == Failed
    ensures CurrentIsBound(w) && w.tasks[w.steps[w.current].task.value].outcome == Lost
  {
  }

  lemma OpenIsNotLost(v: World, t: TaskId)
    requires CurrentIsBound(v) && v.steps[v.current].task == Some(t) && v.tasks[t].outcome == Open
    ensures !CurrentLost(v)
  {
  }

  lemma ResumeRoutesOn(w: World)
    ensures Resume(w, Failed).routing == w.routing
  {
  }

  lemma QuietFailureIsLost(v: World)
    requires Quiet(v)
    ensures v.status == Failed ==> CurrentLost(v)
  {
  }

  ghost predicate QuietRun(gates: seq<bool>, run: seq<Event>) {
    run == [] ||
    var front, last := run[..|run| - 1], run[|run| - 1];
    QuietRun(gates, front) && QuietEvent(Play(gates, front), last)
  }

  lemma {:induction false} QuietRunKeeps(gates: seq<bool>, run: seq<Event>)
    requires QuietRun(gates, run)
    ensures Inv(Play(gates, run)) && Quiet(Play(gates, run)) && |Play(gates, run).steps| == |gates|
  {
    hide Inv, Quiet, Step;
    if run == [] {
      CreatedIsSound(gates);
      CreatedIsQuiet(gates);
    } else {
      var w := Play(gates, run[..|run| - 1]);
      QuietRunKeeps(gates, run[..|run| - 1]);
      StepKeeps(w, run[|run| - 1]);
      StepStaysQuiet(w, run[|run| - 1]);
      StepsAreFixed(w, run[|run| - 1]);
    }
  }

  lemma CreatedIsQuiet(gates: seq<bool>)
    ensures Quiet(Created(gates))
  {
  }

  /** Then a chain FAILED because its current task did, and SUCCEEDED because every bound task did. */
  lemma OutcomeIsOfBoundTasks(gates: seq<bool>, run: seq<Event>)
    requires QuietRun(gates, run)
    ensures var w := Play(gates, run);
            && (w.status == Failed ==> CurrentLost(w))
            && (forall i :: 0 <= i < w.current && i < |w.steps| ==> BoundWon(w, i))
  {
    hide Inv, Play;
    QuietRunKeeps(gates, run);
  }

  // ---------------------------------------------------------------------------
  // Replay
  // ---------------------------------------------------------------------------

  /** Handling this task's completion can change nothing any more. */
  predicate Spent(w: World, t: TaskId) {
    && t < |w.tasks| && w.tasks[t].outcome != Open
    && (|| !Bound(w, t)
        || w.settled
        || (w.tasks[t].outcome == Won && w.current > w.tasks[t].step))
  }

  lemma SpentIsInert(w: World, t: TaskId)
    requires Inv(w) && Quiet(w) && Spent(w, t)
    ensures EndRoute(w, t) == w.(routing := w.routing - {t})
    ensures BeginRoute(w, t) == w.(routing := BeginRoute(w, t).routing)
  {
    hide HooksSound, StepSucceeded, QueuedOnce;
  }

  lemma HandlingSpends(w: World, t: TaskId)
    requires Inv(w) && Quiet(w) && t in w.routing
    ensures Spent(EndRoute(w, t), t)
  {
    hide HooksSound, StepSucceeded, QueuedOnce;
  }

  lemma SpentStaysSpent(w: World, e: Event, t: TaskId)
    requires Inv(w) && Quiet(w) && QuietEvent(w, e) && Spent(w, t)
    ensures Spent(Step(w, e), t)
  {
    hide HooksSound, StepSucceeded, QueuedOnce, Fire;
    if Bound(w, t) && w.tasks[t].step < w.current {
      assert BoundWon(w, w.tasks[t].step);
    }
  }

  /** Routing a finished task again, right after a pass that was not refused, changes nothing. */
  lemma RoutingTwiceIsOnce(w: World, t: TaskId)
    requires Inv(w) && t !in w.routing
    ensures Route(Route(w, t), t) == Route(w, t)
  {
    hide HooksSound, StepSucceeded, QueuedOnce;
  }

  /** Over whole runs: once routed after it finished, a task's completion changes nothing ever again. */
  lemma {:induction false} ReplayIsInert(gates: seq<bool>, run: seq<Event>, k: nat, t: TaskId)
    requires QuietRun(gates, run) && k < |run| && run[k] == HandleCompletion(t)
    requires t in Play(gates, run[..k]).routing
    ensures var w := Play(gates, run);
            && Spent(w, t)
            && EndRoute(w, t) == w.(routing := w.routing - {t})
            && BeginRoute(w, t) == w.(routing := BeginRoute(w, t).routing)
            && (t !in w.routing ==> Route(w, t) == w)
    decreases |run|
  {
    hide Inv, Quiet, QuietEvent, Step, Route, EndRoute, BeginRoute, Spent;
    var front, last := run[..|run| - 1], run[|run| - 1];
    var w := Play(gates, front);
    QuietRunKeeps(gates, front);
    if k == |run| - 1 {
      HandlingSpends(w, t);
      StepHandles(w, t);
    } else {
      assert front[..k] == run[..k];
      ReplayIsInert(gates, front, k, t);
      SpentStaysSpent(w, last, t);
    }
    QuietRunKeeps(gates, run);
    SpentIsInert(Play(gates, run), t);
    if t !in Play(gates, run).routing {
      SpentRoutesNothing(Play(gates, run), t);
    }
  }

  lemma StepHandles(w: World, t: TaskId)
    ensures Step(w, HandleCompletion(t)) == EndRoute(w, t)
  {
  }

  lemma SpentRoutesNothing(w: World, t: TaskId)
    requires Inv(w) && Quiet(w) && Spent(w, t) && t !in w.routing
    ensures Route(w, t) == w
  {
    hide HooksSound, StepSucceeded, QueuedOnce;
    var begun := BeginRoute(w, t);
    if begun != w {
      assert Bound(w, t) && begun.routing - {t} == w.routing;
    }
  }

  // ---------------------------------------------------------------------------
  // The hooks of its settlements
  // ---------------------------------------------------------------------------

  predicate Held(w: World, n: nat) {
    exists p :: p in w.hooks.pending && p.settlement == n
  }

  predicate Sent(w: World, n: nat) {
    exists i :: 0 <= i < |w.hooks.sent| && w.hooks.sent[i].settlement == n
  }

  /** The n-th settlement's hook has been queued, or a process is about to queue it. */
  predicate Announced(w: World, n: nat) {
    Held(w, n) || Sent(w, n)
  }

  /** A hook is dropped for its kind's dispatch row, or for the broker's refusal. */
  predicate IsDropped(w: World, kind: HookType, e: Event) {
    kind in w.hooks.rows || IsRefused(e)
  }

  /** The broker refuses the message the event offers. */
  predicate IsRefused(e: Event) {
    (e.DispatchHook? || e.CancelChain? || e.RejectStep?) && !e.enqueued
  }

  /** The event settles the chain and dispatches its hook in the same transaction. */
  predicate Decides(w: World, e: Event) {
    || (e.CancelChain? && !w.settled && (w.status == Pending || w.status == Running || w.status == WaitingApproval))
    || (e.RejectStep? && CanBecome(w.status, Cancelled))
  }

  /** The event loses the hook of settlement n. */
  predicate LosesHook(w: World, e: Event, n: nat) {
    || (e.Crash? && Held(w, n))
    || (e.DispatchHook? && e.hook in w.hooks.pending && e.hook.settlement == n && IsDropped(w, e.hook.kind, e))
    || (Decides(w, e) && n == w.settlements && IsDropped(w, CancelledHook, e))
  }

  /** The exact condition, for every event and settlement. */
  lemma HookIsLostIff(w: World, e: Event, n: nat)
    requires Inv(w) && (n < w.settlements ==> Announced(w, n))
    ensures n < Step(w, e).settlements ==> (Announced(Step(w, e), n) <==> !LosesHook(w, e, n))
  {
    hide StepSucceeded, QueuedOnce, Ordered, Placed, Laid, HooksSound, Announced, LosesHook;
    var v := Step(w, e);
    match e {
      case DispatchHook(hook, enqueued) => DispatchLosesIff(w, hook, enqueued, n);
      case CancelChain(enqueued) => DecisionLosesIff(w, e, enqueued, n);
      case RejectStep(enqueued) => DecisionLosesIff(w, e, enqueued, n);
      case HandleCompletion(t) => SettlingAnnounces(w, e, n);
      case Crash => CrashLosesIff(w, n);
      case _ => SameHooksSameNews(w, e, n);
    }
  }

  lemma SameHooksSameNews(w: World, e: Event, n: nat)
    requires n < w.settlements ==> Announced(w, n)
    requires e.StartChain? || e.FinishTask? || e.ReadBinding? || e.ApproveStep? || e.ResumeChain?
    ensures n < Step(w, e).settlements ==> Announced(Step(w, e), n) && !LosesHook(w, e, n)
  {
    var v := Step(w, e);
    assert v.hooks.pending == w.hooks.pending && v.hooks.sent == w.hooks.sent && v.settlements == w.settlements;
    hide Step;
  }

  lemma CrashLosesIff(w: World, n: nat)
    requires Inv(w) && (n < w.settlements ==> Announced(w, n))
    ensures n < w.settlements ==> (Announced(Step(w, Crash), n) <==> !LosesHook(w, Crash, n))
    ensures Step(w, Crash).settlements == w.settlements
  {
    hide StepSucceeded, QueuedOnce, Ordered, Placed, Laid;
  }

  lemma SettlingAnnounces(w: World, e: Event, n: nat)
    requires e.HandleCompletion? && (n < w.settlements ==> Announced(w, n))
    ensures n < Step(w, e).settlements ==> Announced(Step(w, e), n) && !LosesHook(w, e, n)
  {
    var v := Step(w, e);
    assert v.hooks.sent == w.hooks.sent;
    assert (v.settlements == w.settlements && v.hooks.pending == w.hooks.pending) ||
           (v.settlements == w.settlements + 1 &&
            exists kind :: v.hooks.pending == w.hooks.pending + {Hook(kind, w.settlements)});
    hide Step;
    if v.settlements == w.settlements + 1 {
      var kind :| v.hooks.pending == w.hooks.pending + {Hook(kind, w.settlements)};
      assert Hook(kind, w.settlements) in v.hooks.pending;
      if Held(w, n) {
        var p :| p in w.hooks.pending && p.settlement == n;
        assert p in v.hooks.pending;
      }
    }
  }

  lemma DispatchLosesIff(w: World, hook: Hook, enqueued: bool, n: nat)
    requires Inv(w) && (n < w.settlements ==> Announced(w, n))
    ensures var v := Step(w, DispatchHook(hook, enqueued));
            && v.settlements == w.settlements
            && (n < w.settlements ==> (Announced(v, n) <==> !LosesHook(w, DispatchHook(hook, enqueued), n)))
  {
    hide StepSucceeded, QueuedOnce, Ordered, Placed, Laid;
    var v := Step(w, DispatchHook(hook, enqueued));
    if n < w.settlements && hook in w.hooks.pending {
      FiringIsNews(w.hooks, hook, enqueued, w.settlements, n);
    }
  }

  /** What one firing does to the news of settlement n. */
  lemma FiringIsNews(h: Hooks, hook: Hook, enqueued: bool, settlements: nat, n: nat)
    requires HooksSound(h, settlements) && hook in h.pending
    ensures var f := Fire(h, hook, enqueued);
            && ((exists p :: p in f.pending && p.settlement == n) <==>
                  (exists p :: p in h.pending && p.settlement == n) && n != hook.settlement)
            && ((exists i :: 0 <= i < |f.sent| && f.sent[i].settlement == n) <==>
                  || (exists i :: 0 <= i < |h.sent| && h.sent[i].settlement == n)
                  || (n == hook.settlement && hook.kind !in h.rows && enqueued))
            && (n == hook.settlement ==> !exists i :: 0 <= i < |h.sent| && h.sent[i].settlement == n)
  {
    var f := Fire(h, hook, enqueued);
    forall p | p in h.pending
      ensures p in f.pending <==> p.settlement != hook.settlement
    {
    }
    if exists i :: 0 <= i < |h.sent| && h.sent[i].settlement == n {
      var i :| 0 <= i < |h.sent| && h.sent[i].settlement == n;
      assert f.sent[i] == h.sent[i];
    }
    if n == hook.settlement && hook.kind !in h.rows && enqueued {
      assert f.sent[|h.sent|] == hook;
    }
  }

  /** A decision settles and fires in one step, or is refused and changes nothing. */
  lemma DecisionFires(w: World, e: Event, enqueued: bool)
    requires e == CancelChain(enqueued) || e == RejectStep(enqueued)
    ensures var v, hook := Step(w, e), Hook(CancelledHook, w.settlements);
            && (Decides(w, e) ==>
                  && v.settlements == w.settlements + 1
                  && v.hooks == Fire(w.hooks.(pending := w.hooks.pending + {hook}), hook, enqueued))
            && (!Decides(w, e) ==> v == w)
  {
    var hook := Hook(CancelledHook, w.settlements);
    assert w.hooks.pending + {hook} - {hook} == w.hooks.pending - {hook};
  }

  lemma DecisionLosesIff(w: World, e: Event, enqueued: bool, n: nat)
    requires Inv(w) && (n < w.settlements ==> Announced(w, n))
    requires e == CancelChain(enqueued) || e == RejectStep(enqueued)
    ensures n < Step(w, e).settlements ==> (Announced(Step(w, e), n) <==> !LosesHook(w, e, n))
  {
    hide StepSucceeded, QueuedOnce, Ordered, Placed, Laid, HooksSound, Fire, Step, Decides;
    DecisionFires(w, e, enqueued);
    if Decides(w, e) {
      var hook := Hook(CancelledHook, w.settlements);
      var h := w.hooks.(pending := w.hooks.pending + {hook});
      NewHookIsSound(w.hooks, CancelledHook, w.settlements);
      FiringIsNews(h, hook, enqueued, w.settlements + 1, n);
      if Held(w, n) {
        var p :| p in w.hooks.pending && p.settlement == n;
        assert p in h.pending;
      }
    }
  }

  /** Hooks are only added, by the settlement that is being made, or moved from held to sent. */
  lemma HooksMove(w: World, e: Event)
    ensures var v := Step(w, e);
            && w.settlements <= v.settlements
            && (forall p :: p in v.hooks.pending ==> p in w.hooks.pending || p.settlement == w.settlements)
            && w.hooks.sent <= v.hooks.sent
            && (forall i :: |w.hooks.sent| <= i < |v.hooks.sent| ==>
                              v.hooks.sent[i] in w.hooks.pending || v.hooks.sent[i].settlement == w.settlements)
  {
  }

  /** Over every run a dispatch row stands for a message that went out: a refusal leaves none behind. */
  lemma {:induction false} RowsStandForMessages(gates: seq<bool>, run: seq<Event>, kind: HookType)
    requires kind in Play(gates, run).hooks.rows
    ensures exists i :: 0 <= i < |Play(gates, run).hooks.sent| && Play(gates, run).hooks.sent[i].kind == kind
  {
    RowsHaveMessagesOver(gates, run);
  }

  lemma {:induction false} RowsHaveMessagesOver(gates: seq<bool>, run: seq<Event>)
    ensures RowsHaveMessages(Play(gates, run).hooks)
  {
    hide Step;
    if run != [] {
      RowsHaveMessagesOver(gates, run[..|run| - 1]);
      StepKeepsRowMessages(Play(gates, run[..|run| - 1]), run[|run| - 1]);
    }
  }

  lemma StepKeepsRowMessages(w: World, e: Event)
    requires RowsHaveMessages(w.hooks)
    ensures RowsHaveMessages(Step(w, e).hooks)
  {
    hide Fire;
    match e
    case DispatchHook(hook, enqueued) => FireKeepsRowMessages(w.hooks, hook, enqueued);
    case CancelChain(enqueued) => FireKeepsRowMessages(w.hooks, Hook(CancelledHook, w.settlements), enqueued);
    case RejectStep(enqueued) => FireKeepsRowMessages(w.hooks, Hook(CancelledHook, w.settlements), enqueued);
    case _ =>
  }

  /** A hook that was not there before is of the settlement just made, and names the status it ended in. */
  lemma NewHooksName(w: World, e: Event, hook: Hook)
    ensures var v := Step(w, e);
            (hook in v.hooks.pending || hook in v.hooks.sent) && hook !in w.hooks.pending && hook !in w.hooks.sent ==>
              && hook.settlement == w.settlements && v.settlements == w.settlements + 1
              && v.settled && Announces(hook.kind, v.status)
  {
  }

  /** The point of the run at which the chain stood settled as the hook says. */
  ghost predicate SettledAs(gates: seq<bool>, run: seq<Event>, k: nat, hook: Hook) {
    && k <= |run|
    && var w := Play(gates, run[..k]);
    w.settled && w.settlements == hook.settlement + 1 && Announces(hook.kind, w.status)
  }

  /**
   Over every run: a hook on its way or sent is of a settlement the chain did make, and is the
   success, failure or cancelled hook according to the status it settled with.
   */
  lemma {:induction false} HooksNameTheirSettlement(gates: seq<bool>, run: seq<Event>, hook: Hook)
    requires hook in Play(gates, run).hooks.pending || hook in Play(gates, run).hooks.sent
    ensures exists k :: SettledAs(gates, run, k, hook)
  {
    hide Step;
    assert run[..|run|] == run;
    if run == [] {
      NoHookYet(gates, hook);
    } else {
      var front, last := run[..|run| - 1], run[|run| - 1];
      var w := Play(gates, front);
      if hook in w.hooks.pending || hook in w.hooks.sent {
        HooksNameTheirSettlement(gates, front, hook);
        var k: nat :| SettledAs(gates, front, k, hook);
        assert front[..k] == run[..k];
        assert SettledAs(gates, run, k, hook);
      } else {
        NewHooksName(w, last, hook);
        assert SettledAs(gates, run, |run|, hook);
      }
    }
  }

  lemma NoHookYet(gates: seq<bool>, hook: Hook)
    ensures hook !in Created(gates).hooks.pending && hook !in Created(gates).hooks.sent
  {
  }

  /** Once lost, a hook stays lost. */
  lemma LostHookStaysLost(w: World, e: Event, n: nat)
    requires n < w.settlements && !Announced(w, n)
    ensures n < Step(w, e).settlements && !Announced(Step(w, e), n)
  {
    hide Step;
    var v := Step(w, e);
    HooksMove(w, e);
    forall i | 0 <= i < |v.hooks.sent|
      ensures v.hooks.sent[i].settlement != n
    {
      if i < |w.hooks.sent| {
        assert v.hooks.sent[..|w.hooks.sent|][i] == w.hooks.sent[i];
      }
    }
  }

  /** Some event of the run lost the hook of settlement n. */
  predicate LostOnTheWay(gates: seq<bool>, run: seq<Event>, n: nat) {
    exists k :: 0 <= k < |run| && LosesHook(Play(gates, run[..k]), run[k], n)
  }

  lemma LostOnTheWayNext(gates: seq<bool>, run: seq<Event>, n: nat)
    requires run != []
    ensures var front, last := run[..|run| - 1], run[|run| - 1];
            LostOnTheWay(gates, run, n) <==> LostOnTheWay(gates, front, n) || LosesHook(Play(gates, front), last, n)
  {
    hide Play, LosesHook;
    var front := run[..|run| - 1];
    forall k | 0 <= k < |front|
      ensures front[..k] == run[..k] && front[k] == run[k]
    {
    }
    if LostOnTheWay(gates, front, n) {
      var k :| 0 <= k < |front| && LosesHook(Play(gates, front[..k]), front[k], n);
      assert LosesHook(Play(gates, run[..k]), run[k], n);
    }
  }

  /** Only a settlement that exists, or is being made, has a hook to lose. */
  lemma LossIsOfASettlement(w: World, e: Event, n: nat)
    requires Inv(w) && LosesHook(w, e, n)
    ensures n < Step(w, e).settlements
  {
    hide StepSucceeded, QueuedOnce, Ordered, Placed, Laid;
  }

  /** Over whole runs: a settlement is unannounced exactly when some event lost its hook. */
  lemma {:induction false} HookIsLostOnTheWayIff(gates: seq<bool>, run: seq<Event>, n: nat)
    requires SanctionedRun(gates, run)
    ensures n < Play(gates, run).settlements && !Announced(Play(gates, run), n) <==> LostOnTheWay(gates, run, n)
  {
    hide Inv, Step, LosesHook, Announced, LostOnTheWay;
    if run == [] {
      NothingSettledYet(gates, n);
    } else {
      var front, last := run[..|run| - 1], run[|run| - 1];
      var w := Play(gates, front);
      HookIsLostOnTheWayIff(gates, front, n);
      RunKeeps(gates, front);
      LostOnTheWayNext(gates, run, n);
      HooksMove(w, last);
      if n < w.settlements && !Announced(w, n) {
        LostHookStaysLost(w, last, n);
      } else {
        HookIsLostIff(w, last, n);
        if LosesHook(w, last, n) {
          LossIsOfASettlement(w, last, n);
        }
      }
    }
  }

  lemma NothingSettledYet(gates: seq<bool>, n: nat)
    ensures !(n < Created(gates).settlements) && !LostOnTheWay(gates, [], n)
  {
  }

  // ---------------------------------------------------------------------------
  // A hook held across a resume
  // ---------------------------------------------------------------------------

  /** An unsettled chain has no dispatch row and no hook on its way; a hook on its way meets no row. */
  ghost predicate HooksClear(w: World) {
    && (!w.settled ==> w.hooks.rows == {} && w.hooks.pending == {})
    && (forall p :: p in w.hooks.pending ==> w.hooks.rows == {} && p.settlement + 1 == w.settlements)
  }

  /** A resume that deletes the dispatch rows while a hook of the settlement is still on its way. */
  predicate ResumesOverAHook(w: World, e: Event) {
    e.ResumeChain? && e.seen == Failed && w.status == Failed && w.hooks.pending != {}
  }

  /** The exact condition: a step leaves the hooks clear if and only if it is not that resume. */
  lemma HooksStayClearIff(w: World, e: Event)
    requires Inv(w) && Sanctioned(w, e) && HooksClear(w)
    ensures HooksClear(Step(w, e)) <==> !ResumesOverAHook(w, e)
  {
    hide StepSucceeded, QueuedOnce, Ordered;
    match e
    case DispatchHook(hook, enqueued) =>
      if hook in w.hooks.pending {
        forall p | p in w.hooks.pending
          ensures p == hook
        {
          assert p.settlement == hook.settlement;
        }
        assert Step(w, e).hooks.pending == {};
      }
    case _ =>
  }

  /** With the hooks clear, no dispatch row stands in the way: only a crash or a refusal loses one. */
  lemma ClearHooksAreLostBy(w: World, e: Event, n: nat)
    requires Inv(w) && HooksClear(w) && LosesHook(w, e, n)
    ensures e.Crash? || IsRefused(e)
  {
    hide StepSucceeded, QueuedOnce, Ordered, HooksSound;
  }

  /** Over whole runs: a hook is lost only by a crash, a refusal, or after a resume over a held hook. */
  lemma {:induction false} HooksAreLostBy(gates: seq<bool>, run: seq<Event>, n: nat)
    requires SanctionedRun(gates, run)
    requires n < Play(gates, run).settlements && !Announced(Play(gates, run), n)
    ensures exists k :: 0 <= k < |run| &&
                        (run[k].Crash? || IsRefused(run[k]) || ResumesOverAHook(Play(gates, run[..k]), run[k]))
  {
    hide Inv, Step, Announced, HooksClear, ResumesOverAHook, LosesHook, Play, Sanctioned;
    HookIsLostOnTheWayIff(gates, run, n);
    var k :| 0 <= k < |run| && LosesHook(Play(gates, run[..k]), run[k], n);
    SanctionedPrefix(gates, run, k);
    RunKeeps(gates, run[..k]);
    if HooksClear(Play(gates, run[..k])) {
      ClearHooksAreLostBy(Play(gates, run[..k]), run[k], n);
    } else {
      var j := UnclearSince(gates, run[..k]);
      assert run[..k][..j] == run[..j] && run[..k][j] == run[j];
    }
  }

  lemma {:induction false} SanctionedPrefix(gates: seq<bool>, run: seq<Event>, k: nat)
    requires SanctionedRun(gates, run) && k <= |run|
    ensures SanctionedRun(gates, run[..k])
  {
    hide Sanctioned, Play;
    if k == |run| {
      assert run[..k] == run;
    } else {
      SanctionedPrefix(gates, run[..|run| - 1], k);
      assert run[..|run| - 1][..k] == run[..k];
    }
  }

  /** The resume that first left the hooks unclear. */
  lemma {:induction false} UnclearSince(gates: seq<bool>, run: seq<Event>) returns (j: nat)
    requires SanctionedRun(gates, run) && !HooksClear(Play(gates, run))
    ensures j < |run| && ResumesOverAHook(Play(gates, run[..j]), run[j])
  {
    hide Inv, Step, HooksClear, ResumesOverAHook, Sanctioned;
    if run == [] {
      CreatedIsClear(gates);
      assert false;
    } else {
      var front, last := run[..|run| - 1], run[|run| - 1];
      RunKeeps(gates, front);
      if HooksClear(Play(gates, front)) {
        HooksStayClearIff(Play(gates, front), last);
        j := |run| - 1;
      } else {
        j := UnclearSince(gates, front);
        assert front[..j] == run[..j];
      }
    }
  }

  lemma CreatedIsClear(gates: seq<bool>)
    ensures HooksClear(Created(gates))
  {
  }

  /**
   Such a resume does lose one: the late failure hook claims the row, and the failure of the
   resumed generation is dropped as already dispatched. No process crashed, nothing was refused.
   */
  lemma LateHookSuppressesTheNext() returns (run: seq<Event>)
    ensures QuietRun([false], run)
    ensures forall k :: 0 <= k < |run| ==> !run[k].Crash? && !IsRefused(run[k])
    ensures var w := Play([false], run);
            w.settlements == 2 && w.hooks.sent == [Hook(FailureHook, 0)] && !Announced(w, 1)
  {
    hide Play, QuietRun, Inv, Cancel, Reject, Approve;
    var gates := [false];
    var w: World;
    run, w := FailedAgain();
    run, w := PlayStep(gates, run, w, DispatchHook(Hook(FailureHook, 1), true));
    QuietStep(gates, run);
  }

  /** The late hook has gone out, and the resumed generation fails as well. */
  lemma FailedAgain() returns (run: seq<Event>, w: World)
    ensures QuietRun([false], run) && w == Play([false], run)
    ensures forall k :: 0 <= k < |run| ==> !run[k].Crash? && !IsRefused(run[k])
    ensures w == World(Failed, true, 0, true, [StepRow(false, Some(1))], [TaskRow(0, 0, Lost), TaskRow(0, 1, Lost)],
                       Hooks({FailureHook}, [Hook(FailureHook, 0)], {Hook(FailureHook, 1)}), {}, 1, 2)
  {
    hide Play, QuietRun, Inv, Cancel, Reject, Approve;
    var gates := [false];
    run, w := DispatchedLate();
    run, w := PlayStep(gates, run, w, ReadBinding(1));
    QuietStep(gates, run);
    run, w := PlayStep(gates, run, w, HandleCompletion(1));
    QuietStep(gates, run);
  }

  lemma DispatchedLate() returns (run: seq<Event>, w: World)
    ensures QuietRun([false], run) && w == Play([false], run)
    ensures forall k :: 0 <= k < |run| ==> !run[k].Crash? && !IsRefused(run[k])
    ensures w == World(Running, true, 0, false, [StepRow(false, Some(1))], [TaskRow(0, 0, Lost), TaskRow(0, 1, Lost)],
                       Hooks({FailureHook}, [Hook(FailureHook, 0)], {}), {}, 1, 1)
  {
    hide Play, QuietRun, Inv, Cancel, Reject, Approve;
    var gates := [false];
    run, w := ResumedOverAHook();
    run, w := PlayStep(gates, run, w, DispatchHook(Hook(FailureHook, 0), true));
    QuietStep(gates, run);
    run, w := PlayStep(gates, run, w, FinishTask(1, false));
    QuietStep(gates, run);
  }

  /** A chain of one step, failed and resumed before its failure hook was dispatched. */
  lemma ResumedOverAHook() returns (run: seq<Event>, w: World)
    ensures QuietRun([false], run) && w == Play([false], run)
    ensures forall k :: 0 <= k < |run| ==> !run[k].Crash? && !IsRefused(run[k])
    ensures w == World(Running, true, 0, false, [StepRow(false, Some(1))], [TaskRow(0, 0, Lost), TaskRow(0, 1, Open)],
                       Hooks({}, [], {Hook(FailureHook, 0)}), {}, 1, 1)
  {
    hide Play, QuietRun, Inv, Cancel, Reject, Approve;
    var gates := [false];
    w := PlayNothing(gates);
    run := [];
    QuietNothing(gates);
    run, w := PlayStep(gates, run, w, StartChain(Pending));
    QuietStep(gates, run);
    run, w := PlayStep(gates, run, w, FinishTask(0, false));
    QuietStep(gates, run);
    run, w := PlayStep(gates, run, w, ReadBinding(0));
    QuietStep(gates, run);
    run, w := PlayStep(gates, run, w, HandleCompletion(0));
    QuietStep(gates, run);
    run, w := PlayStep(gates, run, w, ResumeChain(Failed));
    QuietStep(gates, run);
  }

  lemma QuietNothing(gates: seq<bool>)
    ensures QuietRun(gates, [])
  {
  }

  lemma QuietStep(gates: seq<bool>, run: seq<Event>)
    requires run != [] && QuietRun(gates, run[..|run| - 1])
    requires QuietEvent(Play(gates, run[..|run| - 1]), run[|run| - 1])
    ensures QuietRun(gates, run)
  {
  }
}
