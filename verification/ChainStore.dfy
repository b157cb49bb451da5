/**
 The chain and step rows as the source updates them: `run` writing the steps, the
 dispatcher's two halves, the settlement compare-and-swap and the operator's decisions.
 */
module ChainStore {
  import opened Common
  import opened Workflows
  import opened Chain

  class ChainRow {
    const gates: seq<bool>
    var status: Status
    var laid: bool
    var current: nat
    var settled: bool
    var steps: seq<StepRow>
    var tasks: seq<TaskRow>
    var hookRows: set<HookType>
    var sent: seq<Hook>
    var pending: set<Hook>
    var routing: set<TaskId>
    var generation: nat
    var settlements: nat

    /** Before `run` the steps are only the builder's list. */
    ghost function Steps(): seq<StepRow>
      reads this
    {
      if laid then steps else Created(gates).steps
    }

    ghost function State(): World
      reads this
    {
      World(status, laid, current, settled, Steps(), tasks, Hooks(hookRows, sent, pending), routing, generation, settlements)
    }

    /** The rows refer to each other: true of every chain, even one no invariant covers. */
    ghost predicate Valid()
      reads this
    {
      && (laid ==> |steps| == |gates| && current < |steps| && status != Pending)
      && (!laid ==> tasks == [] && current == 0 && (status == Pending || status == Cancelled))
      && (forall t :: 0 <= t < |tasks| ==> tasks[t].step < |steps|)
      && (forall t :: t in routing ==> t < |tasks| && tasks[t].outcome != Open)
    }

    constructor (gates: seq<bool>)
      ensures this.gates == gates && State() == Created(gates) && Valid() && Inv(State())
    {
      this.gates := gates;
      status, laid, current, settled, steps, tasks := Pending, false, 0, false, [], [];
      hookRows, sent, pending, routing, generation, settlements := {}, [], {}, {}, 0, 0;
      new;
      CreatedIsSound(gates);
    }

    /** `_queue_chain_step`. */
    method QueueChainStep(i: nat)
      requires i < |steps| && laid
      modifies this`tasks, this`steps
      ensures State() == QueueStep(old(State()), i)
    {
      var task := |tasks|;
      tasks := tasks + [TaskRow(i, generation, Open)];
      steps := steps[i := steps[i].(task := Some(task))];
    }

    /**
     Write the step rows, then run or park the first. An empty chain or a used handle is
     refused, and so is one whose rows exist: their uniqueness rolls everything back.
     */
    method Run(seen: Status) returns (ok: bool)
      requires Valid()
      modifies this
      ensures Valid() && State() == Start(old(State()), seen)
      ensures ok <==> |gates| > 0 && seen == Pending && !old(laid)
      ensures old(Inv(State()) && Sanctioned(State(), StartChain(seen))) ==> Inv(State())
    {
      hide Inv;
      if Inv(State()) && Sanctioned(State(), StartChain(seen)) {
        StartKeepsIff(State(), seen);
      }
      ghost var before := State();
      if |gates| == 0 || seen != Pending {
        return false;
      }
      if laid {
        return false;
      }
      var rows: seq<StepRow> := [];
      for i := 0 to |gates|
        invariant |rows| == i && forall j :: 0 <= j < i ==> rows[j] == StepRow(gates[j], None)
      {
        rows := rows + [StepRow(gates[i], None)];
      }
      assert rows == before.steps;
      steps, status, laid := rows, Running, true;
      if steps[0].gated {
        status := WaitingApproval;
      } else {
        QueueChainStep(0);
      }
      return true;
    }

    /** Terminal once: the update matches an unsettled, non-terminal row or nothing. */
    method SettleWorkflow(outcome: Status, kind: HookType) returns (updated: bool)
      requires outcome == Succeeded || outcome == Failed
      modifies this`status, this`settled, this`settlements, this`pending
      ensures State() == Settle(old(State()), outcome, kind)
      ensures updated <==> old(!settled && !IsTerminal(status))
    {
      if settled || IsTerminal(status) {
        return false;
      }
      status, settled := outcome, true;
      pending, settlements := pending + {Hook(kind, settlements)}, settlements + 1;
      return true;
    }

    /** `route_workflow_completion`: the binding re-read, and nothing held while it is. */
    method ReadBindingRow(t: TaskId) returns (bound: bool)
      requires Valid() && t < |tasks| && tasks[t].outcome != Open
      modifies this`routing
      ensures Valid() && State() == BeginRoute(old(State()), t)
      ensures bound <==> Bound(old(State()), t)
      ensures old(Inv(State())) ==> Inv(State())
    {
      hide Inv;
      if Inv(State()) {
        BeginRouteKeeps(State(), t);
      }
      bound := steps[tasks[t].step].task == Some(t);
      if bound {
        routing := routing + {t};
      }
    }

    /** The locked half of `_handle_step_success`. */
    method HandleStepSuccess(t: TaskId)
      requires Valid() && t < |tasks| && tasks[t].outcome == Won
      modifies this
      ensures Valid() && State() == HandleStep(old(State()), t)
    {
      var i := tasks[t].step;
      if status == Cancelled {
        return;
      }
      if current != i {
        return;
      }
      if i + 1 >= |steps| {
        var _ := SettleWorkflow(Succeeded, SuccessHook);
      } else if steps[i + 1].gated {
        if !CanBecome(status, WaitingApproval) {
          return;
        }
        current := i + 1;
        status := WaitingApproval;
      } else {
        current := i + 1;
        QueueChainStep(i + 1);
      }
    }

    /** `_complete_chain(success=False)`. */
    method HandleStepFailure(t: TaskId)
      requires Valid() && t < |tasks| && tasks[t].outcome == Lost
      modifies this
      ensures Valid() && State() == HandleStep(old(State()), t)
    {
      if status == Cancelled {
        return;
      }
      var _ := SettleWorkflow(Failed, FailureHook);
    }

    method HandleCompletionRow(t: TaskId)
      requires Valid() && t in routing
      modifies this
      ensures Valid() && State() == EndRoute(old(State()), t)
      ensures old(Inv(State())) ==> Inv(State())
    {
      hide Inv;
      if Inv(State()) {
        EndRouteKeeps(State(), t);
      }
      var outcome := tasks[t].outcome;
      routing := routing - {t};
      if outcome == Won {
        HandleStepSuccess(t);
      } else {
        HandleStepFailure(t);
      }
    }

    /** Claim the row and queue the hook; a kind already claimed is skipped, a refusal gives the row back. */
    method DispatchHookRow(hook: Hook, enqueued: bool)
      modifies this`pending, this`hookRows, this`sent
      ensures Hooks(hookRows, sent, pending) == Fire(old(Hooks(hookRows, sent, pending)), hook, enqueued)
    {
      pending := pending - {hook};
      if hook.kind in hookRows {
        return;
      }
      var savepoint := hookRows;
      hookRows := hookRows + {hook.kind};
      if !enqueued {
        hookRows := savepoint;
        return;
      }
      sent := sent + [hook];
    }

    /** One conditional update decides; the hook shares its transaction. */
    method CancelRow(enqueued: bool) returns (updated: bool)
      requires Valid()
      modifies this
      ensures Valid() && State() == Cancel(old(State()), enqueued)
      ensures updated <==> old(!settled && !IsTerminal(status))
      ensures updated ==> status == Cancelled
      ensures old(Inv(State())) ==> Inv(State())
    {
      hide Inv;
      if Inv(State()) {
        DecisionKeeps(State(), enqueued);
      }
      ghost var before := State();
      if settled || !(status == Pending || status == Running || status == WaitingApproval) {
        return false;
      }
      status, settled := Cancelled, true;
      DispatchHookRow(Hook(CancelledHook, settlements), enqueued);
      settlements := settlements + 1;
      return true;
    }

    /** Whatever the transition table lets become CANCELLED; no parked step is asked for. */
    method RejectRow(enqueued: bool) returns (ok: bool)
      requires Valid()
      modifies this
      ensures Valid() && State() == Reject(old(State()), enqueued)
      ensures ok <==> old(!IsTerminal(status))
      ensures old(Inv(State())) ==> Inv(State())
    {
      hide Inv;
      if Inv(State()) {
        DecisionKeeps(State(), enqueued);
      }
      if !CanBecome(status, Cancelled) {
        return false;
      }
      status, settled := Cancelled, true;
      DispatchHookRow(Hook(CancelledHook, settlements), enqueued);
      settlements := settlements + 1;
      return true;
    }

    method ApproveRow() returns (ok: bool)
      requires Valid()
      modifies this
      ensures Valid() && State() == Approve(old(State()))
      ensures ok <==> old(status) == WaitingApproval || old(status) == Failed
      ensures old(Inv(State()) && Sanctioned(State(), ApproveStep)) ==> Inv(State())
    {
      hide Inv;
      if Inv(State()) && Sanctioned(State(), ApproveStep) {
        ApproveKeepsIff(State());
      }
      if !CanBecome(status, Running) {
        return false;
      }
      if !laid {
        return false;
      }
      status := Running;
      QueueChainStep(current);
      return true;
    }

    /** Unbind the step's task, if it has one, and queue another. */
    method RequeueStep(i: nat)
      requires i < |steps| && laid
      modifies this`tasks, this`steps
      ensures State() == QueueStep(old(State()), i)
    {
      if steps[i].task.Some? {
        steps := steps[i := steps[i].(task := None)];
      }
      assert steps == old(steps)[i := StepRow(old(steps)[i].gated, None)];
      QueueChainStep(i);
    }

    method ResumeRow(seen: Status) returns (ok: bool)
      requires Valid()
      modifies this
      ensures Valid() && State() == Resume(old(State()), seen)
      ensures ok <==> seen == Failed && (old(status) == Failed || old(status) == WaitingApproval)
      ensures old(Inv(State())) ==> Inv(State())
    {
      hide Inv;
      if Inv(State()) {
        ResumeKeeps(State(), seen);
      }
      if seen != Failed {
        return false;
      }
      if !CanBecome(status, Running) {
        return false;
      }
      if !laid {
        return false;
      }
      status, settled := Running, false;
      hookRows := {};
      generation := generation + 1;
      RequeueStep(current);
      return true;
    }
  }
}
