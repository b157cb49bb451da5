/**
 The graph and node rows as the source updates them: conditional updates in place,
 a loop over the frontier, a worklist for a resume. Each transaction is proved to be
 the step that the invariants and whole-run theorems speak about.
 */
module GraphStore {
  import opened Common
  import opened Topology
  import opened GraphEngine
  import opened GraphInvariants
  import opened GraphRuns

  class GraphRow {
    const plan: Plan
    var status: GraphStatus
    var generation: nat
    var settledAt: Option<Time>
    var nodes: map<Key, Node>
    var tasks: seq<TaskRow>
    var log: seq<Recorded>
    var settlements: map<nat, Settlement>
    /** The attempts stamped by their publication, in whose transaction the stamp is set. */
    var committed: map<AttemptId, Time>

    ghost function State(): Graph
      reads this
    {
      Graph(status, generation, settledAt, nodes, tasks, log, settlements)
    }

    ghost predicate Valid()
      reads this
    {
      Rows(plan, State())
    }

    /** `Graph.start` after validation: write the rows, dispatch the roots, park if all are gated. */
    constructor Start(plan: Plan, now: Time)
      requires ValidPlan(plan)
      ensures this.plan == plan && Valid()
      ensures State() == GraphEngine.Start(plan, now) && committed == map[]
    {
      hide Layered, Distinct, Elements, DispatchFrontier, MaybeSettle;
      this.plan := plan;
      status, generation, settledAt := GraphRunning, 1, None;
      nodes := map k | k in plan.edges :: Node(Pending, 1, None, false, None);
      tasks, log, settlements, committed := [], [], map[], map[];
      new;
      DispatchFrontierLocked();
      var _ := MaybeSettleRow(now);
    }

    /** Pending, with every dependency among the succeeded and skipped. */
    method IsReadyRow(k: Key) returns (ready: bool)
      requires Valid() && k in plan.edges
      ensures ready <==> Ready(plan.edges, nodes, k)
    {
      hide Elements, Distinct;
      if nodes[k].status != Pending {
        return false;
      }
      var after := plan.edges[k];
      ready := true;
      for j := 0 to |after|
        invariant ready <==> forall l :: 0 <= l < j ==> Passed(nodes[after[l]].status)
      {
        ready := ready && Passed(nodes[after[j]].status);
      }
      assert ready <==> Met(plan.edges, nodes, k);
    }

    /** Pending nodes whose dependencies have passed, in the order the rows are read. */
    method ReadyRows() returns (ready: seq<Key>)
      requires Valid()
      ensures ready == ReadyNodes(plan.edges, nodes, plan.order)
      ensures Follows(ready, plan.order)
    {
      hide Follows, Ready, Layered;
      ReadyKeepsOrder(plan.edges, nodes, plan.order);
      ready := [];
      for i := 0 to |plan.order|
        invariant ready == ReadyNodes(plan.edges, nodes, plan.order[..i])
      {
        var k := plan.order[i];
        assert plan.order[..i + 1][..i] == plan.order[..i];
        assert k in Elements(plan.order);
        var isReady := IsReadyRow(k);
        if isReady {
          ready := ready + [k];
        }
      }
      assert plan.order[..|plan.order|] == plan.order;
    }

    /** Create a task for the node and bind it, if the node is still pending. */
    method DispatchNodeRow(k: Key)
      requires k in nodes && nodes[k].status == Pending
      modifies this`tasks, this`nodes
      ensures State() == DispatchNode(old(State()), k)
    {
      var task := |tasks|;
      tasks := tasks + [TaskRow(k, nodes[k].generation)];
      if nodes[k].status == Pending {
        nodes := nodes[k := nodes[k].(status := Running, task := Some(task))];
      }
    }

    /** A gate parks its own node and no other. */
    method ReleaseRow(k: Key)
      requires k in nodes && nodes[k].status == Pending
      modifies this`tasks, this`nodes
      ensures State() == Release(plan, old(State()), k)
    {
      if k in plan.gated {
        nodes := nodes[k := nodes[k].(status := Waiting)];
      } else {
        DispatchNodeRow(k);
      }
    }

    method DispatchFrontierLocked()
      requires Valid()
      modifies this`tasks, this`nodes
      ensures Valid() && State() == DispatchFrontier(plan, old(State()))
    {
      hide Released, Ready, Layered, Met, Distinct, ReadyNodes, Follows, Elements;
      if status != GraphRunning {
        return;
      }
      var ready := ReadyRows();
      ghost var before := State();
      ReadyNodesAre(plan.edges, nodes, plan.order);
      ReadyArePending(plan.edges, nodes, ready);
      for i := 0 to |ready|
        invariant nodes.Keys == before.nodes.Keys
        invariant State() == ReleaseAll(plan, before, ready[..i])
      {
        UnlistedIsUntouched(plan, before, ready, i);
        assert ready[..i + 1][..i] == ready[..i];
        ReleaseRow(ready[i]);
      }
      assert ready[..|ready|] == ready;
    }

    /** `get_or_create` of this generation's settlement. */
    method RecordSettlementRow()
      requires settledAt.Some?
      modifies this`settlements
      ensures State() == RecordSettlement(plan, old(State()))
    {
      if !plan.hooked {
        return;
      }
      if generation !in settlements {
        var statuses := map k | k in nodes :: nodes[k].status;
        settlements := settlements[generation := Settlement(Context(status, generation, statuses), settledAt.value)];
      }
    }

    method SettleRow(outcome: GraphStatus, now: Time) returns (settled: bool)
      modifies this`status, this`settledAt, this`settlements
      ensures State() == Settle(plan, old(State()), outcome, now)
      ensures settled <==> old(settledAt.None? && (status == GraphRunning || status == GraphWaiting))
    {
      if settledAt.Some? || !(status == GraphRunning || status == GraphWaiting) {
        return false;
      }
      status, settledAt := outcome, Some(now);
      RecordSettlementRow();
      return true;
    }

    method MaybeSettleRow(now: Time) returns (settled: bool)
      requires Valid()
      modifies this`status, this`settledAt, this`settlements
      ensures Valid() && State() == MaybeSettle(plan, old(State()), now)
      ensures settled <==> old(settledAt.None?) && settledAt.Some?
    {
      hide ReadyNodes, Layered, Distinct, RecordSettlement;
      settled := false;
      var statuses := set k | k in nodes :: nodes[k].status;
      StatusesAreShown(nodes, statuses);
      if Running in statuses || Pending in statuses {
        if Running in statuses {
          return;
        }
        var ready := ReadyRows();
        if |ready| > 0 {
          return;
        }
      }
      if Failed in statuses {
        settled := SettleRow(GraphFailed, now);
      } else if Cancelled in statuses {
        settled := SettleRow(GraphCancelled, now);
      } else if Waiting in statuses {
        if status == GraphRunning {
          status := GraphWaiting;
        }
      } else if statuses <= {Succeeded, Skipped} {
        settled := SettleRow(GraphSucceeded, now);
      }
    }

    /** Returns whether this call settled the graph, and so owes its hook a dispatch. */
    method HandleNodeCompletion(t: TaskId, taskStatus: TaskStatus, now: Time) returns (settled: bool)
      requires Valid()
      modifies this`status, this`generation, this`settledAt, this`nodes, this`tasks, this`log, this`settlements
      ensures Valid() && State() == Complete(plan, old(State()), t, taskStatus, now)
      ensures settled <==> old(settledAt.None?) && settledAt.Some?
    {
      var outcome := OutcomeOf(taskStatus);
      if t >= |tasks| || outcome.None? {
        return false;
      }
      var k := tasks[t].key;
      if k !in nodes || nodes[k].task != Some(t) {
        return false;
      }
      if nodes[k].settled {
        return false;
      }
      nodes := nodes[k := nodes[k].(status := outcome.value, settled := true)];
      log := log + [Recorded(k, nodes[k].generation, outcome.value)];
      if status != GraphRunning {
        return false;
      }
      DispatchFrontierLocked();
      settled := MaybeSettleRow(now);
    }

    method SkipRow(k: Key, now: Time) returns (r: Option<Refusal>, settled: bool)
      requires Valid()
      modifies this`status, this`generation, this`settledAt, this`nodes, this`tasks, this`log, this`settlements
      ensures Valid() && State() == Kept(old(State()), Skip(plan, old(State()), k, now))
      ensures r.None? <==> Skip(plan, old(State()), k, now).Ok?
      ensures r.Some? ==> Skip(plan, old(State()), k, now) == Err(r.value)
      ensures settled <==> old(settledAt.None?) && settledAt.Some?
    {
      if status != GraphRunning {
        return Some(NodesAreFinal), false;
      }
      if k !in nodes {
        return Some(NoSuchNode), false;
      }
      if nodes[k].status != Pending {
        return Some(NotPending), false;
      }
      nodes := nodes[k := nodes[k].(status := Skipped, settled := true)];
      DispatchFrontierLocked();
      settled := MaybeSettleRow(now);
      r := None;
    }

    method ApproveRow(k: Key) returns (r: Option<Refusal>)
      requires Valid()
      modifies this`status, this`generation, this`settledAt, this`nodes, this`tasks, this`log, this`settlements
      ensures Valid() && State() == Kept(old(State()), Approve(plan, old(State()), k))
      ensures r.None? <==> Approve(plan, old(State()), k).Ok?
      ensures r.Some? ==> Approve(plan, old(State()), k) == Err(r.value)
    {
      hide Layered, Distinct;
      if status != GraphRunning && status != GraphWaiting {
        return Some(NodesAreFinal);
      }
      if k !in nodes {
        return Some(NoSuchNode);
      }
      if nodes[k].status != Waiting {
        return Some(NotWaiting);
      }
      nodes := nodes[k := nodes[k].(status := Pending)];
      DispatchNodeRow(k);
      if status == GraphWaiting {
        status := GraphRunning;
      }
      return None;
    }

    method RejectRow(k: Key, now: Time) returns (r: Option<Refusal>, settled: bool)
      requires Valid()
      modifies this`status, this`generation, this`settledAt, this`nodes, this`tasks, this`log, this`settlements
      ensures Valid() && State() == Kept(old(State()), Reject(plan, old(State()), k, now))
      ensures r.None? <==> Reject(plan, old(State()), k, now).Ok?
      ensures r.Some? ==> Reject(plan, old(State()), k, now) == Err(r.value)
      ensures settled <==> old(settledAt.None?) && settledAt.Some?
    {
      if status != GraphRunning && status != GraphWaiting {
        return Some(NodesAreFinal), false;
      }
      if k !in nodes {
        return Some(NoSuchNode), false;
      }
      if nodes[k].status != Waiting {
        return Some(NotWaiting), false;
      }
      nodes := nodes[k := nodes[k].(status := Cancelled, settled := true)];
      if status == GraphWaiting {
        status := GraphRunning;
      }
      settled := MaybeSettleRow(now);
      r := None;
    }

    method CancelRow(now: Time) returns (r: Option<Refusal>)
      requires Valid()
      modifies this`status, this`generation, this`settledAt, this`nodes, this`tasks, this`log, this`settlements
      ensures Valid() && State() == Kept(old(State()), Cancel(plan, old(State()), now))
      ensures r.None? <==> Cancel(plan, old(State()), now).Ok?
    {
      var settled := SettleRow(GraphCancelled, now);
      return if settled then None else Some(AlreadySettled);
    }

    /** The receipt and the attempt's commit stamp together, or neither. */
    method PublishRow(t: TaskId, attempt: AttemptId, succeeds: bool, now: Time) returns (r: Option<Refusal>)
      requires Valid() && t < |tasks| && tasks[t].key in nodes
      modifies this`nodes, this`committed
      ensures committed == if r.None? then old(committed)[attempt := now] else old(committed)
      ensures Valid() && State() == Kept(old(State()), Publish(old(State()), t, attempt, succeeds))
      ensures r.None? <==> Publish(old(State()), t, attempt, succeeds).Ok?
    {
      var k := tasks[t].key;
      if nodes[k].task != Some(t) {
        return Some(NotBound);
      }
      if nodes[k].receipt.Some? {
        return Some(AlreadyPublished);
      }
      if !succeeds {
        return Some(LeftWithoutSucceeding);
      }
      nodes := nodes[k := nodes[k].(receipt := Some(attempt))];
      committed := committed[attempt := now];
      return None;
    }

    // -------------------------------------------------------------------------
    // Resume
    // -------------------------------------------------------------------------

    /** `dependents[dep].append(key)` for each dependency of one key. */
    static method AddMentions(before: map<Key, seq<Key>>, key: Key, after: seq<Key>)
      returns (dependents: map<Key, seq<Key>>)
      requires forall d :: d in after ==> d in before
      ensures dependents.Keys == before.Keys
      ensures forall d :: d in before ==> dependents[d] == before[d] + Mentions(key, after, d)
    {
      dependents := before;
      for j := 0 to |after|
        invariant dependents.Keys == before.Keys
        invariant forall d :: d in before ==> dependents[d] == before[d] + Mentions(key, after[..j], d)
      {
        assert after[..j + 1][..j] == after[..j];
        dependents := dependents[after[j] := dependents[after[j]] + [key]];
      }
      assert after[..|after|] == after;
    }

    /** For every key, the keys that list it as a dependency. */
    method DependentRows() returns (dependents: map<Key, seq<Key>>)
      requires Valid()
      ensures ListsDependents(plan, dependents)
    {
      hide ListsDependents, DependentsAmong, Mentions;
      dependents := map k | k in nodes :: [];
      ListingBegins(plan.edges);
      for i := 0 to |plan.order|
        invariant dependents.Keys == plan.edges.Keys
        invariant forall d :: d in dependents ==> dependents[d] == DependentsAmong(plan.edges, plan.order[..i], d)
      {
        ListingOneMore(plan, i);
        dependents := AddMentions(dependents, plan.order[i], plan.edges[plan.order[i]]);
      }
      assert plan.order[..|plan.order|] == plan.order;
      DependentsAreListed(plan, dependents);
    }

    /** The worklist visits exactly what is reachable, then drops what never ran. */
    method RerunClosure(named: Option<seq<Key>>) returns (r: Result<set<Key>, Refusal>)
      requires Valid()
      ensures r.Ok? ==> r.value == RerunSet(plan, State(), named)
      ensures r.Err? ==> r.error == NoSuchNode
      ensures r.Err? <==> named.Some? && exists k :: k in named.value && k !in nodes
    {
      var start: set<Key>;
      if named.None? {
        start := set k | k in nodes && nodes[k].status == Failed;
      } else {
        if exists k :: k in named.value && k !in nodes {
          return Err(NoSuchNode);
        }
        start := set k | k in named.value;
      }
      assert start == NamedNodes(State(), named);
      var dependents := DependentRows();
      var closure := Closure(start, dependents);
      r := Ok(set k | k in closure && nodes[k].status != Pending);
    }

    method Closure(start: set<Key>, dependents: map<Key, seq<Key>>) returns (closure: set<Key>)
      requires Valid() && start <= nodes.Keys && ListsDependents(plan, dependents)
      ensures closure == set k | k in nodes && Downstream(plan.edges, start, k)
    {
      hide ListsDependents, Downstream, Explored;
      var stack := Stack(start);
      closure := {};
      ExploringBegins(plan, dependents, start, stack);
      while |stack| > 0
        invariant Explored(plan, dependents, start, closure, stack)
        invariant closure <= plan.edges.Keys
        decreases plan.edges.Keys - closure, |stack|
      {
        var key := stack[|stack| - 1];
        ghost var was := stack;
        stack := stack[..|stack| - 1];
        ExploringKey(plan, dependents, start, closure, was);
        if key !in closure {
          ghost var unseen := plan.edges.Keys - closure;
          assert key in unseen;
          closure := closure + {key};
          stack := stack + dependents[key];
          assert plan.edges.Keys - closure < unseen;
        }
      }
      ExploringEnds(plan, dependents, start, closure);
    }

    method Stack(start: set<Key>) returns (stack: seq<Key>)
      ensures Elements(stack) == start
    {
      stack := [];
      var rest := start;
      while rest != {}
        invariant rest + Elements(stack) == start
        decreases rest
      {
        var k :| k in rest;
        ElementsAppend(stack, k);
        rest, stack := rest - {k}, stack + [k];
      }
    }

    /** The two updates that put the re-run nodes, and the graph, back to the beginning. */
    method ResetRows(rerun: set<Key>)
      modifies this`status, this`generation, this`settledAt, this`nodes, this`tasks, this`log, this`settlements
      ensures State() == Reset(old(State()), rerun)
    {
      nodes := map k | k in nodes ::
        if k in rerun then Node(Pending, nodes[k].generation + 1, None, false, None) else nodes[k];
      status, settledAt, generation := GraphRunning, None, generation + 1;
    }

    method ResumeRow(named: Option<seq<Key>>, now: Time) returns (r: Option<Refusal>)
      requires Valid()
      modifies this`status, this`generation, this`settledAt, this`nodes, this`tasks, this`log, this`settlements
      ensures Valid() && State() == Kept(old(State()), Resume(plan, old(State()), named, now))
      ensures r.None? <==> Resume(plan, old(State()), named, now).Ok?
      ensures r.Some? ==> Resume(plan, old(State()), named, now) == Err(r.value)
    {
      hide DispatchFrontier, MaybeSettle, RerunSet, Layered, RecordSettlement, Distinct;
      if status == GraphRunning || status == GraphWaiting {
        return Some(StillRunning);
      }
      if status == GraphCancelled {
        return Some(GraphWasCancelled);
      }
      if status == GraphSucceeded && (named.None? || |named.value| == 0) {
        return Some(NameTheNodes);
      }
      var closure := RerunClosure(named);
      if closure.Err? {
        return Some(closure.error);
      }
      var rerun := closure.value;
      if rerun == {} {
        return Some(NothingToRerun);
      }
      RecordSettlementRow();
      ResetRows(rerun);
      DispatchFrontierLocked();
      var _ := MaybeSettleRow(now);
      return None;
    }
  }

  ghost predicate Before(order: seq<Key>, k: Key, l: Key) {
    exists i, j :: 0 <= i < j < |order| && order[i] == k && order[j] == l
  }

  /** A sequence taken from another without changing its order. */
  ghost predicate Follows(ready: seq<Key>, order: seq<Key>) {
    forall a, b :: 0 <= a < b < |ready| ==> Before(order, ready[a], ready[b])
  }

  /** The ready nodes come in the order in which the rows are read. */
  lemma {:induction false} ReadyKeepsOrder(edges: Edges, nodes: map<Key, Node>, order: seq<Key>)
    ensures Follows(ReadyNodes(edges, nodes, order), order)
  {
    if order != [] {
      var front, last := order[..|order| - 1], order[|order| - 1];
      ReadyKeepsOrder(edges, nodes, front);
      ReadyNodesAre(edges, nodes, front);
      var before := ReadyNodes(edges, nodes, front);
      OneMoreFollows(before, front, last);
      assert front + [last] == order;
    }
  }

  lemma OneMoreFollows(before: seq<Key>, front: seq<Key>, last: Key)
    requires Follows(before, front) && forall k :: k in before ==> k in front
    ensures Follows(before + [last], front + [last]) && Follows(before, front + [last])
  {
    var order := front + [last];
    forall a, b | 0 <= a < b < |before|
      ensures Before(order, before[a], before[b])
    {
      assert Before(front, before[a], before[b]);
      var i, j :| 0 <= i < j < |front| && front[i] == before[a] && front[j] == before[b];
      assert order[i] == before[a] && order[j] == before[b];
    }
    forall a | 0 <= a < |before|
      ensures Before(order, before[a], last)
    {
      assert before[a] in before;
      var i :| 0 <= i < |front| && front[i] == before[a];
      assert order[i] == before[a] && order[|front|] == last;
    }
  }

  lemma StatusesAreShown(nodes: map<Key, Node>, statuses: set<NodeStatus>)
    requires statuses == set k | k in nodes :: nodes[k].status
    ensures forall s :: s in statuses <==> Has(nodes, s)
    ensures statuses <= {Succeeded, Skipped} <==> forall k :: k in nodes ==> Passed(nodes[k].status)
  {
    forall k | k in nodes
      ensures nodes[k].status in statuses
    {
    }
  }

  lemma ReadyArePending(edges: Edges, nodes: map<Key, Node>, ready: seq<Key>)
    requires forall k :: k in ready ==> Ready(edges, nodes, k)
    ensures forall i :: 0 <= i < |ready| ==> ready[i] in nodes && nodes[ready[i]].status == Pending
  {
    forall i | 0 <= i < |ready|
      ensures ready[i] in nodes && nodes[ready[i]].status == Pending
    {
      assert ready[i] in ready;
    }
  }

  /** Releasing the nodes before the i-th leaves the i-th as it was. */
  lemma UnlistedIsUntouched(plan: Plan, g: Graph, ready: seq<Key>, i: nat)
    requires Distinct(ready) && i < |ready| && forall k :: k in ready ==> k in g.nodes
    ensures ready[i] in g.nodes && ReleaseAll(plan, g, ready[..i]).nodes[ready[i]] == g.nodes[ready[i]]
  {
    ReleaseAllReleases(plan, g, ready[..i]);
    assert NodeReleased(plan, g, ReleaseAll(plan, g, ready[..i]), ready[..i], ready[i]);
  }

  // ---------------------------------------------------------------------------
  // The dependents and the worklist
  // ---------------------------------------------------------------------------

  /** One entry for each time the key's dependencies mention d. */
  ghost function Mentions(key: Key, after: seq<Key>, d: Key): seq<Key> {
    if after == [] then []
    else Mentions(key, after[..|after| - 1], d) + if after[|after| - 1] == d then [key] else []
  }

  ghost function DependentsAmong(edges: Edges, order: seq<Key>, d: Key): seq<Key> {
    if order == [] then []
    else
      var key := order[|order| - 1];
      DependentsAmong(edges, order[..|order| - 1], d) + Mentions(key, After(edges, key), d)
  }

  lemma ListingBegins(edges: Edges)
    ensures forall d :: DependentsAmong(edges, [], d) == []
  {
  }

  lemma ListingOneMore(plan: Plan, i: nat)
    requires ValidPlan(plan) && i < |plan.order|
    ensures plan.order[i] in plan.edges
    ensures forall d :: d in plan.edges[plan.order[i]] ==> d in plan.edges
    ensures var key := plan.order[i];
            forall d :: DependentsAmong(plan.edges, plan.order[..i + 1], d) ==
                        DependentsAmong(plan.edges, plan.order[..i], d) + Mentions(key, plan.edges[key], d)
  {
    assert plan.order[i] in Elements(plan.order);
    assert plan.order[..i + 1][..i] == plan.order[..i];
  }

  ghost predicate ListsDependents(plan: Plan, dependents: map<Key, seq<Key>>) {
    && dependents.Keys == plan.edges.Keys
    && forall d, k :: d in dependents ==> (k in dependents[d] <==> d in After(plan.edges, k))
  }

  lemma {:induction false} MentionsAre(key: Key, after: seq<Key>, d: Key, k: Key)
    ensures k in Mentions(key, after, d) <==> k == key && d in after
  {
    if after != [] {
      MentionsAre(key, after[..|after| - 1], d, k);
      assert after == after[..|after| - 1] + [after[|after| - 1]];
    }
  }

  lemma {:induction false} DependentsAmongAre(edges: Edges, order: seq<Key>, d: Key, k: Key)
    ensures k in DependentsAmong(edges, order, d) <==> k in order && d in After(edges, k)
  {
    if order != [] {
      var key := order[|order| - 1];
      DependentsAmongAre(edges, order[..|order| - 1], d, k);
      MentionsAre(key, After(edges, key), d, k);
      assert order == order[..|order| - 1] + [key];
    }
  }

  lemma DependentsAreListed(plan: Plan, dependents: map<Key, seq<Key>>)
    requires ValidPlan(plan) && dependents.Keys == plan.edges.Keys
    requires forall d :: d in dependents ==> dependents[d] == DependentsAmong(plan.edges, plan.order, d)
    ensures ListsDependents(plan, dependents)
  {
    forall d, k | d in dependents
      ensures k in dependents[d] <==> d in After(plan.edges, k)
    {
      DependentsAmongAre(plan.edges, plan.order, d, k);
      assert k in plan.order <==> k in Elements(plan.order);
    }
  }

  ghost predicate Downstream(edges: Edges, start: set<Key>, k: Key) {
    exists n :: n in start && Reaches(edges, n, k)
  }

  predicate Seen(closure: set<Key>, stack: seq<Key>, k: Key) {
    k in closure || k in stack
  }

  /** What has been seen is downstream of the start, and what it leads to is seen or stacked. */
  ghost predicate Explored(
    plan: Plan, dependents: map<Key, seq<Key>>, start: set<Key>, closure: set<Key>, stack: seq<Key>)
  {
    && (forall k :: k in start ==> Seen(closure, stack, k))
    && (forall k :: Seen(closure, stack, k) ==> k in plan.edges && Downstream(plan.edges, start, k))
    && (forall d, k :: d in closure && d in After(plan.edges, k) ==> Seen(closure, stack, k))
  }

  lemma ExploringBegins(plan: Plan, dependents: map<Key, seq<Key>>, start: set<Key>, stack: seq<Key>)
    requires start <= plan.edges.Keys && Elements(stack) == start
    ensures Explored(plan, dependents, start, {}, stack)
  {
    forall k
      ensures k in stack <==> k in start
      ensures k in start ==> Downstream(plan.edges, start, k)
    {
      ReachesSelf(plan.edges, k);
      assert k in stack <==> k in Elements(stack);
    }
  }

  /** Taking a key off the stack and pushing its dependents keeps the exploration going. */
  lemma ExploringKey(
    plan: Plan, dependents: map<Key, seq<Key>>, start: set<Key>, closure: set<Key>, stack: seq<Key>)
    requires ListsDependents(plan, dependents) && stack != [] && Explored(plan, dependents, start, closure, stack)
    ensures var key, rest := stack[|stack| - 1], stack[..|stack| - 1];
            && key in dependents && key in plan.edges
            && (key in closure ==> Explored(plan, dependents, start, closure, rest))
            && Explored(plan, dependents, start, closure + {key}, rest + dependents[key])
  {
    hide Downstream;
    var key, rest := stack[|stack| - 1], stack[..|stack| - 1];
    assert stack == rest + [key];
    assert Seen(closure, stack, key);
    DependentsAreDownstream(plan.edges, start, key, dependents[key]);
    SeenAfter(closure, rest, key, dependents[key]);
    forall k | k in dependents[key]
      ensures k in plan.edges
    {
      assert key in After(plan.edges, k);
    }
  }

  lemma SeenAfter(closure: set<Key>, rest: seq<Key>, key: Key, more: seq<Key>)
    ensures forall k :: Seen(closure + {key}, rest + more, k) <==> Seen(closure, rest + [key], k) || k in more
    ensures key in closure ==> forall k :: Seen(closure, rest, k) <==> Seen(closure, rest + [key], k)
  {
  }

  lemma ExploringEnds(plan: Plan, dependents: map<Key, seq<Key>>, start: set<Key>, closure: set<Key>)
    requires Explored(plan, dependents, start, closure, [])
    ensures closure == set k | k in plan.edges && Downstream(plan.edges, start, k)
  {
    hide Downstream, After;
    assert forall k :: Seen(closure, [], k) <==> k in closure;
    assert forall d, k :: d in closure && d in After(plan.edges, k) ==> k in closure;
    forall k | k in plan.edges && Downstream(plan.edges, start, k)
      ensures k in closure
    {
      DownstreamIsClosed(plan.edges, start, closure, k);
    }
  }

  lemma DownstreamIsClosed(edges: Edges, start: set<Key>, closure: set<Key>, k: Key)
    requires start <= closure && Downstream(edges, start, k)
    requires forall d, l :: d in closure && d in After(edges, l) ==> l in closure
    ensures k in closure
  {
    hide IsPath, After;
    var n :| n in start && Reaches(edges, n, k);
    var p :| PathBetween(edges, p, n, k);
    ClosedUnderDependents(edges, closure, p);
  }

  lemma DependentsAreDownstream(edges: Edges, start: set<Key>, key: Key, dependents: seq<Key>)
    requires Downstream(edges, start, key) && forall k :: k in dependents ==> key in After(edges, k)
    ensures forall k :: k in dependents ==> Downstream(edges, start, k)
  {
    var n :| n in start && Reaches(edges, n, key);
    forall k | k in dependents
      ensures Downstream(edges, start, k)
    {
      ReachesStep(edges, n, key, k);
    }
  }

  lemma {:induction false} ClosedUnderDependents(edges: Edges, closure: set<Key>, p: seq<Key>)
    requires IsPath(edges, p) && p[0] in closure
    requires forall d, k :: d in closure && d in After(edges, k) ==> k in closure
    ensures p[|p| - 1] in closure
    decreases |p|
  {
    if |p| > 1 {
      ClosedUnderDependents(edges, closure, p[..|p| - 1]);
      assert p[|p| - 2] in After(edges, p[|p| - 1]);
    }
  }

  /** The key of the stored depth: an accepted plan is a valid one. */
  lemma AcceptedPlanIsValid(specs: seq<NodeSpec>, depth: map<Key, nat>, order: seq<Key>, gated: set<Key>, hooked: bool)
    requires Acceptable(specs) && depth.Keys == EdgesOf(specs).Keys
    requires forall k :: k in depth ==> LongestWalk(EdgesOf(specs), k, depth[k])
    requires Distinct(order) && Elements(order) == EdgesOf(specs).Keys
    ensures ValidPlan(Plan(EdgesOf(specs), gated, depth, order, hooked))
  {
    var edges := EdgesOf(specs);
    forall k, d | k in edges && d in edges[k]
      ensures d in edges && depth[d] < depth[k]
    {
      DepthIncreases(edges, d, k, depth[d], depth[k]);
    }
  }

  /** Shallower first, and among equals in the order of declaration. */
  ghost predicate Precedes(specs: seq<NodeSpec>, depth: map<Key, nat>, k: Key, l: Key) {
    && k in depth && l in depth
    && (|| depth[k] < depth[l]
        || (depth[k] == depth[l] && exists i, j :: 0 <= i < j < |specs| && specs[i].key == k && specs[j].key == l))
  }

  /** The order in which the node rows are read: by depth, then by position. */
  method ReadingOrder(specs: seq<NodeSpec>, depth: map<Key, nat>) returns (order: seq<Key>)
    requires DistinctKeys(specs) && forall i :: 0 <= i < |specs| ==> specs[i].key in depth
    ensures Distinct(order) && forall k :: k in order <==> exists i :: 0 <= i < |specs| && specs[i].key == k
    ensures InReadingOrder(specs, depth, order)
  {
    hide Precedes;
    order := [];
    for i := 0 to |specs|
      invariant forall k :: k in order <==> exists j :: 0 <= j < i && specs[j].key == k
      invariant forall k :: k in order ==> k in depth
      invariant InReadingOrder(specs, depth, order)
    {
      var k, p := specs[i].key, |order|;
      while p > 0 && depth[order[p - 1]] > depth[k]
        invariant 0 <= p <= |order| && forall a :: p <= a < |order| ==> depth[order[a]] > depth[k]
      {
        p := p - 1;
      }
      NextGoesBehind(specs, depth, order, i, p);
      InsertionIsOrdered(specs, depth, order, k, p);
      order := order[..p] + [k] + order[p..];
    }
    forall a, b | 0 <= a < b < |order|
      ensures order[a] != order[b]
    {
      PrecedesIsStrict(specs, depth, order[a], order[b]);
    }
  }

  lemma PrecedesIsStrict(specs: seq<NodeSpec>, depth: map<Key, nat>, k: Key, l: Key)
    requires DistinctKeys(specs) && Precedes(specs, depth, k, l)
    ensures k != l
  {
  }

  ghost predicate InReadingOrder(specs: seq<NodeSpec>, depth: map<Key, nat>, order: seq<Key>) {
    forall a, b :: 0 <= a < b < |order| ==> Precedes(specs, depth, order[a], order[b])
  }

  /** Putting a key between what precedes it and what it precedes. */
  lemma InsertionIsOrdered(specs: seq<NodeSpec>, depth: map<Key, nat>, order: seq<Key>, key: Key, p: nat)
    requires p <= |order| && InReadingOrder(specs, depth, order)
    requires forall a :: 0 <= a < p ==> Precedes(specs, depth, order[a], key)
    requires forall b :: p <= b < |order| ==> Precedes(specs, depth, key, order[b])
    ensures InReadingOrder(specs, depth, order[..p] + [key] + order[p..])
    ensures forall k :: k in order[..p] + [key] + order[p..] <==> k in order || k == key
  {
    hide Precedes;
    var longer := order[..p] + [key] + order[p..];
    forall a | 0 <= a < |longer|
      ensures longer[a] == if a < p then order[a] else if a == p then key else order[a - 1]
    {
    }
    assert order == order[..p] + order[p..];
  }

  /** The next declaration goes behind everything no deeper than itself. */
  lemma NextGoesBehind(specs: seq<NodeSpec>, depth: map<Key, nat>, order: seq<Key>, i: nat, p: nat)
    requires i < |specs| && specs[i].key in depth && p <= |order| && InReadingOrder(specs, depth, order)
    requires forall k :: k in order ==> k in depth && exists j :: 0 <= j < i && specs[j].key == k
    requires forall a :: p <= a < |order| ==> order[a] in depth && depth[order[a]] > depth[specs[i].key]
    requires p > 0 ==> order[p - 1] in depth && depth[order[p - 1]] <= depth[specs[i].key]
    ensures forall a :: 0 <= a < p ==> Precedes(specs, depth, order[a], specs[i].key)
    ensures forall b :: p <= b < |order| ==> Precedes(specs, depth, specs[i].key, order[b])
  {
    forall a | 0 <= a < p
      ensures Precedes(specs, depth, order[a], specs[i].key)
    {
      assert order[a] in order;
      if a < p - 1 {
        assert Precedes(specs, depth, order[a], order[p - 1]);
      }
    }
  }

  /** `Graph.start`: refuse a bad plan, otherwise the started graph satisfies every invariant. */
  method StartGraph(specs: seq<NodeSpec>, hooked: bool, now: Time) returns (r: Result<GraphRow, PlanError>)
    ensures r.Ok? <==> Acceptable(specs)
    ensures r.Ok? ==> fresh(r.value) && r.value.Valid() && Inv(r.value.plan, r.value.State())
    ensures r.Ok? ==>
              var plan := r.value.plan;
              && plan.edges == EdgesOf(specs) && plan.hooked == hooked
              && (forall k :: k in plan.edges ==> k in plan.depth && LongestWalk(plan.edges, k, plan.depth[k]))
              && InReadingOrder(specs, plan.depth, plan.order)
              && (forall k :: k in plan.gated <==> exists i :: 0 <= i < |specs| && specs[i].key == k && specs[i].gated)
              && r.value.State() == GraphEngine.Start(plan, now)
    ensures r.Ok? ==> r.value.status == GraphRunning || r.value.status == GraphWaiting
  {
    hide Inv, LongestWalk, GraphEngine.Start;
    var validated := ValidatePlan(specs);
    if validated.Err? {
      return Err(validated.error);
    }
    EdgesOfKeys(specs);
    var order := ReadingOrder(specs, validated.value);
    var gated: set<Key> := {};
    for i := 0 to |specs|
      invariant forall k :: k in gated <==> exists j :: 0 <= j < i && specs[j].key == k && specs[j].gated
    {
      if specs[i].gated {
        gated := gated + {specs[i].key};
      }
    }
    assert Elements(order) == EdgesOf(specs).Keys;
    AcceptedPlanIsValid(specs, validated.value, order, gated, hooked);
    var plan := Plan(EdgesOf(specs), gated, validated.value, order, hooked);
    var row := new GraphRow.Start(plan, now);
    StartKeeps(plan, now);
    StartIsLive(plan, now);
    r := Ok(row);
  }

  /** Roots have nothing to wait for, so a started graph runs or is parked. */
  lemma StartIsLive(plan: Plan, now: Time)
    requires ValidPlan(plan) && plan.edges != map[]
    ensures Start(plan, now).status == GraphRunning || Start(plan, now).status == GraphWaiting
  {
    StartKeeps(plan, now);
    var g := Start(plan, now);
    var k :| k in plan.edges;
    var root := RootBelow(plan, k);
    StartedRoot(plan, now, root);
  }

  lemma RootBelow(plan: Plan, k: Key) returns (root: Key)
    requires ValidPlan(plan) && k in plan.edges
    ensures root in plan.edges && plan.edges[root] == []
    decreases plan.depth[k]
  {
    if plan.edges[k] == [] {
      root := k;
    } else {
      root := RootBelow(plan, plan.edges[k][0]);
    }
  }

  lemma StartedRoot(plan: Plan, now: Time, root: Key)
    requires ValidPlan(plan) && root in plan.edges && plan.edges[root] == []
    ensures Start(plan, now).status == GraphRunning || Start(plan, now).status == GraphWaiting
  {
    hide DispatchFrontier, MaybeSettle, ReadyNodes, Elements, Distinct, RowsSound, OncePerGeneration, Causal, Released, NothingReady;
    hide Layered, KeepsPassed, Passed;
    var g := Fresh(plan);
    FreshIsSound(plan);
    FrontierReleases(plan, g);
    var h, ready := DispatchFrontier(plan, g), ReadyNodes(plan.edges, g.nodes, plan.order);
    FrontierStatuses(plan, g, h, ready);
    FrontierKeepsBase(plan, g);
    SettlingShowsVerdict(plan, h, now);
    assert Ready(plan.edges, g.nodes, root);
    assert Has(h.nodes, h.nodes[root].status);
    assert forall k :: k in h.nodes ==> h.nodes[k].status != Failed && h.nodes[k].status != Cancelled;
  }
}
