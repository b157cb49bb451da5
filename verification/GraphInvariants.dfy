/**
 What every operation on a graph keeps, and so what holds in every reachable state:
 causality, one task and one outcome per node generation, and a graph status that is
 the verdict on its nodes. No lemma here bounds the plan, the run or the outcomes.
 */
module GraphInvariants {
  import opened Common
  import opened Topology
  import opened GraphEngine

  /** The status a graph must have, read off its nodes. */
  function Verdict(nodes: map<Key, Node>): GraphStatus {
    if Has(nodes, Running) then GraphRunning
    else if Has(nodes, Failed) then GraphFailed
    else if Has(nodes, Cancelled) then GraphCancelled
    else if Has(nodes, Waiting) then GraphWaiting
    else GraphSucceeded
  }

  /** What has started, parked or finished only did so after its dependencies passed. */
  ghost predicate Causal(edges: Edges, nodes: map<Key, Node>) {
    forall k :: k in nodes && nodes[k].status != Pending && nodes[k].status != Skipped ==> Met(edges, nodes, k)
  }

  predicate IsSettled(status: NodeStatus) {
    status == Succeeded || status == Failed || status == Cancelled || status == Skipped
  }

  predicate IsBound(status: NodeStatus) {
    status == Running || status == Succeeded || status == Failed
  }

  ghost predicate NodeSound(nodes: map<Key, Node>, tasks: seq<TaskRow>, k: Key)
    requires k in nodes
  {
    var n := nodes[k];
    && (n.settled <==> IsSettled(n.status))
    && (n.task.Some? <==> IsBound(n.status))
    && (n.task.Some? ==> n.task.value < |tasks| && tasks[n.task.value] == TaskRow(k, n.generation))
    && (n.receipt.Some? ==> n.task.Some?)
  }

  /** A task belongs to a past generation of its node or is the one now bound. */
  ghost predicate TaskSound(nodes: map<Key, Node>, tasks: seq<TaskRow>, t: TaskId)
    requires t < |tasks|
  {
    var row := tasks[t];
    && row.key in nodes
    && row.generation <= nodes[row.key].generation
    && (row.generation == nodes[row.key].generation ==> nodes[row.key].task == Some(t))
  }

  /** An outcome belongs to a past generation or is the one the node shows. */
  ghost predicate LogSound(nodes: map<Key, Node>, r: Recorded) {
    && r.key in nodes
    && r.generation <= nodes[r.key].generation
    && (r.generation == nodes[r.key].generation ==>
          nodes[r.key].settled && nodes[r.key].status == r.outcome)
  }

  ghost predicate RowsSound(nodes: map<Key, Node>, tasks: seq<TaskRow>, log: seq<Recorded>) {
    && (forall k :: k in nodes ==> NodeSound(nodes, tasks, k))
    && (forall t :: 0 <= t < |tasks| ==> TaskSound(nodes, tasks, t))
    && (forall i :: 0 <= i < |log| ==> LogSound(nodes, log[i]))
  }

  /** Each generation of a node has at most one task and at most one recorded outcome. */
  ghost predicate OncePerGeneration(tasks: seq<TaskRow>, log: seq<Recorded>) {
    && (forall t, u :: 0 <= t < u < |tasks| ==> tasks[t] != tasks[u])
    && (forall i, j :: 0 <= i < j < |log| ==> log[i].key != log[j].key || log[i].generation != log[j].generation)
  }

  ghost predicate Base(plan: Plan, g: Graph) {
    && Rows(plan, g)
    && Causal(plan.edges, g.nodes)
    && RowsSound(g.nodes, g.tasks, g.log)
    && OncePerGeneration(g.tasks, g.log)
  }

  lemma NodeIsSound(nodes: map<Key, Node>, tasks: seq<TaskRow>, log: seq<Recorded>, k: Key)
    requires RowsSound(nodes, tasks, log) && k in nodes
    ensures NodeSound(nodes, tasks, k)
  {
  }

  lemma TaskIsSound(nodes: map<Key, Node>, tasks: seq<TaskRow>, log: seq<Recorded>, t: TaskId)
    requires RowsSound(nodes, tasks, log) && t < |tasks|
    ensures TaskSound(nodes, tasks, t)
  {
  }

  lemma LogIsSound(nodes: map<Key, Node>, tasks: seq<TaskRow>, log: seq<Recorded>, i: nat)
    requires RowsSound(nodes, tasks, log) && i < |log|
    ensures LogSound(nodes, log[i])
  {
  }

  lemma CausalNode(plan: Plan, g: Graph, k: Key)
    requires Base(plan, g) && k in g.nodes && g.nodes[k].status != Pending && g.nodes[k].status != Skipped
    ensures Met(plan.edges, g.nodes, k)
  {
  }

  /** Nothing that could be dispatched is left waiting. */
  ghost predicate NothingReady(plan: Plan, nodes: map<Key, Node>) {
    forall k :: k in nodes ==> !Ready(plan.edges, nodes, k)
  }

  /** A cancelled graph keeps its status; any other shows the verdict on its nodes. */
  ghost predicate Decided(plan: Plan, g: Graph) {
    g.status == GraphCancelled || (g.status == Verdict(g.nodes) && NothingReady(plan, g.nodes))
  }

  /** A hooked generation has its settlement row exactly from the moment it settles. */
  ghost predicate Outboxed(plan: Plan, g: Graph) {
    if plan.hooked
    then
      && g.generation >= 1
      && (forall n :: n in g.settlements <==> 1 <= n <= g.generation && (n == g.generation ==> g.settledAt.Some?))
      && (forall n :: n in g.settlements ==>
                        g.settlements[n].context.generation == n && Terminal(g.settlements[n].context.outcome))
      && (g.settledAt.Some? ==> g.settlements[g.generation].context.outcome == g.status)
    else g.settlements == map[]
  }

  ghost predicate Inv(plan: Plan, g: Graph) {
    Base(plan, g) && Decided(plan, g) && Outboxed(plan, g)
  }

  // ---------------------------------------------------------------------------
  // Dispatching the frontier
  // ---------------------------------------------------------------------------

  /** An unlisted node is untouched, a gated one parks, any other gets a fresh task. */
  ghost predicate NodeReleased(plan: Plan, g: Graph, h: Graph, ready: seq<Key>, k: Key)
    requires k in g.nodes && k in h.nodes
  {
    if k !in ready then h.nodes[k] == g.nodes[k]
    else if k in plan.gated then h.nodes[k] == g.nodes[k].(status := Waiting)
    else
      && h.nodes[k].task.Some?
      && h.nodes[k] == g.nodes[k].(status := Running, task := h.nodes[k].task)
      && |g.tasks| <= h.nodes[k].task.value < |h.tasks|
      && h.tasks[h.nodes[k].task.value] == TaskRow(k, g.nodes[k].generation)
  }

  /** A new task is bound to a released node, in that node's generation. */
  ghost predicate TaskReleased(plan: Plan, g: Graph, h: Graph, ready: seq<Key>, t: TaskId)
    requires t < |h.tasks|
  {
    var k := h.tasks[t].key;
    && k in g.nodes && k in h.nodes && k in ready && k !in plan.gated
    && h.nodes[k].task == Some(t)
    && h.tasks[t].generation == g.nodes[k].generation
  }

  ghost predicate Released(plan: Plan, g: Graph, h: Graph, ready: seq<Key>) {
    && h == g.(nodes := h.nodes, tasks := h.tasks)
    && h.nodes.Keys == g.nodes.Keys
    && g.tasks <= h.tasks
    && (forall k :: k in g.nodes ==> NodeReleased(plan, g, h, ready, k))
    && (forall t :: |g.tasks| <= t < |h.tasks| ==> TaskReleased(plan, g, h, ready, t))
  }

  lemma ReleaseOneMore(plan: Plan, g: Graph, h: Graph, ready: seq<Key>, k: Key)
    requires Released(plan, g, h, ready) && k in g.nodes && k !in ready
    ensures Released(plan, g, Release(plan, h, k), ready + [k])
  {
    var r := Release(plan, h, k);
    assert NodeReleased(plan, g, h, ready, k);
    forall j | j in g.nodes
      ensures NodeReleased(plan, g, r, ready + [k], j)
    {
      assert NodeReleased(plan, g, h, ready, j);
    }
    forall t | |g.tasks| <= t < |r.tasks|
      ensures TaskReleased(plan, g, r, ready + [k], t)
    {
      if t < |h.tasks| {
        assert TaskReleased(plan, g, h, ready, t);
      }
    }
  }

  lemma {:induction false} ReleaseAllReleases(plan: Plan, g: Graph, ready: seq<Key>)
    requires Distinct(ready) && forall k :: k in ready ==> k in g.nodes
    ensures Released(plan, g, ReleaseAll(plan, g, ready), ready)
  {
    if ready != [] {
      var front, last := ready[..|ready| - 1], ready[|ready| - 1];
      ReleaseAllReleases(plan, g, front);
      ReleaseOneMore(plan, g, ReleaseAll(plan, g, front), front, last);
      assert ready == front + [last];
    }
  }

  lemma FrontierReleases(plan: Plan, g: Graph)
    requires ValidPlan(plan) && g.nodes.Keys == plan.edges.Keys && g.status == GraphRunning
    ensures var ready := ReadyNodes(plan.edges, g.nodes, plan.order);
            && Released(plan, g, DispatchFrontier(plan, g), ready)
            && forall k :: k in ready <==> Ready(plan.edges, g.nodes, k)
  {
    ReadyNodesAre(plan.edges, g.nodes, plan.order);
    ReleaseAllReleases(plan, g, ReadyNodes(plan.edges, g.nodes, plan.order));
  }

  ghost predicate Touched(a: Node, b: Node, bar: nat) {
    || b == a
    || (a.status == Pending && b == a.(status := Waiting))
    || (a.status == Pending && b == a.(status := Running, task := b.task) && b.task.Some? && b.task.value >= bar)
  }

  /** The frontier as seen from one node, and from the rest of the graph. */
  lemma FrontierTouches(plan: Plan, g: Graph, k: Key)
    requires Rows(plan, g) && g.status == GraphRunning && k in g.nodes
    ensures var h := DispatchFrontier(plan, g);
            && h == g.(nodes := h.nodes, tasks := h.tasks)
            && g.tasks <= h.tasks
            && Touched(g.nodes[k], h.nodes[k], |g.tasks|)
            && (!Ready(plan.edges, g.nodes, k) ==> h.nodes[k] == g.nodes[k])
  {
    hide DispatchFrontier, TaskReleased, Met;
    FrontierReleases(plan, g);
    var ready := ReadyNodes(plan.edges, g.nodes, plan.order);
    assert NodeReleased(plan, g, DispatchFrontier(plan, g), ready, k);
  }

  /** Nothing that had passed stops having passed. */
  ghost predicate KeepsPassed(before: map<Key, Node>, after: map<Key, Node>) {
    forall k :: k in before && Passed(before[k].status) ==> k in after && Passed(after[k].status)
  }

  lemma CausalIsKept(edges: Edges, before: map<Key, Node>, after: map<Key, Node>)
    requires Causal(edges, before) && KeepsPassed(before, after)
    requires forall k :: k in after && after[k].status != Pending && after[k].status != Skipped ==>
                           k in before && (before[k].status == after[k].status || Met(edges, before, k))
    ensures Causal(edges, after)
  {
    forall k | k in after && after[k].status != Pending && after[k].status != Skipped
      ensures Met(edges, after, k)
    {
      assert Met(edges, before, k);
    }
  }

  /** Without a new pass, nothing becomes ready. */
  lemma NothingBecomesReady(plan: Plan, before: map<Key, Node>, after: map<Key, Node>)
    requires NothingReady(plan, before) && after.Keys == before.Keys
    requires forall k :: k in after && Passed(after[k].status) ==> Passed(before[k].status)
    requires forall k :: k in after && after[k].status == Pending ==> before[k].status == Pending
    ensures NothingReady(plan, after)
  {
    forall k | k in after
      ensures !Ready(plan.edges, after, k)
    {
      assert !Ready(plan.edges, before, k);
    }
  }

  lemma FrontierKeepsRows(plan: Plan, g: Graph, h: Graph, ready: seq<Key>)
    requires RowsSound(g.nodes, g.tasks, g.log) && Released(plan, g, h, ready)
    requires forall k :: k in ready ==> k in g.nodes && g.nodes[k].status == Pending
    ensures RowsSound(h.nodes, h.tasks, h.log)
  {
    forall k | k in h.nodes
      ensures NodeSound(h.nodes, h.tasks, k)
    {
      assert NodeSound(g.nodes, g.tasks, k) && NodeReleased(plan, g, h, ready, k);
    }
    forall t | 0 <= t < |h.tasks|
      ensures TaskSound(h.nodes, h.tasks, t)
    {
      if t < |g.tasks| {
        assert h.tasks[t] == g.tasks[t] && TaskSound(g.nodes, g.tasks, t);
        assert NodeSound(g.nodes, g.tasks, g.tasks[t].key) && NodeReleased(plan, g, h, ready, g.tasks[t].key);
      } else {
        assert TaskReleased(plan, g, h, ready, t);
        assert NodeReleased(plan, g, h, ready, h.tasks[t].key);
      }
    }
    forall i | 0 <= i < |h.log|
      ensures LogSound(h.nodes, h.log[i])
    {
      assert LogSound(g.nodes, g.log[i]) && NodeSound(g.nodes, g.tasks, g.log[i].key) && NodeReleased(plan, g, h, ready, g.log[i].key);
    }
  }

  lemma TasksStayDistinct(plan: Plan, g: Graph, h: Graph, ready: seq<Key>)
    requires RowsSound(g.nodes, g.tasks, g.log) && OncePerGeneration(g.tasks, g.log) && Released(plan, g, h, ready)
    requires forall k :: k in ready ==> k in g.nodes && g.nodes[k].status == Pending
    ensures OncePerGeneration(h.tasks, h.log)
  {
    forall t, u | 0 <= t < u < |h.tasks|
      ensures h.tasks[t] != h.tasks[u]
    {
      if t >= |g.tasks| {
        assert TaskReleased(plan, g, h, ready, t) && TaskReleased(plan, g, h, ready, u);
      } else {
        assert h.tasks[t] == g.tasks[t] && TaskSound(g.nodes, g.tasks, t);
        if u < |g.tasks| {
          assert h.tasks[u] == g.tasks[u];
        } else {
          assert TaskReleased(plan, g, h, ready, u) && NodeSound(g.nodes, g.tasks, h.tasks[u].key);
        }
      }
    }
  }

  /** Releasing takes nodes out of PENDING and lets nobody pass. */
  lemma FrontierStatuses(plan: Plan, g: Graph, h: Graph, ready: seq<Key>)
    requires Released(plan, g, h, ready)
    requires forall k :: k in ready ==> k in g.nodes && g.nodes[k].status == Pending
    ensures forall k :: k in g.nodes && k !in ready ==> h.nodes[k] == g.nodes[k]
    ensures forall k :: k in ready ==> h.nodes[k].status == (if k in plan.gated then Waiting else Running)
    ensures KeepsPassed(g.nodes, h.nodes)
    ensures forall k :: k in h.nodes && Passed(h.nodes[k].status) ==> Passed(g.nodes[k].status)
  {
    forall k | k in g.nodes
      ensures k !in ready ==> h.nodes[k] == g.nodes[k]
      ensures k in ready ==> h.nodes[k].status == (if k in plan.gated then Waiting else Running)
    {
      assert NodeReleased(plan, g, h, ready, k);
    }
  }

  lemma FrontierKeepsBase(plan: Plan, g: Graph)
    requires Base(plan, g) && g.status == GraphRunning
    ensures Base(plan, DispatchFrontier(plan, g))
    ensures NothingReady(plan, DispatchFrontier(plan, g).nodes)
  {
    hide RowsSound, OncePerGeneration, DispatchFrontier, Layered, Released;
    FrontierReleases(plan, g);
    var h, ready := DispatchFrontier(plan, g), ReadyNodes(plan.edges, g.nodes, plan.order);
    FrontierStatuses(plan, g, h, ready);
    FrontierKeepsRows(plan, g, h, ready);
    TasksStayDistinct(plan, g, h, ready);
    CausalIsKept(plan.edges, g.nodes, h.nodes);
    forall k | k in h.nodes
      ensures !Ready(plan.edges, h.nodes, k)
    {
      assert Ready(plan.edges, h.nodes, k) ==> Ready(plan.edges, g.nodes, k);
    }
  }

  // ---------------------------------------------------------------------------
  // Settling
  // ---------------------------------------------------------------------------

  /** Layering rules out a graph whose every pending node waits on another pending one. */
  lemma PendingIsBlocked(plan: Plan, g: Graph, k: Key)
    requires Rows(plan, g) && NothingReady(plan, g.nodes)
    requires k in g.nodes && g.nodes[k].status == Pending
    ensures exists d :: d in g.nodes && !Passed(g.nodes[d].status) && g.nodes[d].status != Pending
    decreases plan.depth[k]
  {
    assert !Ready(plan.edges, g.nodes, k);
    var d :| d in After(plan.edges, k) && !Passed(g.nodes[d].status);
    if g.nodes[d].status == Pending {
      PendingIsBlocked(plan, g, d);
    }
  }

  /** The last branch of `_maybe_settle`, which would leave the graph open, is never taken. */
  lemma QuiescentIsDecided(plan: Plan, g: Graph)
    requires Rows(plan, g) && NothingReady(plan, g.nodes)
    requires !Has(g.nodes, Running) && !Has(g.nodes, Failed) && !Has(g.nodes, Cancelled) && !Has(g.nodes, Waiting)
    ensures forall k :: k in g.nodes ==> Passed(g.nodes[k].status)
  {
    forall k | k in g.nodes
      ensures Passed(g.nodes[k].status)
    {
      if g.nodes[k].status == Pending {
        PendingIsBlocked(plan, g, k);
      }
    }
  }

  lemma SettleKeeps(plan: Plan, g: Graph, status: GraphStatus, now: Time)
    requires Base(plan, g) && Outboxed(plan, g) && Terminal(status)
    ensures Base(plan, Settle(plan, g, status, now)) && Outboxed(plan, Settle(plan, g, status, now))
  {
  }

  lemma VerdictIsReached(plan: Plan, g: Graph, now: Time)
    requires Rows(plan, g) && NothingReady(plan, g.nodes) && g.status == GraphRunning
    ensures var v := Verdict(g.nodes);
            MaybeSettle(plan, g, now) ==
            if v == GraphRunning then g
            else if v == GraphWaiting then g.(status := GraphWaiting)
            else Settle(plan, g, v, now)
  {
    ReadyNodesAre(plan.edges, g.nodes, plan.order);
    if Verdict(g.nodes) == GraphSucceeded {
      QuiescentIsDecided(plan, g);
    }
  }

  /** Settling touches the graph row and the outbox, never a node. */
  lemma SettlingShowsVerdict(plan: Plan, g: Graph, now: Time)
    requires Rows(plan, g) && NothingReady(plan, g.nodes) && g.status == GraphRunning
    ensures var h := MaybeSettle(plan, g, now);
            h.nodes == g.nodes && h.tasks == g.tasks && h.log == g.log && h.status == Verdict(g.nodes)
    ensures MaybeSettle(plan, g, now).generation == g.generation
  {
    VerdictIsReached(plan, g, now);
  }

  lemma SettlingDecides(plan: Plan, g: Graph, now: Time)
    requires Base(plan, g) && Outboxed(plan, g) && NothingReady(plan, g.nodes) && g.status == GraphRunning
    ensures Inv(plan, MaybeSettle(plan, g, now))
    ensures MaybeSettle(plan, g, now).nodes == g.nodes
  {
    VerdictIsReached(plan, g, now);
    if Terminal(Verdict(g.nodes)) {
      SettleKeeps(plan, g, Verdict(g.nodes), now);
    }
  }

  lemma AdvanceKeeps(plan: Plan, g: Graph, now: Time)
    requires Base(plan, g) && Outboxed(plan, g) && g.status == GraphRunning
    ensures Inv(plan, MaybeSettle(plan, DispatchFrontier(plan, g), now))
  {
    FrontierKeepsBase(plan, g);
    FrontierReleases(plan, g);
    SettlingDecides(plan, DispatchFrontier(plan, g), now);
  }

  lemma BaseHasRows(plan: Plan, g: Graph)
    requires Base(plan, g)
    ensures Rows(plan, g)
  {
  }

  /** Dispatch and settlement together, as seen from one node. */
  lemma AdvanceTouches(plan: Plan, g: Graph, k: Key, now: Time)
    requires Base(plan, g) && g.status == GraphRunning && k in g.nodes
    ensures var h := MaybeSettle(plan, DispatchFrontier(plan, g), now);
            && k in h.nodes
            && Touched(g.nodes[k], h.nodes[k], |g.tasks|)
            && (!Ready(plan.edges, g.nodes, k) ==> h.nodes[k] == g.nodes[k])
  {
    hide *;
    BaseHasRows(plan, g);
    FrontierTouches(plan, g, k);
    FrontierKeepsBase(plan, g);
    BaseHasRows(plan, DispatchFrontier(plan, g));
    SettlingShowsVerdict(plan, DispatchFrontier(plan, g), now);
  }

  // ---------------------------------------------------------------------------
  // Every operation keeps the invariant
  // ---------------------------------------------------------------------------

  lemma StartKeeps(plan: Plan, now: Time)
    requires ValidPlan(plan)
    ensures Inv(plan, Start(plan, now))
  {
    AdvanceKeeps(plan, Fresh(plan), now);
  }

  ghost predicate NodeMayBecome(plan: Plan, g: Graph, k: Key, n: Node)
    requires k in g.nodes
  {
    && n.generation == g.nodes[k].generation && n.task == g.nodes[k].task
    && (n.settled <==> IsSettled(n.status))
    && (n.task.Some? <==> IsBound(n.status))
    && (n.receipt.Some? ==> n.task.Some?)
    && (Passed(g.nodes[k].status) ==> Passed(n.status))
    && (n.status != Pending && n.status != Skipped ==> Met(plan.edges, g.nodes, k))
    && (g.nodes[k].settled ==> n.status == g.nodes[k].status)
  }

  /** One node changing status, without losing a pass, keeps the rows sound. */
  lemma NodeChangeKeepsBase(plan: Plan, g: Graph, k: Key, n: Node)
    requires Base(plan, g) && k in g.nodes && NodeMayBecome(plan, g, k, n)
    ensures Base(plan, g.(nodes := g.nodes[k := n]))
  {
    hide RowsSound, OncePerGeneration, Layered;
    var h := g.(nodes := g.nodes[k := n]);
    CausalIsKept(plan.edges, g.nodes, h.nodes);
    NodeChangeKeepsRows(plan, g, k, n);
  }

  lemma NodeChangeKeepsRows(plan: Plan, g: Graph, k: Key, n: Node)
    requires RowsSound(g.nodes, g.tasks, g.log) && k in g.nodes && NodeMayBecome(plan, g, k, n)
    ensures RowsSound(g.nodes[k := n], g.tasks, g.log)
  {
    var h := g.(nodes := g.nodes[k := n]);
    assert NodeSound(g.nodes, g.tasks, k);
    forall j | j in h.nodes ensures NodeSound(h.nodes, h.tasks, j) { assert NodeSound(g.nodes, g.tasks, j); }
    forall t | 0 <= t < |h.tasks| ensures TaskSound(h.nodes, h.tasks, t) { assert TaskSound(g.nodes, g.tasks, t); }
    forall i | 0 <= i < |h.log| ensures LogSound(h.nodes, h.log[i]) { assert LogSound(g.nodes, g.log[i]); }
  }

  lemma SkipKeeps(plan: Plan, g: Graph, k: Key, now: Time)
    requires Inv(plan, g)
    ensures Inv(plan, Kept(g, Skip(plan, g, k, now)))
  {
    hide RowsSound, OncePerGeneration, Causal, MaybeSettle, DispatchFrontier, Layered, Decided;
    if Skip(plan, g, k, now).Ok? {
      NodeIsSound(g.nodes, g.tasks, g.log, k);
      NodeChangeKeepsBase(plan, g, k, g.nodes[k].(status := Skipped, settled := true));
      AdvanceKeeps(plan, g.(nodes := g.nodes[k := g.nodes[k].(status := Skipped, settled := true)]), now);
    }
  }

  /** Dispatching a parked node is releasing it as if it had no gate. */
  lemma DispatchKeepsBase(plan: Plan, g: Graph, k: Key)
    requires Base(plan, g) && k in g.nodes && g.nodes[k].status == Waiting
    ensures Base(plan, DispatchNode(g, k))
  {
    hide RowsSound, Layered;
    var h := DispatchNode(g, k);
    NodeIsSound(g.nodes, g.tasks, g.log, k);
    CausalIsKept(plan.edges, g.nodes, h.nodes);
    DispatchKeepsRows(g, k);
    forall t | 0 <= t < |g.tasks|
      ensures g.tasks[t] != TaskRow(k, g.nodes[k].generation)
    {
      TaskIsSound(g.nodes, g.tasks, g.log, t);
    }
  }

  lemma DispatchKeepsRows(g: Graph, k: Key)
    requires RowsSound(g.nodes, g.tasks, g.log) && k in g.nodes && g.nodes[k].status == Waiting
    ensures RowsSound(DispatchNode(g, k).nodes, DispatchNode(g, k).tasks, g.log)
  {
    var h := DispatchNode(g, k);
    assert NodeSound(g.nodes, g.tasks, k);
    forall j | j in h.nodes ensures NodeSound(h.nodes, h.tasks, j) { assert NodeSound(g.nodes, g.tasks, j); }
    forall t | 0 <= t < |h.tasks| ensures TaskSound(h.nodes, h.tasks, t)
    {
      if t < |g.tasks| { assert TaskSound(g.nodes, g.tasks, t); }
    }
    forall i | 0 <= i < |h.log| ensures LogSound(h.nodes, h.log[i]) { assert LogSound(g.nodes, g.log[i]); }
  }

  lemma ApproveKeeps(plan: Plan, g: Graph, k: Key)
    requires Inv(plan, g)
    ensures Inv(plan, Kept(g, Approve(plan, g, k)))
  {
    hide RowsSound, OncePerGeneration, Causal, Met, Layered;
    if Approve(plan, g, k).Ok? {
      DispatchKeepsBase(plan, g, k);
      var h := DispatchNode(g, k);
      assert h.nodes[k].status == Running;
      NothingBecomesReady(plan, g.nodes, h.nodes);
      assert Base(plan, h.(status := GraphRunning));
    }
  }

  lemma RejectKeeps(plan: Plan, g: Graph, k: Key, now: Time)
    requires Inv(plan, g)
    ensures Inv(plan, Kept(g, Reject(plan, g, k, now)))
  {
    hide RowsSound, OncePerGeneration, Causal, MaybeSettle, Layered, Met, Ready, Verdict;
    if Reject(plan, g, k, now).Ok? {
      NodeIsSound(g.nodes, g.tasks, g.log, k);
      CausalNode(plan, g, k);
      var n := g.nodes[k].(status := Cancelled, settled := true);
      NodeChangeKeepsBase(plan, g, k, n);
      var h := g.(nodes := g.nodes[k := n]);
      NothingBecomesReady(plan, g.nodes, h.nodes);
      assert Base(plan, h.(status := GraphRunning));
      SettlingDecides(plan, h.(status := GraphRunning), now);
    }
  }

  lemma CancelKeeps(plan: Plan, g: Graph, now: Time)
    requires Inv(plan, g)
    ensures Inv(plan, Kept(g, Cancel(plan, g, now)))
  {
    SettleKeeps(plan, g, GraphCancelled, now);
  }

  /** Writing an outcome, before the graph advances. */
  function RecordOutcome(g: Graph, k: Key, outcome: NodeStatus): Graph
    requires k in g.nodes
  {
    g.(nodes := g.nodes[k := g.nodes[k].(status := outcome, settled := true)],
    log := g.log + [Recorded(k, g.nodes[k].generation, outcome)])
  }

  lemma RecordKeepsBase(plan: Plan, g: Graph, k: Key, outcome: NodeStatus)
    requires Base(plan, g) && k in g.nodes && g.nodes[k].status == Running
    requires outcome == Succeeded || outcome == Failed
    ensures Base(plan, RecordOutcome(g, k, outcome))
  {
    hide RowsSound, Causal, Layered;
    NodeIsSound(g.nodes, g.tasks, g.log, k);
    CausalNode(plan, g, k);
    var n := g.nodes[k].(status := outcome, settled := true);
    NodeChangeKeepsBase(plan, g, k, n);
    LogOneMore(g.(nodes := g.nodes[k := n]), k, outcome);
    forall i | 0 <= i < |g.log|
      ensures g.log[i].key != k || g.log[i].generation != n.generation
    {
      LogIsSound(g.nodes, g.tasks, g.log, i);
    }
  }

  lemma LogOneMore(g: Graph, k: Key, outcome: NodeStatus)
    requires RowsSound(g.nodes, g.tasks, g.log) && k in g.nodes && g.nodes[k].settled && g.nodes[k].status == outcome
    ensures RowsSound(g.nodes, g.tasks, g.log + [Recorded(k, g.nodes[k].generation, outcome)])
  {
    var h := g.(log := g.log + [Recorded(k, g.nodes[k].generation, outcome)]);
    forall j | j in h.nodes ensures NodeSound(h.nodes, h.tasks, j) { assert NodeSound(g.nodes, g.tasks, j); }
    forall t | 0 <= t < |h.tasks| ensures TaskSound(h.nodes, h.tasks, t) { assert TaskSound(g.nodes, g.tasks, t); }
    forall i | 0 <= i < |h.log| ensures LogSound(h.nodes, h.log[i])
    {
      if i < |g.log| { assert LogSound(g.nodes, g.log[i]); }
    }
  }

  /** A completion that is news comes from the running task of its node. */
  lemma CompletionIsNews(plan: Plan, g: Graph, t: TaskId, status: TaskStatus, now: Time)
    requires Base(plan, g) && Complete(plan, g, t, status, now) != g
    ensures t < |g.tasks| && g.tasks[t].key in g.nodes && g.nodes[g.tasks[t].key].status == Running
    ensures g.nodes[g.tasks[t].key].task == Some(t) && OutcomeOf(status).Some?
    ensures var recorded := RecordOutcome(g, g.tasks[t].key, OutcomeOf(status).value);
            Complete(plan, g, t, status, now) ==
            if g.status == GraphRunning then MaybeSettle(plan, DispatchFrontier(plan, recorded), now) else recorded
  {
    assert NodeSound(g.nodes, g.tasks, g.tasks[t].key);
  }

  lemma CompleteKeeps(plan: Plan, g: Graph, t: TaskId, status: TaskStatus, now: Time)
    requires Inv(plan, g)
    ensures Inv(plan, Complete(plan, g, t, status, now))
  {
    hide RowsSound, OncePerGeneration, Causal, MaybeSettle, DispatchFrontier, Layered;
    if Complete(plan, g, t, status, now) != g {
      CompletionIsNews(plan, g, t, status, now);
      var k, outcome := g.tasks[t].key, OutcomeOf(status).value;
      RecordKeepsBase(plan, g, k, outcome);
      assert Has(g.nodes, Running);
      if g.status == GraphRunning {
        AdvanceKeeps(plan, RecordOutcome(g, k, outcome), now);
      }
    }
  }

  lemma PublishKeeps(plan: Plan, g: Graph, t: TaskId, attempt: AttemptId, succeeds: bool)
    requires Inv(plan, g)
    ensures Inv(plan, Kept(g, Publish(g, t, attempt, succeeds)))
  {
    hide RowsSound, OncePerGeneration, Causal, Layered, Decided;
    if Publish(g, t, attempt, succeeds).Ok? {
      var k := g.tasks[t].key;
      NodeIsSound(g.nodes, g.tasks, g.log, k);
      CausalNode(plan, g, k);
      var n := g.nodes[k].(receipt := Some(attempt));
      NodeChangeKeepsBase(plan, g, k, n);
      NothingBecomesReadyIfDecided(plan, g, g.(nodes := g.nodes[k := n]));
    }
  }

  lemma NothingBecomesReadyIfDecided(plan: Plan, g: Graph, h: Graph)
    requires Decided(plan, g) && h == g.(nodes := h.nodes) && h.nodes.Keys == g.nodes.Keys
    requires forall k :: k in g.nodes ==> h.nodes[k].status == g.nodes[k].status
    ensures Decided(plan, h)
  {
    forall s ensures Has(h.nodes, s) <==> Has(g.nodes, s)
    {
      if Has(g.nodes, s) { var k :| k in g.nodes && g.nodes[k].status == s; assert h.nodes[k].status == s; }
    }
    if NothingReady(plan, g.nodes) {
      NothingBecomesReady(plan, g.nodes, h.nodes);
    }
  }

  // ---------------------------------------------------------------------------
  // What the invariant says in one place
  // ---------------------------------------------------------------------------

  lemma WaitsOnSomething(plan: Plan, g: Graph, k: Key)
    requires Inv(plan, g) && NothingReady(plan, g.nodes) && k in g.nodes && g.nodes[k].status == Pending
    ensures exists d :: d in After(plan.edges, k) && d in g.nodes && !Passed(g.nodes[d].status)
  {
    hide RowsSound, OncePerGeneration, Causal, Outboxed, Verdict;
    assert !Ready(plan.edges, g.nodes, k);
    var d :| d in After(plan.edges, k) && !(d in g.nodes && Passed(g.nodes[d].status));
    EdgesAreLayered(plan, g, d, k);
  }

  lemma EdgesAreLayered(plan: Plan, g: Graph, d: Key, k: Key)
    requires Inv(plan, g) && d in After(plan.edges, k)
    ensures d in g.nodes && d in plan.depth && k in plan.depth && plan.depth[d] < plan.depth[k]
  {
    hide RowsSound, OncePerGeneration, Causal, Outboxed, Decided;
  }

  // ---------------------------------------------------------------------------
  // Resume
  // ---------------------------------------------------------------------------

  /** No kept node that ran depends on a node that is re-run. */
  lemma RerunIsClosed(plan: Plan, g: Graph, named: Option<seq<Key>>, d: Key, k: Key)
    requires Rows(plan, g) && k in g.nodes && d in After(plan.edges, k)
    requires d in RerunSet(plan, g, named) && g.nodes[k].status != Pending
    ensures k in RerunSet(plan, g, named)
  {
    var n :| n in NamedNodes(g, named) && Reaches(plan.edges, n, d);
    ReachesStep(plan.edges, n, d, k);
  }

  lemma ResetKeepsCausal(plan: Plan, g: Graph, named: Option<seq<Key>>)
    requires Base(plan, g)
    ensures Causal(plan.edges, Reset(g, RerunSet(plan, g, named)).nodes)
  {
    var rerun := RerunSet(plan, g, named);
    var h := Reset(g, rerun);
    forall k | k in h.nodes && h.nodes[k].status != Pending && h.nodes[k].status != Skipped
      ensures Met(plan.edges, h.nodes, k)
    {
      assert Met(plan.edges, g.nodes, k);
      forall d | d in After(plan.edges, k)
        ensures d in h.nodes && Passed(h.nodes[d].status)
      {
        if d in rerun { RerunIsClosed(plan, g, named, d, k); }
      }
    }
  }

  lemma ResetKeepsRows(g: Graph, rerun: set<Key>)
    requires RowsSound(g.nodes, g.tasks, g.log)
    ensures RowsSound(Reset(g, rerun).nodes, g.tasks, g.log)
  {
    var h := Reset(g, rerun);
    forall k | k in h.nodes ensures NodeSound(h.nodes, h.tasks, k) { assert NodeSound(g.nodes, g.tasks, k); }
    forall t | 0 <= t < |h.tasks| ensures TaskSound(h.nodes, h.tasks, t) { assert TaskSound(g.nodes, g.tasks, t); }
    forall i | 0 <= i < |h.log| ensures LogSound(h.nodes, h.log[i]) { assert LogSound(g.nodes, g.log[i]); }
  }

  lemma ResetKeepsBase(plan: Plan, g: Graph, named: Option<seq<Key>>)
    requires Base(plan, g)
    ensures Base(plan, Reset(g, RerunSet(plan, g, named)))
  {
    ResetKeepsCausal(plan, g, named);
    ResetKeepsRows(g, RerunSet(plan, g, named));
  }

  lemma ResumeKeeps(plan: Plan, g: Graph, named: Option<seq<Key>>, now: Time)
    requires Inv(plan, g)
    ensures Inv(plan, Kept(g, Resume(plan, g, named, now)))
  {
    hide RowsSound, OncePerGeneration, Causal, MaybeSettle, DispatchFrontier, Layered, RerunSet;
    if Resume(plan, g, named, now).Ok? {
      assert RecordSettlement(plan, g) == g;
      ResetKeepsBase(plan, g, named);
      AdvanceKeeps(plan, Reset(g, RerunSet(plan, g, named)), now);
    }
  }

  /** Every step of every run, refused ones included, keeps the invariant. */
  lemma StepKeeps(plan: Plan, g: Graph, e: Event, now: Time)
    requires Inv(plan, g)
    ensures Inv(plan, Step(plan, g, e, now))
  {
    match e
    case CompleteTask(t, status) => CompleteKeeps(plan, g, t, status, now);
    case SkipNode(k) => SkipKeeps(plan, g, k, now);
    case ApproveNode(k) => ApproveKeeps(plan, g, k);
    case RejectNode(k) => RejectKeeps(plan, g, k, now);
    case CancelGraph => CancelKeeps(plan, g, now);
    case ResumeGraph(named) => ResumeKeeps(plan, g, named, now);
    case PublishReceipt(t, a, succeeds) => PublishKeeps(plan, g, t, a, succeeds);
  }
}
