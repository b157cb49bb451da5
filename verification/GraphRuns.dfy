/**
 Whole runs of a graph: starts, completions, skips, approvals, rejections, cancels,
 resumes and publications in any order, whether each is accepted or refused.
 */
module GraphRuns {
  import opened Common
  import opened Topology
  import opened GraphEngine
  import opened GraphInvariants

  datatype Timed = Timed(event: Event, at: Time)

  ghost function Run(plan: Plan, start: Time, run: seq<Timed>): (g: Graph)
    requires ValidPlan(plan)
    ensures Inv(plan, g)
  {
    if run == [] then
      StartKeeps(plan, start);
      Start(plan, start)
    else
      var last, before := run[|run| - 1], Run(plan, start, run[..|run| - 1]);
      StepKeeps(plan, before, last.event, last.at);
      Step(plan, before, last.event, last.at)
  }

  // ---------------------------------------------------------------------------
  // What one step may do to one node
  // ---------------------------------------------------------------------------

  /** How far a node is from the end of its generation. */
  function Rank(status: NodeStatus): nat {
    match status
    case Pending => 3
    case Waiting => 2
    case Running => 1
    case _ => 0
  }

  /** Within a generation a node only advances, and keeps its task, receipt and outcome. */
  ghost predicate NodeAdvances(a: Node, b: Node, bar: nat) {
    && b.generation == a.generation
    && (b.status == a.status || Rank(b.status) < Rank(a.status))
    && (a.settled ==> b.settled && b.status == a.status)
    && (b.task == a.task || (a.task.None? && b.task.Some? && b.task.value >= bar))
    && b.receipt == a.receipt
  }

  /** A publication writes a receipt where there was none, and nothing else. */
  ghost predicate NodePublishes(a: Node, b: Node) {
    a.receipt.None? && b.receipt.Some? && b == a.(receipt := b.receipt)
  }

  /** A new generation starts with no task of the old one and no receipt. */
  ghost predicate NodeRestarts(a: Node, b: Node, bar: nat) {
    && b.generation == a.generation + 1
    && b.receipt.None?
    && (b.task.Some? ==> b.task.value >= bar)
  }

  ghost predicate Keeps(g: Graph, h: Graph) {
    && h.nodes.Keys == g.nodes.Keys
    && g.tasks <= h.tasks
    && g.log <= h.log
    && (forall n :: n in g.settlements ==> n in h.settlements && h.settlements[n] == g.settlements[n])
  }

  ghost predicate Advances(g: Graph, h: Graph) {
    && Keeps(g, h)
    && h.generation == g.generation
    && (forall k :: k in g.nodes ==> NodeAdvances(g.nodes[k], h.nodes[k], |g.tasks|))
  }

  ghost predicate Evolves(g: Graph, h: Graph) {
    && Keeps(g, h)
    && (h.generation == g.generation || h.generation == g.generation + 1)
    && (forall k :: k in g.nodes ==>
                      || NodeAdvances(g.nodes[k], h.nodes[k], |g.tasks|)
                      || NodeRestarts(g.nodes[k], h.nodes[k], |g.tasks|)
                      || NodePublishes(g.nodes[k], h.nodes[k]))
  }

  lemma AdvancesCompose(g: Graph, h: Graph, m: Graph)
    requires Advances(g, h) && Advances(h, m)
    ensures Advances(g, m)
  {
    forall k | k in g.nodes
      ensures NodeAdvances(g.nodes[k], m.nodes[k], |g.tasks|)
    {
      assert NodeAdvances(g.nodes[k], h.nodes[k], |g.tasks|) && NodeAdvances(h.nodes[k], m.nodes[k], |h.tasks|);
    }
  }

  lemma FrontierAdvances(plan: Plan, g: Graph)
    requires Base(plan, g) && g.status == GraphRunning
    ensures Advances(g, DispatchFrontier(plan, g))
  {
    hide RowsSound, Layered, Released, DispatchFrontier, Causal, OncePerGeneration;
    var h := DispatchFrontier(plan, g);
    forall k | k in g.nodes
      ensures NodeAdvances(g.nodes[k], h.nodes[k], |g.tasks|) && g.tasks <= h.tasks
      ensures h == g.(nodes := h.nodes, tasks := h.tasks)
    {
      FrontierTouches(plan, g, k);
      NodeIsSound(g.nodes, g.tasks, g.log, k);
    }
    FrontierReleases(plan, g);
  }

  lemma SettleAdvances(plan: Plan, g: Graph, status: GraphStatus, now: Time)
    ensures Advances(g, Settle(plan, g, status, now))
  {
  }

  lemma MaybeSettleAdvances(plan: Plan, g: Graph, now: Time)
    ensures Advances(g, MaybeSettle(plan, g, now))
  {
    hide ReadyNodes, Has;
    SettleAdvances(plan, g, GraphFailed, now);
    SettleAdvances(plan, g, GraphCancelled, now);
    SettleAdvances(plan, g, GraphSucceeded, now);
  }

  lemma AdvanceAdvances(plan: Plan, g: Graph, h: Graph, now: Time)
    requires Base(plan, h) && h.status == GraphRunning && Advances(g, h)
    ensures Advances(g, MaybeSettle(plan, DispatchFrontier(plan, h), now))
  {
    hide *;
    FrontierAdvances(plan, h);
    MaybeSettleAdvances(plan, DispatchFrontier(plan, h), now);
    AdvancesCompose(g, h, DispatchFrontier(plan, h));
    AdvancesCompose(g, DispatchFrontier(plan, h), MaybeSettle(plan, DispatchFrontier(plan, h), now));
  }

  lemma SkipAdvances(plan: Plan, g: Graph, k: Key, now: Time)
    requires Inv(plan, g)
    ensures Advances(g, Kept(g, Skip(plan, g, k, now)))
  {
    hide RowsSound, Layered, MaybeSettle, DispatchFrontier, Causal, OncePerGeneration, Decided, Outboxed;
    if Skip(plan, g, k, now).Ok? {
      NodeIsSound(g.nodes, g.tasks, g.log, k);
      var n := g.nodes[k].(status := Skipped, settled := true);
      NodeChangeKeepsBase(plan, g, k, n);
      AdvanceAdvances(plan, g, g.(nodes := g.nodes[k := n]), now);
    }
  }

  lemma DispatchAdvances(g: Graph, k: Key)
    requires k in g.nodes && g.nodes[k].status == Waiting && g.nodes[k].task.None? && !g.nodes[k].settled
    ensures Advances(g, DispatchNode(g, k))
  {
  }

  lemma MarkedRunningAdvances(g: Graph, h: Graph)
    requires Advances(g, h)
    ensures Advances(g, h.(status := GraphRunning))
  {
  }

  lemma ApproveAdvances(plan: Plan, g: Graph, k: Key)
    requires Inv(plan, g)
    ensures Advances(g, Kept(g, Approve(plan, g, k)))
  {
    hide RowsSound, Layered, Causal, OncePerGeneration, Decided, Outboxed, Met;
    if Approve(plan, g, k).Ok? {
      NodeIsSound(g.nodes, g.tasks, g.log, k);
      DispatchAdvances(g, k);
      MarkedRunningAdvances(g, DispatchNode(g, k));
    }
  }

  lemma RejectAdvances(plan: Plan, g: Graph, k: Key, now: Time)
    requires Inv(plan, g)
    ensures Advances(g, Kept(g, Reject(plan, g, k, now)))
  {
    hide RowsSound, Layered, MaybeSettle, Causal, OncePerGeneration, Decided, Outboxed;
    if Reject(plan, g, k, now).Ok? {
      NodeIsSound(g.nodes, g.tasks, g.log, k);
      var n := g.nodes[k].(status := Cancelled, settled := true);
      var h := g.(nodes := g.nodes[k := n]).(status := GraphRunning);
      MaybeSettleAdvances(plan, h, now);
      AdvancesCompose(g, h, MaybeSettle(plan, h, now));
    }
  }

  lemma CompleteAdvances(plan: Plan, g: Graph, t: TaskId, status: TaskStatus, now: Time)
    requires Inv(plan, g)
    ensures Advances(g, Complete(plan, g, t, status, now))
  {
    hide RowsSound, Layered, MaybeSettle, DispatchFrontier, Causal, OncePerGeneration, Decided, Outboxed;
    if Complete(plan, g, t, status, now) != g {
      CompletionIsNews(plan, g, t, status, now);
      var k, outcome := g.tasks[t].key, OutcomeOf(status).value;
      RecordKeepsBase(plan, g, k, outcome);
      NodeIsSound(g.nodes, g.tasks, g.log, k);
      if g.status == GraphRunning {
        AdvanceAdvances(plan, g, RecordOutcome(g, k, outcome), now);
      }
    }
  }

  lemma ResumeEvolves(plan: Plan, g: Graph, named: Option<seq<Key>>, now: Time)
    requires Inv(plan, g) && Resume(plan, g, named, now).Ok?
    ensures var h := Resume(plan, g, named, now).value;
            && Keeps(g, h) && h.generation == g.generation + 1
            && forall k :: k in g.nodes ==>
                             if k in RerunSet(plan, g, named)
                             then NodeRestarts(g.nodes[k], h.nodes[k], |g.tasks|)
                             else NodeAdvances(g.nodes[k], h.nodes[k], |g.tasks|)
  {
    hide MaybeSettle, DispatchFrontier, Causal, OncePerGeneration, Decided, RerunSet, RowsSound;
    var rerun := RerunSet(plan, g, named);
    assert RecordSettlement(plan, g) == g;
    ResetKeepsBase(plan, g, named);
    var r := Reset(g, rerun);
    AdvanceAdvances(plan, r, r, now);
    var h := MaybeSettle(plan, DispatchFrontier(plan, r), now);
    forall k | k in g.nodes
      ensures if k in rerun
              then NodeRestarts(g.nodes[k], h.nodes[k], |g.tasks|)
              else NodeAdvances(g.nodes[k], h.nodes[k], |g.tasks|)
    {
      assert NodeAdvances(r.nodes[k], h.nodes[k], |r.tasks|);
      ResumeGivesNoReceipt(plan, r, now, k);
    }
  }

  /** The frontier publishes nothing. */
  lemma ResumeGivesNoReceipt(plan: Plan, r: Graph, now: Time, k: Key)
    requires Base(plan, r) && r.status == GraphRunning && k in r.nodes
    ensures MaybeSettle(plan, DispatchFrontier(plan, r), now).nodes[k].receipt == r.nodes[k].receipt
  {
    hide DispatchFrontier, MaybeSettle, Base, Ready;
    AdvanceTouches(plan, r, k, now);
  }

  lemma RowsOf(plan: Plan, g: Graph)
    requires Inv(plan, g)
    ensures Rows(plan, g)
  {
  }

  lemma StepEvolves(plan: Plan, g: Graph, e: Event, now: Time)
    requires Inv(plan, g)
    ensures Evolves(g, Step(plan, g, e, now))
    ensures !e.ResumeGraph? && !e.PublishReceipt? ==> Advances(g, Step(plan, g, e, now))
  {
    hide Decided, Outboxed, Base, Complete, Skip, Approve, Reject, Cancel, Publish, Resume, RerunSet;
    assert Rows(plan, g) by { RowsOf(plan, g); }
    match e
    case CompleteTask(t, status) => CompleteAdvances(plan, g, t, status, now);
    case SkipNode(k) => SkipAdvances(plan, g, k, now);
    case ApproveNode(k) => ApproveAdvances(plan, g, k);
    case RejectNode(k) => RejectAdvances(plan, g, k, now);
    case CancelGraph => CancelAdvances(plan, g, now);
    case ResumeGraph(named) => if Resume(plan, g, named, now).Ok? { ResumeEvolves(plan, g, named, now); }
    case PublishReceipt(t, a, succeeds) => PublishEvolves(g, t, a, succeeds);
  }

  lemma CancelAdvances(plan: Plan, g: Graph, now: Time)
    ensures Advances(g, Kept(g, Cancel(plan, g, now)))
  {
    SettleAdvances(plan, g, GraphCancelled, now);
  }

  lemma PublishEvolves(g: Graph, t: TaskId, attempt: AttemptId, succeeds: bool)
    ensures Evolves(g, Kept(g, Publish(g, t, attempt, succeeds)))
  {
  }

  // ---------------------------------------------------------------------------
  // Causality
  // ---------------------------------------------------------------------------

  lemma CausalAt(plan: Plan, g: Graph, k: Key, d: Key)
    requires Inv(plan, g) && k in plan.edges && d in plan.edges[k]
    ensures k in g.nodes && d in g.nodes
    ensures g.nodes[k].status != Pending && g.nodes[k].status != Skipped ==> Passed(g.nodes[d].status)
  {
    hide RowsSound, OncePerGeneration, Decided, Outboxed;
    assert d in After(plan.edges, k);
    if g.nodes[k].status != Pending && g.nodes[k].status != Skipped {
      assert Met(plan.edges, g.nodes, k);
    }
  }

  /** In every reachable state, resumes included, what ran did so after its dependencies. */
  lemma Causality(plan: Plan, start: Time, run: seq<Timed>, k: Key, d: Key)
    requires ValidPlan(plan) && k in plan.edges && d in plan.edges[k]
    ensures var n := Run(plan, start, run).nodes;
            && k in n && d in n
            && (n[k].status != Pending && n[k].status != Skipped ==>
                  n[d].status == Succeeded || n[d].status == Skipped)
  {
    hide RowsSound, OncePerGeneration, Decided, Outboxed, Run, Layered;
    var g := Run(plan, start, run);
    CausalAt(plan, g, k, d);
  }

  // ---------------------------------------------------------------------------
  // No deadlock
  // ---------------------------------------------------------------------------

  ghost predicate Blocks(edges: Edges, nodes: map<Key, Node>, b: Key, k: Key) {
    && b in nodes
    && Reaches(edges, b, k)
    && (nodes[b].status == Failed || nodes[b].status == Cancelled || nodes[b].status == Waiting)
  }

  /** The status is the verdict on the nodes, and nothing that could start is left waiting. */
  ghost predicate Determined(plan: Plan, g: Graph) {
    g.status == Verdict(g.nodes) && NothingReady(plan, g.nodes)
  }

  /** No cancel of the run was accepted; one that finds the graph settled is refused. */
  ghost predicate NeverCancelled(plan: Plan, start: Time, run: seq<Timed>)
    requires ValidPlan(plan)
  {
    run == [] ||
    var front, last := run[..|run| - 1], run[|run| - 1];
    && NeverCancelled(plan, start, front)
    && (last.event.CancelGraph? ==> Run(plan, start, front).settledAt.Some?)
  }

  lemma AdvanceDetermines(plan: Plan, g: Graph, now: Time)
    requires Base(plan, g) && g.status == GraphRunning
    ensures Determined(plan, MaybeSettle(plan, DispatchFrontier(plan, g), now))
  {
    hide DispatchFrontier, MaybeSettle, RowsSound, OncePerGeneration, Causal, NothingReady, ValidPlan, Verdict;
    FrontierKeepsBase(plan, g);
    FrontierStaysRunning(plan, g);
    SettlingShowsVerdict(plan, DispatchFrontier(plan, g), now);
  }

  lemma FrontierStaysRunning(plan: Plan, g: Graph)
    requires Base(plan, g) && g.status == GraphRunning
    ensures DispatchFrontier(plan, g).status == GraphRunning
  {
    hide DispatchFrontier, RowsSound, OncePerGeneration, Causal;
    FrontierReleases(plan, g);
  }

  lemma CompleteDetermines(plan: Plan, g: Graph, t: TaskId, status: TaskStatus, now: Time)
    requires Inv(plan, g) && Determined(plan, g)
    ensures Determined(plan, Complete(plan, g, t, status, now))
  {
    hide Determined, Complete, DispatchFrontier, MaybeSettle, Base, Outboxed, Decided;
    if Complete(plan, g, t, status, now) != g {
      CompletionIsNews(plan, g, t, status, now);
      var k, outcome := g.tasks[t].key, OutcomeOf(status).value;
      RecordKeepsBase(plan, g, k, outcome);
      RunningIsTheVerdict(plan, g, k);
      AdvanceDetermines(plan, RecordOutcome(g, k, outcome), now);
    }
  }

  lemma RunningIsTheVerdict(plan: Plan, g: Graph, k: Key)
    requires Determined(plan, g) && k in g.nodes && g.nodes[k].status == Running
    ensures g.status == GraphRunning
  {
    assert Has(g.nodes, Running);
  }

  lemma RejectDetermines(plan: Plan, g: Graph, k: Key, now: Time)
    requires Inv(plan, g) && Determined(plan, g) && Reject(plan, g, k, now).Ok?
    ensures Determined(plan, Reject(plan, g, k, now).value)
  {
    hide RowsSound, OncePerGeneration, Causal, MaybeSettle, ValidPlan, Outboxed, NothingReady, Verdict;
    var n := g.nodes[k].(status := Cancelled, settled := true);
    var h := g.(nodes := g.nodes[k := n], status := GraphRunning);
    NothingBecomesReady(plan, g.nodes, h.nodes);
    SettlingShowsVerdict(plan, h, now);
  }

  lemma SkipDetermines(plan: Plan, g: Graph, k: Key, now: Time)
    requires Inv(plan, g) && Skip(plan, g, k, now).Ok?
    ensures Determined(plan, Skip(plan, g, k, now).value)
  {
    hide RowsSound, OncePerGeneration, Causal, MaybeSettle, DispatchFrontier, Layered, Decided, Outboxed;
    NodeIsSound(g.nodes, g.tasks, g.log, k);
    NodeChangeKeepsBase(plan, g, k, g.nodes[k].(status := Skipped, settled := true));
    AdvanceDetermines(plan, g.(nodes := g.nodes[k := g.nodes[k].(status := Skipped, settled := true)]), now);
  }

  lemma ResumeDetermines(plan: Plan, g: Graph, named: Option<seq<Key>>, now: Time)
    requires Inv(plan, g) && Resume(plan, g, named, now).Ok?
    ensures Determined(plan, Resume(plan, g, named, now).value)
  {
    hide MaybeSettle, DispatchFrontier, Causal, OncePerGeneration, Decided, RowsSound, RerunSet;
    assert RecordSettlement(plan, g) == g;
    ResetKeepsBase(plan, g, named);
    AdvanceDetermines(plan, Reset(g, RerunSet(plan, g, named)), now);
  }

  lemma PublishDetermines(plan: Plan, g: Graph, t: TaskId, attempt: AttemptId, succeeds: bool)
    requires Determined(plan, g)
    ensures Determined(plan, Kept(g, Publish(g, t, attempt, succeeds)))
  {
    var h := Kept(g, Publish(g, t, attempt, succeeds));
    assert forall k :: k in g.nodes ==> h.nodes[k].status == g.nodes[k].status;
    hide Ready, Met, Publish;
    NothingBecomesReady(plan, g.nodes, h.nodes);
    SameStatusesSameVerdict(g.nodes, h.nodes);
  }

  lemma SameStatusesSameVerdict(before: map<Key, Node>, after: map<Key, Node>)
    requires after.Keys == before.Keys && forall k :: k in before ==> after[k].status == before[k].status
    ensures Verdict(after) == Verdict(before)
  {
    forall s
      ensures Has(after, s) <==> Has(before, s)
    {
      if Has(before, s) {
        var k :| k in before && before[k].status == s;
        assert after[k].status == s;
      }
    }
  }

  /** Every step but an accepted cancel leaves the status to the nodes. */
  lemma StepDetermines(plan: Plan, g: Graph, e: Event, now: Time)
    requires Inv(plan, g) && Determined(plan, g) && (e.CancelGraph? ==> g.settledAt.Some?)
    ensures Determined(plan, Step(plan, g, e, now))
  {
    hide Inv, Determined, Complete, Skip, Reject, Publish, Resume, RerunSet, Verdict, NothingReady;
    RowsOf(plan, g);
    match e
    case CompleteTask(t, status) => CompleteDetermines(plan, g, t, status, now);
    case SkipNode(k) => if Skip(plan, g, k, now).Ok? { SkipDetermines(plan, g, k, now); }
    case ApproveNode(k) => ApproveDetermines(plan, g, k);
    case RejectNode(k) => if Reject(plan, g, k, now).Ok? { RejectDetermines(plan, g, k, now); }
    case CancelGraph =>
    case ResumeGraph(named) => if Resume(plan, g, named, now).Ok? { ResumeDetermines(plan, g, named, now); }
    case PublishReceipt(t, a, succeeds) => PublishDetermines(plan, g, t, a, succeeds);
  }

  lemma ApproveDetermines(plan: Plan, g: Graph, k: Key)
    requires Inv(plan, g) && Determined(plan, g)
    ensures Determined(plan, Kept(g, Approve(plan, g, k)))
  {
    hide Base, Outboxed, Verdict, NothingReady;
    ApproveKeeps(plan, g, k);
  }

  lemma {:induction false} RunIsDetermined(plan: Plan, start: Time, run: seq<Timed>)
    requires ValidPlan(plan) && NeverCancelled(plan, start, run)
    ensures Determined(plan, Run(plan, start, run))
  {
    hide Inv, Determined, Step, Start;
    if run == [] {
      StartIsDetermined(plan, start);
    } else {
      var front, last := run[..|run| - 1], run[|run| - 1];
      RunIsDetermined(plan, start, front);
      StepDetermines(plan, Run(plan, start, front), last.event, last.at);
    }
  }

  lemma StartIsDetermined(plan: Plan, start: Time)
    requires ValidPlan(plan)
    ensures Determined(plan, Start(plan, start))
  {
    hide MaybeSettle, DispatchFrontier;
    FreshIsSound(plan);
    AdvanceDetermines(plan, Fresh(plan), start);
  }

  lemma PendingDependency(plan: Plan, g: Graph, k: Key) returns (d: Key)
    requires Inv(plan, g) && Determined(plan, g) && g.status != GraphRunning
    requires k in g.nodes && g.nodes[k].status == Pending
    ensures d in After(plan.edges, k) && d in g.nodes && !Passed(g.nodes[d].status) && g.nodes[d].status != Running
    ensures d in plan.depth && k in plan.depth && plan.depth[d] < plan.depth[k]
  {
    hide Base, Outboxed, Layered, NothingReady;
    WaitsOnSomething(plan, g, k);
    d :| d in After(plan.edges, k) && d in g.nodes && !Passed(g.nodes[d].status);
    EdgesAreLayered(plan, g, d, k);
  }

  lemma QuiescentPendingIsBlocked(plan: Plan, g: Graph, k: Key)
    requires Inv(plan, g) && Determined(plan, g) && g.status != GraphRunning
    requires k in g.nodes && g.nodes[k].status == Pending
    ensures exists b :: Blocks(plan.edges, g.nodes, b, k)
    decreases if k in plan.depth then plan.depth[k] else 0
  {
    hide Reaches, Inv, Determined;
    var d := PendingDependency(plan, g, k);
    if g.nodes[d].status == Pending {
      QuiescentPendingIsBlocked(plan, g, d);
      var b :| Blocks(plan.edges, g.nodes, b, d);
      ReachesStep(plan.edges, b, d, k);
      assert Blocks(plan.edges, g.nodes, b, k);
    } else {
      ReachesSelf(plan.edges, d);
      ReachesStep(plan.edges, d, d, k);
      assert Blocks(plan.edges, g.nodes, d, k);
    }
  }

  /**
   A graph nobody cancelled, rejected nodes or not, shows the verdict on its nodes: it is
   RUNNING exactly while a node runs, leaves nothing that could start, and once quiet,
   settled CANCELLED included, has a reason for every node that never started.
   */
  lemma NoDeadlock(plan: Plan, start: Time, run: seq<Timed>)
    requires ValidPlan(plan) && NeverCancelled(plan, start, run)
    ensures var g := Run(plan, start, run);
            && g.status == Verdict(g.nodes)
            && (g.status == GraphRunning <==> exists k :: k in g.nodes && g.nodes[k].status == Running)
            && (forall k :: k in g.nodes ==> !Ready(plan.edges, g.nodes, k))
            && (g.settledAt.Some? <==> g.status != GraphRunning && g.status != GraphWaiting)
    ensures var g := Run(plan, start, run);
            g.status != GraphRunning ==>
              forall k :: k in g.nodes && g.nodes[k].status == Pending ==>
                            exists b :: Blocks(plan.edges, g.nodes, b, k)
  {
    hide RowsSound, OncePerGeneration, Causal, Outboxed, Decided, Blocks, Run, Ready;
    var g := Run(plan, start, run);
    RunIsDetermined(plan, start, run);
    RowsOf(plan, g);
    if g.status != GraphRunning {
      forall k | k in g.nodes && g.nodes[k].status == Pending
        ensures exists b :: Blocks(plan.edges, g.nodes, b, k)
      {
        QuiescentPendingIsBlocked(plan, g, k);
      }
    }
  }

  /**
   What each status of such a graph means, in every reachable state: FAILED that a node failed
   and none runs, CANCELLED that one was rejected and none runs or failed, WAITING that one is
   parked and none is any of those, SUCCEEDED that every node succeeded or was skipped.
   */
  lemma StatusesMean(plan: Plan, start: Time, run: seq<Timed>)
    requires ValidPlan(plan) && NeverCancelled(plan, start, run)
    ensures var g := Run(plan, start, run);
            var n := g.nodes;
            && (g.status == GraphFailed <==> Has(n, Failed) && !Has(n, Running))
            && (g.status == GraphCancelled <==> Has(n, Cancelled) && !Has(n, Failed) && !Has(n, Running))
            && (g.status == GraphWaiting <==> Has(n, Waiting) && !Has(n, Cancelled) && !Has(n, Failed) && !Has(n, Running))
            && (g.status == GraphSucceeded <==> forall k :: k in n ==> n[k].status == Succeeded || n[k].status == Skipped)
  {
    hide RowsSound, OncePerGeneration, Causal, Outboxed, Decided, Run, Ready;
    var g := Run(plan, start, run);
    RunIsDetermined(plan, start, run);
    RowsOf(plan, g);
    if g.status == GraphSucceeded {
      QuiescentIsDecided(plan, g);
    }
  }

  /** And the hypothesis is the exact one: an accepted cancel is final, whatever the nodes say. */
  lemma {:induction false} CancelledForGood(plan: Plan, start: Time, run: seq<Timed>)
    requires ValidPlan(plan)
    ensures !NeverCancelled(plan, start, run) ==> Run(plan, start, run).status == GraphCancelled
    ensures NeverCancelled(plan, start, run) && Run(plan, start, run).status == GraphCancelled ==>
              Has(Run(plan, start, run).nodes, Cancelled) && !Has(Run(plan, start, run).nodes, Running)
  {
    hide Inv, Step, Start, Determined;
    if NeverCancelled(plan, start, run) {
      RunIsDetermined(plan, start, run);
      CancelledIsTheVerdict(plan, Run(plan, start, run));
    } else {
      var front, last := run[..|run| - 1], run[|run| - 1];
      CancelledForGood(plan, start, front);
      CancelIsFinal(plan, Run(plan, start, front), last.event, last.at);
    }
  }

  lemma CancelledIsTheVerdict(plan: Plan, g: Graph)
    requires Determined(plan, g)
    ensures g.status == GraphCancelled ==> Has(g.nodes, Cancelled) && !Has(g.nodes, Running)
  {
  }

  lemma CancelIsFinal(plan: Plan, g: Graph, e: Event, now: Time)
    requires Inv(plan, g)
    requires g.status == GraphCancelled || (e.CancelGraph? && g.settledAt.None?)
    ensures Step(plan, g, e, now).status == GraphCancelled
  {
    hide RowsSound, OncePerGeneration, Causal, Layered, Decided, Outboxed, RerunSet, MaybeSettle, DispatchFrontier;
  }

  // ---------------------------------------------------------------------------
  // Bounded transitions
  // ---------------------------------------------------------------------------

  /** How many steps of the run changed the status of k. */
  ghost function Transitions(plan: Plan, start: Time, run: seq<Timed>, k: Key): nat
    requires ValidPlan(plan) && k in plan.edges
  {
    if run == [] then 0
    else
      var front := run[..|run| - 1];
      Transitions(plan, start, front, k) +
      if Run(plan, start, front).nodes[k].status == Run(plan, start, run).nodes[k].status then 0 else 1
  }

  /** Each generation of a node makes at most three transitions, and a reset adds one. */
  lemma {:induction false} TransitionsAreBounded(plan: Plan, start: Time, run: seq<Timed>, k: Key)
    requires ValidPlan(plan) && k in plan.edges
    ensures var n := Run(plan, start, run).nodes;
            k in n && Transitions(plan, start, run, k) + Rank(n[k].status) + 1 <= 4 * n[k].generation
  {
    hide Inv, Step;
    if run == [] {
      StartGenerations(plan, start, k);
    } else {
      var front, last := run[..|run| - 1], run[|run| - 1];
      TransitionsAreBounded(plan, start, front, k);
      StepEvolves(plan, Run(plan, start, front), last.event, last.at);
    }
  }

  lemma FreshIsSound(plan: Plan)
    requires ValidPlan(plan)
    ensures Base(plan, Fresh(plan)) && Advances(Fresh(plan), Fresh(plan))
  {
  }

  lemma StartGenerations(plan: Plan, start: Time, k: Key)
    requires ValidPlan(plan) && k in plan.edges
    ensures k in Start(plan, start).nodes && Start(plan, start).nodes[k].generation == 1
  {
    hide MaybeSettle, DispatchFrontier, OncePerGeneration, Causal;
    var g := Fresh(plan);
    FreshIsSound(plan);
    AdvanceAdvances(plan, g, g, start);
  }

  // ---------------------------------------------------------------------------
  // Generations
  // ---------------------------------------------------------------------------

  /** Each generation of a node creates at most one task and records at most one outcome. */
  lemma OneTaskOneOutcome(plan: Plan, start: Time, run: seq<Timed>)
    requires ValidPlan(plan)
    ensures var g := Run(plan, start, run);
            && (forall t, u :: 0 <= t < u < |g.tasks| ==>
                                 g.tasks[t].key != g.tasks[u].key || g.tasks[t].generation != g.tasks[u].generation)
            && (forall i, j :: 0 <= i < j < |g.log| ==>
                                 g.log[i].key != g.log[j].key || g.log[i].generation != g.log[j].generation)
            && (forall k :: k in g.nodes && g.nodes[k].task.Some? ==>
                              && g.nodes[k].task.value < |g.tasks|
                              && g.tasks[g.nodes[k].task.value] == TaskRow(k, g.nodes[k].generation))
  {
    hide Run, Causal, Decided, Outboxed;
    var g := Run(plan, start, run);
    forall k | k in g.nodes && g.nodes[k].task.Some?
      ensures g.nodes[k].task.value < |g.tasks|
      ensures g.tasks[g.nodes[k].task.value] == TaskRow(k, g.nodes[k].generation)
    {
      assert NodeSound(g.nodes, g.tasks, k);
    }
  }

  /**
   What a completion records. A task that has not finished is no news at all; a finished one
   gives the unsettled node it is bound to its own outcome, and no other task's.
   */
  lemma CompletionMeans(plan: Plan, g: Graph, t: TaskId, status: TaskStatus, now: Time)
    requires Inv(plan, g) && t < |g.tasks|
    ensures var h, k := Complete(plan, g, t, status, now), g.tasks[t].key;
            && k in g.nodes && k in h.nodes
            && (status == TaskPending || status == TaskRunning ==> h == g)
            && (status != TaskPending && status != TaskRunning && g.nodes[k].task == Some(t) && !g.nodes[k].settled ==>
                  && h.nodes[k].settled && h.nodes[k].task == Some(t) && h.nodes[k].generation == g.nodes[k].generation
                  && h.nodes[k].status == (if status == TaskSucceeded then Succeeded else Failed)
                  && h.log == g.log + [Recorded(k, g.nodes[k].generation, h.nodes[k].status)])
  {
    hide MaybeSettle, DispatchFrontier, Causal, OncePerGeneration, Decided, Outboxed, RowsSound, Layered;
    TaskIsSound(g.nodes, g.tasks, g.log, t);
    var k := g.tasks[t].key;
    if OutcomeOf(status).Some? && g.nodes[k].task == Some(t) && !g.nodes[k].settled {
      NodeIsSound(g.nodes, g.tasks, g.log, k);
      var r := RecordOutcome(g, k, OutcomeOf(status).value);
      RecordKeepsBase(plan, g, k, OutcomeOf(status).value);
      if g.status == GraphRunning {
        AdvanceAdvances(plan, r, r, now);
        AdvanceLogsNothing(plan, r, now);
      }
    }
  }

  lemma AdvanceLogsNothing(plan: Plan, g: Graph, now: Time)
    requires Base(plan, g) && g.status == GraphRunning
    ensures MaybeSettle(plan, DispatchFrontier(plan, g), now).log == g.log
  {
    hide DispatchFrontier, MaybeSettle, RowsSound, Causal, OncePerGeneration;
    FrontierReleases(plan, g);
  }

  /** Routing this task's completion can change nothing any more. */
  ghost predicate Spent(g: Graph, t: TaskId) {
    && t < |g.tasks|
    && g.tasks[t].key in g.nodes
    && (g.nodes[g.tasks[t].key].task != Some(t) || g.nodes[g.tasks[t].key].settled)
  }

  /** A superseded or repeated completion leaves the whole graph as it was. */
  lemma SpentChangesNothing(plan: Plan, g: Graph, t: TaskId, status: TaskStatus, now: Time)
    requires Spent(g, t)
    ensures Complete(plan, g, t, status, now) == g
  {
  }

  /** The first routing of a finished task spends it. */
  lemma RoutingSpends(plan: Plan, g: Graph, t: TaskId, status: TaskStatus, now: Time)
    requires Inv(plan, g) && t < |g.tasks| && OutcomeOf(status).Some?
    ensures Spent(Complete(plan, g, t, status, now), t)
  {
    hide MaybeSettle, DispatchFrontier, Causal, OncePerGeneration, Decided, Outboxed, RowsSound, Layered;
    TaskIsSound(g.nodes, g.tasks, g.log, t);
    if !Spent(g, t) {
      NodeIsSound(g.nodes, g.tasks, g.log, g.tasks[t].key);
      var k, outcome := g.tasks[t].key, OutcomeOf(status).value;
      RecordKeepsBase(plan, g, k, outcome);
      if g.status == GraphRunning {
        AdvanceAdvances(plan, RecordOutcome(g, k, outcome), RecordOutcome(g, k, outcome), now);
      }
    }
  }

  /** Nothing that happens later revives a spent completion. */
  lemma SpentStaysSpent(plan: Plan, g: Graph, e: Event, now: Time, t: TaskId)
    requires Inv(plan, g) && Spent(g, t)
    ensures Spent(Step(plan, g, e, now), t)
  {
    hide Decided, Outboxed, Base, Step;
    RowsOf(plan, g);
    StepEvolves(plan, g, e, now);
    var h := Step(plan, g, e, now);
    var k := g.tasks[t].key;
    assert h.tasks[t] == g.tasks[t];
    assert || NodeAdvances(g.nodes[k], h.nodes[k], |g.tasks|)
           || NodeRestarts(g.nodes[k], h.nodes[k], |g.tasks|)
           || NodePublishes(g.nodes[k], h.nodes[k]);
  }

  /** Replay idempotence: once routed, a completion is inert for the rest of every run. */
  lemma {:induction false} ReplayIsInert(plan: Plan, start: Time, run: seq<Timed>, i: nat, t: TaskId, status: TaskStatus, now: Time)
    requires ValidPlan(plan) && i < |run|
    requires run[i].event.CompleteTask? && run[i].event.task == t && OutcomeOf(run[i].event.status).Some?
    requires t < |Run(plan, start, run[..i]).tasks|
    ensures Spent(Run(plan, start, run), t)
    ensures Complete(plan, Run(plan, start, run), t, status, now) == Run(plan, start, run)
    decreases |run|
  {
    hide Complete, Inv, Spent;
    var front, last := run[..|run| - 1], run[|run| - 1];
    if i == |run| - 1 {
      RoutingSpends(plan, Run(plan, start, front), t, last.event.status, last.at);
    } else {
      assert front[..i] == run[..i];
      ReplayIsInert(plan, start, front, i, t, status, now);
      SpentStaysSpent(plan, Run(plan, start, front), last.event, last.at, t);
    }
    SpentChangesNothing(plan, Run(plan, start, run), t, status, now);
  }

  /** The i-th event of the run is a publication for node k, and it is accepted. */
  ghost predicate PublishedAt(plan: Plan, start: Time, run: seq<Timed>, i: nat, k: Key)
    requires ValidPlan(plan) && i < |run|
  {
    var g, e := Run(plan, start, run[..i]), run[i].event;
    && e.PublishReceipt?
    && e.task < |g.tasks| && g.tasks[e.task].key == k
    && Publish(g, e.task, e.attempt, e.succeeds).Ok?
  }

  /** The generation node k is in when the i-th event arrives. */
  ghost function GenerationAt(plan: Plan, start: Time, run: seq<Timed>, i: nat, k: Key): nat
    requires ValidPlan(plan) && i <= |run|
  {
    var n := Run(plan, start, run[..i]).nodes;
    if k in n then n[k].generation else 0
  }

  /** Node k's current generation has published somewhere in the run. */
  ghost predicate HasPublished(plan: Plan, start: Time, run: seq<Timed>, k: Key)
    requires ValidPlan(plan)
  {
    exists i :: 0 <= i < |run| && PublishedAt(plan, start, run, i, k) &&
                GenerationAt(plan, start, run, i, k) == GenerationAt(plan, start, run, |run|, k)
  }

  /** What one event does to a receipt: written by an accepted publication, dropped with its generation. */
  lemma ReceiptAfter(plan: Plan, g: Graph, e: Event, now: Time, k: Key)
    requires Inv(plan, g) && k in g.nodes
    ensures var h := Step(plan, g, e, now);
            var accepted := e.PublishReceipt? && e.task < |g.tasks| && g.tasks[e.task].key == k &&
                            Publish(g, e.task, e.attempt, e.succeeds).Ok?;
            && k in h.nodes && h.nodes[k].generation >= g.nodes[k].generation
            && (h.nodes[k].receipt.Some? <==>
                  accepted || (g.nodes[k].receipt.Some? && h.nodes[k].generation == g.nodes[k].generation))
            && (accepted ==> h.nodes[k].generation == g.nodes[k].generation && g.nodes[k].receipt.None?
                             && h.nodes[k].receipt == Some(e.attempt))
  {
    hide Inv, Complete, Skip, Approve, Reject, Cancel, Resume, RerunSet;
    StepEvolves(plan, g, e, now);
    RowsOf(plan, g);
    if e.PublishReceipt? {
      assert Step(plan, g, e, now) == Kept(g, Publish(g, e.task, e.attempt, e.succeeds));
    } else if e.ResumeGraph? {
      ResumeWritesNoReceipt(plan, g, e.named, now, k);
    }
  }

  lemma ResumeWritesNoReceipt(plan: Plan, g: Graph, named: Option<seq<Key>>, now: Time, k: Key)
    requires Inv(plan, g) && k in g.nodes
    ensures var h := Step(plan, g, ResumeGraph(named), now);
            k in h.nodes && (h.nodes[k].receipt.Some? <==>
                               g.nodes[k].receipt.Some? && h.nodes[k].generation == g.nodes[k].generation)
  {
    hide Inv, Resume, RerunSet;
    RowsOf(plan, g);
    if Resume(plan, g, named, now).Ok? {
      ResumeEvolves(plan, g, named, now);
    }
  }

  /** Adding an event keeps what was published, until the generation moves on. */
  lemma HistoryGrows(plan: Plan, start: Time, run: seq<Timed>, k: Key)
    requires ValidPlan(plan) && run != []
    ensures var front := run[..|run| - 1];
            && (forall i :: 0 <= i < |front| ==>
                              && (PublishedAt(plan, start, run, i, k) <==> PublishedAt(plan, start, front, i, k))
                              && GenerationAt(plan, start, run, i, k) == GenerationAt(plan, start, front, i, k))
            && GenerationAt(plan, start, run, |front|, k) == GenerationAt(plan, start, front, |front|, k)
  {
    hide Run, Publish;
    var front := run[..|run| - 1];
    forall i | 0 <= i <= |front|
      ensures front[..i] == run[..i] && (i < |front| ==> front[i] == run[i])
    {
    }
  }

  /** Over whole runs the receipt is there exactly when the current generation has published. */
  lemma {:induction false} ReceiptIffPublished(plan: Plan, start: Time, run: seq<Timed>, k: Key)
    requires ValidPlan(plan) && k in plan.edges
    ensures k in Run(plan, start, run).nodes
    ensures Run(plan, start, run).nodes[k].receipt.Some? <==> HasPublished(plan, start, run, k)
  {
    hide Inv, Run, Step, Publish, PublishedAt, GenerationAt, HasPublished;
    RunKeys(plan, start, run);
    if run == [] {
      StartsTheRun(plan, start);
      StartHasNoReceipt(plan, start, k);
      NothingPublished(plan, start, k);
    } else {
      var front, last := run[..|run| - 1], run[|run| - 1];
      RunKeys(plan, start, front);
      ReceiptIffPublished(plan, start, front, k);
      GenerationsOnlyGrow(plan, start, front, k);
      HistoryGrows(plan, start, run, k);
      ReceiptAfter(plan, Run(plan, start, front), last.event, last.at, k);
      LastEvent(plan, start, run, k);
      PublishedNext(plan, start, run, k);
    }
  }

  /** And it names the attempt whose publication that was. */
  lemma {:induction false} ReceiptNamesItsPublisher(plan: Plan, start: Time, run: seq<Timed>, i: nat, k: Key)
    requires ValidPlan(plan) && k in plan.edges && i < |run| && PublishedAt(plan, start, run, i, k)
    requires GenerationAt(plan, start, run, i, k) == GenerationAt(plan, start, run, |run|, k)
    ensures k in Run(plan, start, run).nodes
    ensures Run(plan, start, run).nodes[k].receipt == Some(run[i].event.attempt)
    decreases |run|
  {
    hide Inv, Run, Step, Publish, PublishedAt, GenerationAt, HasPublished;
    var n := |run| - 1;
    var front, last := run[..n], run[n];
    RunKeys(plan, start, front);
    RunKeys(plan, start, run);
    LastEvent(plan, start, run, k);
    var g := Run(plan, start, front);
    ReceiptAfter(plan, g, last.event, last.at, k);
    if i < n {
      HistoryGrows(plan, start, run, k);
      GenerationsOnlyGrow(plan, start, front, k);
      GenerationsOnlyGrow(plan, start, run, k);
      ReceiptNamesItsPublisher(plan, start, front, i, k);
      ReceiptsLast(plan, g, last.event, last.at, k);
    }
  }

  lemma StartsTheRun(plan: Plan, start: Time)
    requires ValidPlan(plan)
    ensures Run(plan, start, []) == Start(plan, start)
  {
  }

  /** The last event of a run, seen from the graph it meets. */
  lemma LastEvent(plan: Plan, start: Time, run: seq<Timed>, k: Key)
    requires ValidPlan(plan) && k in plan.edges && run != []
    ensures var g, h, last := Run(plan, start, run[..|run| - 1]), Run(plan, start, run), run[|run| - 1];
            && h == Step(plan, g, last.event, last.at)
            && k in g.nodes && GenerationAt(plan, start, run, |run| - 1, k) == g.nodes[k].generation
            && k in h.nodes && GenerationAt(plan, start, run, |run|, k) == h.nodes[k].generation
            && (PublishedAt(plan, start, run, |run| - 1, k) <==>
                  && last.event.PublishReceipt? && last.event.task < |g.tasks| && g.tasks[last.event.task].key == k
                  && Publish(g, last.event.task, last.event.attempt, last.event.succeeds).Ok?)
  {
    hide Inv, Step, Publish;
    RunKeys(plan, start, run[..|run| - 1]);
    RunKeys(plan, start, run);
    assert run[..|run|] == run;
  }

  lemma NothingPublished(plan: Plan, start: Time, k: Key)
    requires ValidPlan(plan)
    ensures !HasPublished(plan, start, [], k)
  {
  }

  lemma RunKeys(plan: Plan, start: Time, run: seq<Timed>)
    requires ValidPlan(plan)
    ensures Run(plan, start, run).nodes.Keys == plan.edges.Keys
  {
    hide Run, RowsSound, Causal, OncePerGeneration, Decided, Outboxed;
    assert Inv(plan, Run(plan, start, run));
  }

  lemma StartHasNoReceipt(plan: Plan, start: Time, k: Key)
    requires ValidPlan(plan) && k in plan.edges
    ensures k in Start(plan, start).nodes && Start(plan, start).nodes[k].receipt.None?
  {
    hide MaybeSettle, DispatchFrontier, OncePerGeneration, Causal;
    FreshIsSound(plan);
    AdvanceAdvances(plan, Fresh(plan), Fresh(plan), start);
  }

  /** Generations never go back. */
  lemma {:induction false} GenerationsOnlyGrow(plan: Plan, start: Time, run: seq<Timed>, k: Key)
    requires ValidPlan(plan) && k in plan.edges
    ensures forall i :: 0 <= i <= |run| ==>
                          GenerationAt(plan, start, run, i, k) <= GenerationAt(plan, start, run, |run|, k)
  {
    hide Inv, Step, Publish;
    if run != [] {
      var front, last := run[..|run| - 1], run[|run| - 1];
      GenerationsOnlyGrow(plan, start, front, k);
      HistoryGrows(plan, start, run, k);
      RunKeys(plan, start, front);
      ReceiptAfter(plan, Run(plan, start, front), last.event, last.at, k);
      assert run[..|run|] == run;
    }
  }

  /** One event more: it published itself, or the generation that did is still the current one. */
  lemma PublishedNext(plan: Plan, start: Time, run: seq<Timed>, k: Key)
    requires ValidPlan(plan) && k in plan.edges && run != []
    requires GenerationAt(plan, start, run, |run| - 1, k) <= GenerationAt(plan, start, run, |run|, k)
    requires forall i :: 0 <= i < |run| ==>
                           GenerationAt(plan, start, run, i, k) <= GenerationAt(plan, start, run, |run| - 1, k)
    requires PublishedAt(plan, start, run, |run| - 1, k) ==>
               GenerationAt(plan, start, run, |run| - 1, k) == GenerationAt(plan, start, run, |run|, k)
    ensures HasPublished(plan, start, run, k) <==>
            || PublishedAt(plan, start, run, |run| - 1, k)
            || (HasPublished(plan, start, run[..|run| - 1], k) &&
                GenerationAt(plan, start, run, |run| - 1, k) == GenerationAt(plan, start, run, |run|, k))
  {
    hide PublishedAt, GenerationAt;
    HistoryGrows(plan, start, run, k);
  }

  /**
   Publication authority in every reachable state: accepted exactly when the body succeeds,
   the task is the one its node is bound to, and no event of the run has published for the
   node in its current generation.
   */
  lemma PublicationAuthority(plan: Plan, start: Time, run: seq<Timed>, t: TaskId, attempt: AttemptId, succeeds: bool)
    requires ValidPlan(plan) && t < |Run(plan, start, run).tasks|
    ensures var g := Run(plan, start, run);
            var k := g.tasks[t].key;
            && k in g.nodes
            && (Publish(g, t, attempt, succeeds).Ok? <==>
                  succeeds && g.nodes[k].task == Some(t) && !HasPublished(plan, start, run, k))
  {
    hide Run, HasPublished, Causal, OncePerGeneration, Decided, Outboxed;
    var g := Run(plan, start, run);
    assert Inv(plan, g);
    TaskIsSound(g.nodes, g.tasks, g.log, t);
    RunKeys(plan, start, run);
    ReceiptIffPublished(plan, start, run, g.tasks[t].key);
  }

  /** Any two accepted publications of one node in one run are of different generations. */
  lemma PublishedOncePerGeneration(plan: Plan, start: Time, run: seq<Timed>, i: nat, j: nat, k: Key)
    requires ValidPlan(plan) && i < j < |run|
    requires PublishedAt(plan, start, run, i, k) && PublishedAt(plan, start, run, j, k)
    ensures GenerationAt(plan, start, run, i, k) < GenerationAt(plan, start, run, j, k)
  {
    hide Run, Publish, HasPublished;
    var before, e := run[..j], run[j].event;
    assert before[..i] == run[..i] && before[i] == run[i] && before[..j] == before;
    PublicationAuthority(plan, start, before, e.task, e.attempt, e.succeeds);
    RunKeys(plan, start, before);
    GenerationsOnlyGrow(plan, start, before, k);
    assert PublishedAt(plan, start, before, i, k);
    if GenerationAt(plan, start, before, i, k) == GenerationAt(plan, start, before, j, k) {
      Witnessed(plan, start, before, i, k);
    }
  }

  lemma Witnessed(plan: Plan, start: Time, run: seq<Timed>, i: nat, k: Key)
    requires ValidPlan(plan) && i < |run| && PublishedAt(plan, start, run, i, k)
    requires GenerationAt(plan, start, run, i, k) == GenerationAt(plan, start, run, |run|, k)
    ensures HasPublished(plan, start, run, k)
  {
  }

  /** A receipt lasts as long as the generation that published it. */
  lemma ReceiptsLast(plan: Plan, g: Graph, e: Event, now: Time, k: Key)
    requires Inv(plan, g) && k in g.nodes && g.nodes[k].receipt.Some?
    ensures var n := Step(plan, g, e, now).nodes;
            k in n && (n[k].receipt == g.nodes[k].receipt || (n[k].generation > g.nodes[k].generation && n[k].receipt.None?))
  {
    hide Inv, Step;
    StepEvolves(plan, g, e, now);
  }

  /**
   A rejection cancels its node and nothing else. Once nothing runs the graph is settled:
   FAILED where some node failed, and otherwise CANCELLED, which no resume reopens.
   */
  lemma RejectSettles(plan: Plan, g: Graph, k: Key, now: Time)
    requires Inv(plan, g) && Reject(plan, g, k, now).Ok?
    ensures var h := Reject(plan, g, k, now).value;
            && h.nodes == g.nodes[k := g.nodes[k].(status := Cancelled, settled := true)]
            && h.tasks == g.tasks
            && h.status == (if Has(g.nodes, Running) then GraphRunning
                            else if Has(g.nodes, Failed) then GraphFailed else GraphCancelled)
            && (h.settledAt.Some? <==> !Has(g.nodes, Running))
  {
    hide RowsSound, OncePerGeneration, Causal, MaybeSettle, ValidPlan, Outboxed, NothingReady;
    var n := g.nodes[k].(status := Cancelled, settled := true);
    var h := g.(nodes := g.nodes[k := n], status := GraphRunning);
    NothingBecomesReady(plan, g.nodes, h.nodes);
    hide Decided, Has;
    SettlingShowsVerdict(plan, h, now);
    RejectKeeps(plan, g, k, now);
    RowsOf(plan, Reject(plan, g, k, now).value);
    OneNodeRejected(g.nodes, k, n);
  }

  lemma OneNodeRejected(nodes: map<Key, Node>, k: Key, n: Node)
    requires k in nodes && nodes[k].status == Waiting && n.status == Cancelled
    ensures var after := nodes[k := n];
            && (Has(after, Running) <==> Has(nodes, Running))
            && (Has(after, Failed) <==> Has(nodes, Failed))
            && Has(after, Cancelled)
  {
    var after := nodes[k := n];
    assert k in after && after[k].status == Cancelled;
    if Has(nodes, Running) {
      var r :| r in nodes && nodes[r].status == Running;
      assert r in after && after[r].status == Running;
    }
    if Has(nodes, Failed) {
      var f :| f in nodes && nodes[f].status == Failed;
      assert f in after && after[f].status == Failed;
    }
  }

  // ---------------------------------------------------------------------------
  // What each decision needs, and does
  // ---------------------------------------------------------------------------

  /** A skip needs a running graph and a pending node; the node is then SKIPPED for good, without a task. */
  lemma SkipMeans(plan: Plan, g: Graph, k: Key, now: Time)
    requires Inv(plan, g)
    ensures Skip(plan, g, k, now).Ok? <==> g.status == GraphRunning && k in g.nodes && g.nodes[k].status == Pending
    ensures Skip(plan, g, k, now).Ok? ==>
              var h := Skip(plan, g, k, now).value;
              k in h.nodes && h.nodes[k] == g.nodes[k].(status := Skipped, settled := true) && h.log == g.log
  {
    hide RowsSound, Layered, MaybeSettle, DispatchFrontier, Causal, OncePerGeneration, Decided, Outboxed;
    if Skip(plan, g, k, now).Ok? {
      NodeIsSound(g.nodes, g.tasks, g.log, k);
      var n := g.nodes[k].(status := Skipped, settled := true);
      var s := g.(nodes := g.nodes[k := n]);
      NodeChangeKeepsBase(plan, g, k, n);
      AdvanceTouches(plan, s, k, now);
      AdvanceLogsNothing(plan, s, now);
    }
  }

  /** An approval needs an open graph and a parked node, and gives that node a fresh task and no other anything. */
  lemma ApproveMeans(plan: Plan, g: Graph, k: Key)
    requires Inv(plan, g)
    ensures Approve(plan, g, k).Ok? <==> g.settledAt.None? && k in g.nodes && g.nodes[k].status == Waiting
    ensures Approve(plan, g, k).Ok? ==>
              var h := Approve(plan, g, k).value;
              && h.status == GraphRunning
              && h.tasks == g.tasks + [TaskRow(k, g.nodes[k].generation)]
              && h.nodes == g.nodes[k := g.nodes[k].(status := Running, task := Some(|g.tasks|))]
              && h == g.(status := h.status, tasks := h.tasks, nodes := h.nodes)
  {
    hide RowsSound, OncePerGeneration, Causal, Outboxed, ValidPlan, NothingReady;
    RowsOf(plan, g);
  }

  /** A rejection is accepted where an approval is. */
  lemma RejectIsAccepted(plan: Plan, g: Graph, k: Key, now: Time)
    requires Inv(plan, g)
    ensures Reject(plan, g, k, now).Ok? <==> Approve(plan, g, k).Ok?
  {
    hide Inv, MaybeSettle;
  }

  /** A cancel is refused once the graph has settled; otherwise the graph is CANCELLED at once and its nodes left. */
  lemma CancelMeans(plan: Plan, g: Graph, now: Time)
    requires Inv(plan, g)
    ensures Cancel(plan, g, now).Ok? <==> g.settledAt.None?
    ensures Cancel(plan, g, now).Ok? ==>
              var h := Cancel(plan, g, now).value;
              && h.status == GraphCancelled && h.settledAt == Some(now)
              && h.nodes == g.nodes && h.tasks == g.tasks && h.log == g.log && h.generation == g.generation
  {
    hide RowsSound, OncePerGeneration, Causal, Outboxed, Decided;
    RowsOf(plan, g);
  }

  /**
   A resume needs a settled graph that was not cancelled, names for one that succeeded, known
   ones if any, and something to run again; the graph is then in its next generation.
   */
  lemma ResumeIsAcceptedIff(plan: Plan, g: Graph, named: Option<seq<Key>>, now: Time)
    requires Inv(plan, g)
    ensures Rows(plan, g)
    ensures Resume(plan, g, named, now).Ok? <==>
            && (g.status == GraphFailed || g.status == GraphSucceeded)
            && (g.status == GraphSucceeded ==> named.Some? && named.value != [])
            && (named.Some? ==> forall k :: k in named.value ==> k in g.nodes)
            && exists k :: k in RerunSet(plan, g, named)
    ensures Resume(plan, g, named, now).Ok? ==>
              var h := Resume(plan, g, named, now).value;
              h.generation == g.generation + 1 && (h.settledAt.Some? ==> h.settledAt == Some(now))
  {
    hide RowsSound, OncePerGeneration, Causal, Outboxed, Decided, RerunSet, MaybeSettle, DispatchFrontier, Layered;
    RowsOf(plan, g);
    if Resume(plan, g, named, now).Ok? {
      var r := Reset(g, RerunSet(plan, g, named));
      assert RecordSettlement(plan, g) == g by { RecordedAlready(plan, g); }
      FrontierSettlesNothing(plan, r);
      SettlesNow(plan, DispatchFrontier(plan, r), now);
    }
  }

  lemma RecordedAlready(plan: Plan, g: Graph)
    requires Inv(plan, g) && g.settledAt.Some?
    ensures RecordSettlement(plan, g) == g
  {
    hide RowsSound, OncePerGeneration, Causal, Decided;
  }

  lemma FrontierSettlesNothing(plan: Plan, g: Graph)
    requires g.nodes.Keys == plan.edges.Keys && ValidPlan(plan)
    ensures DispatchFrontier(plan, g).settledAt == g.settledAt && DispatchFrontier(plan, g).generation == g.generation
  {
    hide Ready, Layered;
    if g.status == GraphRunning {
      FrontierReleases(plan, g);
    }
  }

  lemma SettlesNow(plan: Plan, g: Graph, now: Time)
    ensures var h := MaybeSettle(plan, g, now); h.settledAt == g.settledAt || h.settledAt == Some(now)
  {
    hide ReadyNodes, Has;
  }

  // ---------------------------------------------------------------------------
  // Gates
  // ---------------------------------------------------------------------------

  /** No task for a gated node but by its approval, and nobody parks but at a gate. */
  ghost predicate GatesObeyed(plan: Plan, g: Graph, h: Graph, approved: Option<Key>) {
    && |g.tasks| <= |h.tasks|
    && (forall t :: |g.tasks| <= t < |h.tasks| && h.tasks[t].key in plan.gated ==> approved == Some(h.tasks[t].key))
    && (forall k :: k in h.nodes && h.nodes[k].status == Waiting ==>
                      k in plan.gated || (k in g.nodes && g.nodes[k].status == Waiting))
  }

  function Approved(e: Event): Option<Key> {
    if e.ApproveNode? then Some(e.key) else None
  }

  /** The frontier parks the gated nodes it reaches and gives tasks to the others. */
  lemma FrontierObeysGates(plan: Plan, g: Graph)
    requires Base(plan, g) && g.status == GraphRunning
    ensures GatesObeyed(plan, g, DispatchFrontier(plan, g), None)
  {
    hide DispatchFrontier, RowsSound, Causal, OncePerGeneration, Layered, Ready;
    FrontierReleases(plan, g);
    var h, ready := DispatchFrontier(plan, g), ReadyNodes(plan.edges, g.nodes, plan.order);
    forall t | |g.tasks| <= t < |h.tasks|
      ensures h.tasks[t].key !in plan.gated
    {
      assert TaskReleased(plan, g, h, ready, t);
    }
    forall k | k in h.nodes && h.nodes[k].status == Waiting
      ensures k in plan.gated || g.nodes[k].status == Waiting
    {
      assert NodeReleased(plan, g, h, ready, k);
    }
  }

  lemma AdvanceObeysGates(plan: Plan, g: Graph, x: Graph, now: Time)
    requires Base(plan, x) && x.status == GraphRunning && x.tasks == g.tasks
    requires forall k :: k in x.nodes && x.nodes[k].status == Waiting ==> k in g.nodes && g.nodes[k].status == Waiting
    ensures GatesObeyed(plan, g, MaybeSettle(plan, DispatchFrontier(plan, x), now), None)
  {
    hide DispatchFrontier, MaybeSettle, Base;
    FrontierObeysGates(plan, x);
  }

  lemma CompleteObeysGates(plan: Plan, g: Graph, t: TaskId, status: TaskStatus, now: Time)
    requires Inv(plan, g)
    ensures GatesObeyed(plan, g, Complete(plan, g, t, status, now), None)
  {
    hide RowsSound, Layered, MaybeSettle, DispatchFrontier, Causal, OncePerGeneration, Decided, Outboxed, Complete;
    if Complete(plan, g, t, status, now) != g {
      CompletionIsNews(plan, g, t, status, now);
      var k, outcome := g.tasks[t].key, OutcomeOf(status).value;
      RecordKeepsBase(plan, g, k, outcome);
      if g.status == GraphRunning {
        AdvanceObeysGates(plan, g, RecordOutcome(g, k, outcome), now);
      }
    }
  }

  lemma SkipObeysGates(plan: Plan, g: Graph, k: Key, now: Time)
    requires Inv(plan, g) && Skip(plan, g, k, now).Ok?
    ensures GatesObeyed(plan, g, Skip(plan, g, k, now).value, None)
  {
    hide RowsSound, Layered, MaybeSettle, DispatchFrontier, Causal, OncePerGeneration, Decided, Outboxed;
    NodeIsSound(g.nodes, g.tasks, g.log, k);
    var n := g.nodes[k].(status := Skipped, settled := true);
    NodeChangeKeepsBase(plan, g, k, n);
    AdvanceObeysGates(plan, g, g.(nodes := g.nodes[k := n]), now);
  }

  lemma ResumeObeysGates(plan: Plan, g: Graph, named: Option<seq<Key>>, now: Time)
    requires Inv(plan, g) && Resume(plan, g, named, now).Ok?
    ensures GatesObeyed(plan, g, Resume(plan, g, named, now).value, None)
  {
    hide MaybeSettle, DispatchFrontier, Causal, OncePerGeneration, Decided, RerunSet, RowsSound;
    var r := Reset(g, RerunSet(plan, g, named));
    assert RecordSettlement(plan, g) == g;
    ResetKeepsBase(plan, g, named);
    AdvanceObeysGates(plan, g, r, now);
  }

  lemma SettlingObeysGates(plan: Plan, g: Graph, x: Graph, now: Time)
    requires x.tasks == g.tasks
    requires forall k :: k in x.nodes && x.nodes[k].status == Waiting ==> k in g.nodes && g.nodes[k].status == Waiting
    ensures GatesObeyed(plan, g, MaybeSettle(plan, x, now), None)
  {
    hide MaybeSettle;
  }

  lemma StepObeysGates(plan: Plan, g: Graph, e: Event, now: Time)
    requires Inv(plan, g)
    ensures GatesObeyed(plan, g, Step(plan, g, e, now), Approved(e))
  {
    hide Inv, Complete, Skip, Resume, RerunSet, MaybeSettle, Publish;
    RowsOf(plan, g);
    match e
    case CompleteTask(t, status) => CompleteObeysGates(plan, g, t, status, now);
    case SkipNode(k) => if Skip(plan, g, k, now).Ok? { SkipObeysGates(plan, g, k, now); }
    case ApproveNode(k) =>
    case RejectNode(k) =>
      if Reject(plan, g, k, now).Ok? {
        var x := g.(nodes := g.nodes[k := g.nodes[k].(status := Cancelled, settled := true)]);
        SettlingObeysGates(plan, g, x.(status := GraphRunning), now);
      }
    case CancelGraph =>
    case ResumeGraph(named) => if Resume(plan, g, named, now).Ok? { ResumeObeysGates(plan, g, named, now); }
    case PublishReceipt(t, a, succeeds) => PublishingObeysGates(plan, g, t, a, succeeds);
  }

  lemma PublishingObeysGates(plan: Plan, g: Graph, t: TaskId, attempt: AttemptId, succeeds: bool)
    ensures GatesObeyed(plan, g, Kept(g, Publish(g, t, attempt, succeeds)), None)
  {
  }

  lemma StartObeysGates(plan: Plan, start: Time)
    requires ValidPlan(plan)
    ensures GatesObeyed(plan, Fresh(plan), Start(plan, start), None)
    ensures Fresh(plan).tasks == [] && !Has(Fresh(plan).nodes, Waiting)
  {
    hide MaybeSettle, DispatchFrontier, Layered;
    FreshIsSound(plan);
    AdvanceObeysGates(plan, Fresh(plan), Fresh(plan), start);
  }

  /** The event of the run that approved task t into being. */
  ghost predicate ApprovedAt(plan: Plan, start: Time, run: seq<Timed>, i: nat, t: TaskId, k: Key)
    requires ValidPlan(plan)
  {
    i < |run| && run[i].event == ApproveNode(k) && |Run(plan, start, run[..i]).tasks| == t
  }

  /** Over whole runs, resumes included: every task of a gated node was created by an approval of that node. */
  lemma {:induction false} GatedNodesAreApproved(plan: Plan, start: Time, run: seq<Timed>, t: TaskId)
    requires ValidPlan(plan) && t < |Run(plan, start, run).tasks| && Run(plan, start, run).tasks[t].key in plan.gated
    ensures exists i :: ApprovedAt(plan, start, run, i, t, Run(plan, start, run).tasks[t].key)
  {
    hide Inv, Step, Start, GatesObeyed;
    var h := Run(plan, start, run);
    var k := h.tasks[t].key;
    if run == [] {
      StartObeysGates(plan, start);
      NoTaskOfAGate(plan, Fresh(plan), h, None, t);
    } else {
      var n := |run| - 1;
      var front, last := run[..n], run[n];
      var g := Run(plan, start, front);
      StepEvolves(plan, g, last.event, last.at);
      StepObeysGates(plan, g, last.event, last.at);
      if t < |g.tasks| {
        GatedNodesAreApproved(plan, start, front, t);
        var i: nat :| ApprovedAt(plan, start, front, i, t, k);
        assert front[..i] == run[..i] && front[i] == run[i];
        assert ApprovedAt(plan, start, run, i, t, k);
      } else {
        NoTaskOfAGate(plan, g, h, Approved(last.event), t);
        ApprovalAddsOne(plan, g, last.event, last.at);
        assert ApprovedAt(plan, start, run, n, t, k);
      }
    }
  }

  lemma NoTaskOfAGate(plan: Plan, g: Graph, h: Graph, approved: Option<Key>, t: TaskId)
    requires GatesObeyed(plan, g, h, approved) && |g.tasks| <= t < |h.tasks| && h.tasks[t].key in plan.gated
    ensures approved == Some(h.tasks[t].key)
  {
  }

  lemma ApprovalAddsOne(plan: Plan, g: Graph, e: Event, now: Time)
    requires Inv(plan, g) && e.ApproveNode?
    ensures Rows(plan, g) && |Step(plan, g, e, now).tasks| <= |g.tasks| + 1
  {
    hide RowsSound, OncePerGeneration, Causal, Outboxed, Decided;
  }

  /** And over whole runs only gated nodes ever wait for a decision. */
  lemma {:induction false} WaitingIsGated(plan: Plan, start: Time, run: seq<Timed>, k: Key)
    requires ValidPlan(plan) && k in plan.edges
    ensures k in Run(plan, start, run).nodes
    ensures Run(plan, start, run).nodes[k].status == Waiting ==> k in plan.gated
  {
    hide Inv, Step, Start;
    RunKeys(plan, start, run);
    if run == [] {
      StartObeysGates(plan, start);
    } else {
      var front, last := run[..|run| - 1], run[|run| - 1];
      WaitingIsGated(plan, start, front, k);
      StepObeysGates(plan, Run(plan, start, front), last.event, last.at);
    }
  }

  // ---------------------------------------------------------------------------
  // Resume
  // ---------------------------------------------------------------------------

  /** A resume leaves every node that ran and is not re-run exactly as it was. */
  lemma ResumeKeepsTheRest(plan: Plan, g: Graph, named: Option<seq<Key>>, now: Time, k: Key)
    requires Inv(plan, g) && Resume(plan, g, named, now).Ok? && k in g.nodes
    ensures var n := Resume(plan, g, named, now).value.nodes;
            && k in n
            && (k in RerunSet(plan, g, named) ==>
                  && n[k].generation == g.nodes[k].generation + 1
                  && n[k].receipt.None?
                  && (g.nodes[k].task.Some? ==> n[k].task != g.nodes[k].task))
            && (k !in RerunSet(plan, g, named) ==> n[k].generation == g.nodes[k].generation)
            && (k !in RerunSet(plan, g, named) && g.nodes[k].status != Pending ==> n[k] == g.nodes[k])
  {
    hide Causal, OncePerGeneration, Decided, Outboxed, RerunSet, Resume;
    ResumeEvolves(plan, g, named, now);
    assert NodeSound(g.nodes, g.tasks, k);
    if k !in RerunSet(plan, g, named) && g.nodes[k].status != Pending {
      ResumeSkipsStarted(plan, g, named, now, k);
    }
  }

  lemma ResumeSkipsStarted(plan: Plan, g: Graph, named: Option<seq<Key>>, now: Time, k: Key)
    requires Inv(plan, g) && Resume(plan, g, named, now).Ok? && k in g.nodes
    requires k !in RerunSet(plan, g, named) && g.nodes[k].status != Pending
    ensures var n := Resume(plan, g, named, now).value.nodes; k in n && n[k] == g.nodes[k]
  {
    hide MaybeSettle, DispatchFrontier, Causal, OncePerGeneration, Decided, RowsSound, RerunSet;
    var r := Reset(g, RerunSet(plan, g, named));
    assert RecordSettlement(plan, g) == g;
    ResetKeepsBase(plan, g, named);
    AdvanceTouches(plan, r, k, now);
  }

  /** Upstream of a node that ran, with nothing skipped, everything succeeded. */
  lemma {:induction false} RanAfterSuccess(plan: Plan, g: Graph, p: seq<Key>)
    requires Inv(plan, g) && IsPath(plan.edges, p) && |p| > 1
    requires p[|p| - 1] in g.nodes && g.nodes[p[|p| - 1]].status != Pending
    requires forall k :: k in g.nodes ==> g.nodes[k].status != Skipped
    ensures p[0] in g.nodes && g.nodes[p[0]].status == Succeeded
    decreases |p|
  {
    hide RowsSound, OncePerGeneration, Decided, Outboxed;
    var d, k := p[|p| - 2], p[|p| - 1];
    assert d in After(plan.edges, k) && Met(plan.edges, g.nodes, k);
    if |p| > 2 {
      RanAfterSuccess(plan, g, p[..|p| - 1]);
    }
  }

  /** A default resume re-runs every failed node, and beyond them only what ran downstream of one. */
  lemma DefaultResumeStartsAtFailures(plan: Plan, g: Graph, k: Key)
    requires Inv(plan, g) && k in g.nodes
    ensures g.nodes[k].status == Failed ==> k in RerunSet(plan, g, None)
    ensures k in RerunSet(plan, g, None) && g.nodes[k].status != Failed ==>
              && g.nodes[k].status != Pending
              && exists n :: n in g.nodes && g.nodes[n].status == Failed && Reaches(plan.edges, n, k)
  {
    hide Inv;
    if g.nodes[k].status == Failed {
      ReachesSelf(plan.edges, k);
      assert k in NamedNodes(g, None);
    }
  }

  /** Where nothing was skipped, a default resume re-runs the failed nodes and no other. */
  lemma DefaultResumeRerunsFailures(plan: Plan, g: Graph)
    requires Inv(plan, g) && forall k :: k in g.nodes ==> g.nodes[k].status != Skipped
    ensures RerunSet(plan, g, None) == set k | k in g.nodes && g.nodes[k].status == Failed
  {
    hide Inv;
    forall k | k in RerunSet(plan, g, None)
      ensures g.nodes[k].status == Failed
    {
      var n :| n in NamedNodes(g, None) && Reaches(plan.edges, n, k);
      var p :| PathBetween(plan.edges, p, n, k);
      if |p| > 1 {
        RanAfterSuccess(plan, g, p);
      }
    }
    forall k | k in g.nodes && g.nodes[k].status == Failed
      ensures k in RerunSet(plan, g, None)
    {
      ReachesSelf(plan.edges, k);
      assert k in NamedNodes(g, None);
    }
  }
}
