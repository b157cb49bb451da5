/**
 Completions may arrive in any order, more than once, or too late; a gate-free graph
 whose nodes have fixed outcomes always settles with the same statuses.
 */
module GraphConfluence {
  import opened Topology
  import opened GraphEngine
  import opened GraphInvariants

  /** Whether each node's task succeeds once its retries are over. */
  type Outcomes = map<Key, bool>

  // ---------------------------------------------------------------------------
  // The reference result, which mentions no order of execution
  // ---------------------------------------------------------------------------

  ghost predicate AncestorsSucceed(plan: Plan, o: Outcomes, k: Key) {
    forall a :: a in plan.edges && a != k && Reaches(plan.edges, a, k) ==> a in o && o[a]
  }

  ghost function Expected(plan: Plan, o: Outcomes, k: Key): NodeStatus
    requires k in o
  {
    if !AncestorsSucceed(plan, o, k) then Pending
    else if o[k] then Succeeded
    else Failed
  }

  ghost function ExpectedGraph(plan: Plan, o: Outcomes): GraphStatus
    requires plan.edges.Keys <= o.Keys
  {
    if exists k :: k in plan.edges && Expected(plan, o, k) == Failed then GraphFailed else GraphSucceeded
  }

  // ---------------------------------------------------------------------------
  // Runs of deliveries
  // ---------------------------------------------------------------------------

  /**
   One delivery of a completion. The handler re-reads the task, which may have reached its
   outcome, be running, or not have started; any task id, bound, superseded or unknown, may come.
   */
  datatype Delivery = Delivery(task: TaskId, started: bool, finished: bool, exhausted: bool, at: Time)

  function StatusRead(g: Graph, o: Outcomes, d: Delivery): TaskStatus {
    if !d.started then TaskPending
    else if d.task >= |g.tasks| || g.tasks[d.task].key !in o || !d.finished then TaskRunning
    else if o[g.tasks[d.task].key] then TaskSucceeded
    else if d.exhausted then TaskExhausted
    else TaskFailed
  }

  function Deliver(plan: Plan, o: Outcomes, g: Graph, d: Delivery): Graph {
    Complete(plan, g, d.task, StatusRead(g, o, d), d.at)
  }

  function Run(plan: Plan, o: Outcomes, start: Time, run: seq<Delivery>): Graph {
    if run == [] then Start(plan, start)
    else Deliver(plan, o, Run(plan, o, start, run[..|run| - 1]), run[|run| - 1])
  }

  // ---------------------------------------------------------------------------
  // What every such run keeps
  // ---------------------------------------------------------------------------

  ghost predicate Applicable(plan: Plan, o: Outcomes) {
    ValidPlan(plan) && plan.gated == {} && plan.edges.Keys == o.Keys
  }

  ghost predicate Faithful(o: Outcomes, nodes: map<Key, Node>) {
    forall k :: k in nodes ==>
                  && k in o
                  && (nodes[k].status == Pending || nodes[k].status == Running ||
                      nodes[k].status == Succeeded || nodes[k].status == Failed)
                  && (nodes[k].status == Succeeded ==> o[k])
                  && (nodes[k].status == Failed ==> !o[k])
  }

  ghost predicate OnCourse(plan: Plan, o: Outcomes, g: Graph) {
    Applicable(plan, o) && Inv(plan, g) && g.status != GraphCancelled && Faithful(o, g.nodes)
  }

  lemma FrontierIsFaithful(plan: Plan, o: Outcomes, g: Graph, now: Time)
    requires Applicable(plan, o) && Base(plan, g) && g.status == GraphRunning && Faithful(o, g.nodes)
    ensures var h := MaybeSettle(plan, DispatchFrontier(plan, g), now);
            Faithful(o, h.nodes) && h.status != GraphCancelled
  {
    hide MaybeSettle, DispatchFrontier, ReadyNodes, RowsSound, OncePerGeneration, Causal, NothingReady;
    FrontierReleases(plan, g);
    var h, ready := DispatchFrontier(plan, g), ReadyNodes(plan.edges, g.nodes, plan.order);
    FrontierStatuses(plan, g, h, ready);
    FrontierKeepsBase(plan, g);
    SettlingShowsVerdict(plan, h, now);
    ReleasedIsFaithful(plan, o, g.nodes, h.nodes, ready);
  }

  lemma ReleasedIsFaithful(
    plan: Plan, o: Outcomes, before: map<Key, Node>, after: map<Key, Node>, ready: seq<Key>)
    requires plan.gated == {} && Faithful(o, before) && after.Keys == before.Keys
    requires forall k :: k in before && k !in ready ==> after[k] == before[k]
    requires forall k :: k in ready ==> k in after && after[k].status == (if k in plan.gated then Waiting else Running)
    ensures Faithful(o, after) && Verdict(after) != GraphCancelled
  {
  }

  lemma StartIsOnCourse(plan: Plan, o: Outcomes, now: Time)
    requires Applicable(plan, o)
    ensures OnCourse(plan, o, Start(plan, now))
  {
    hide MaybeSettle, DispatchFrontier, Inv;
    StartKeeps(plan, now);
    FrontierIsFaithful(plan, o, Fresh(plan), now);
  }

  /** What a delivery records is its node's fixed outcome. */
  lemma RecordingIsFaithful(o: Outcomes, g: Graph, d: Delivery)
    requires Faithful(o, g.nodes) && d.task < |g.tasks| && g.tasks[d.task].key in g.nodes
    requires OutcomeOf(StatusRead(g, o, d)).Some?
    ensures Faithful(o, RecordOutcome(g, g.tasks[d.task].key, OutcomeOf(StatusRead(g, o, d)).value).nodes)
  {
  }

  lemma DeliverStaysOnCourse(plan: Plan, o: Outcomes, g: Graph, d: Delivery)
    requires OnCourse(plan, o, g)
    ensures OnCourse(plan, o, Deliver(plan, o, g, d))
  {
    hide Decided, Outboxed, MaybeSettle, DispatchFrontier, Base, Complete, Faithful, ValidPlan;
    var status := StatusRead(g, o, d);
    CompleteKeeps(plan, g, d.task, status, d.at);
    if Deliver(plan, o, g, d) != g {
      CompletionIsNews(plan, g, d.task, status, d.at);
      var k, outcome := g.tasks[d.task].key, OutcomeOf(status).value;
      RecordKeepsBase(plan, g, k, outcome);
      RecordingIsFaithful(o, g, d);
      if g.status == GraphRunning {
        FrontierIsFaithful(plan, o, RecordOutcome(g, k, outcome), d.at);
      }
    }
  }

  lemma {:induction false} RunStaysOnCourse(plan: Plan, o: Outcomes, start: Time, run: seq<Delivery>)
    requires Applicable(plan, o)
    ensures OnCourse(plan, o, Run(plan, o, start, run))
  {
    if run == [] {
      StartIsOnCourse(plan, o, start);
    } else {
      RunStaysOnCourse(plan, o, start, run[..|run| - 1]);
      DeliverStaysOnCourse(plan, o, Run(plan, o, start, run[..|run| - 1]), run[|run| - 1]);
    }
  }

  // ---------------------------------------------------------------------------
  // Statuses against the reference
  // ---------------------------------------------------------------------------

  lemma {:induction false} ReachesIsLayered(plan: Plan, p: seq<Key>)
    requires ValidPlan(plan) && IsPath(plan.edges, p) && p[|p| - 1] in plan.edges
    ensures p[0] in plan.edges && (|p| > 1 ==> plan.depth[p[0]] < plan.depth[p[|p| - 1]])
    decreases |p|
  {
    if |p| > 1 {
      assert p[|p| - 2] in After(plan.edges, p[|p| - 1]);
      ReachesIsLayered(plan, p[..|p| - 1]);
    }
  }

  /** The ancestors of k are its dependencies and theirs. */
  lemma AncestorsThroughDependency(plan: Plan, o: Outcomes, k: Key)
    requires ValidPlan(plan) && k in plan.edges && plan.edges.Keys == o.Keys
    ensures AncestorsSucceed(plan, o, k) <==>
            forall d :: d in After(plan.edges, k) ==> d in o && o[d] && AncestorsSucceed(plan, o, d)
  {
    if AncestorsSucceed(plan, o, k) {
      forall d | d in After(plan.edges, k)
        ensures d in o && o[d] && AncestorsSucceed(plan, o, d)
      {
        ReachesSelf(plan.edges, d);
        ReachesStep(plan.edges, d, d, k);
        assert plan.depth[d] < plan.depth[k];
        forall a | a in plan.edges && a != d && Reaches(plan.edges, a, d)
          ensures a in o && o[a]
        {
          ReachesStep(plan.edges, a, d, k);
          var p :| PathBetween(plan.edges, p, a, d);
          ReachesIsLayered(plan, p);
        }
      }
    }
    if forall d :: d in After(plan.edges, k) ==> d in o && o[d] && AncestorsSucceed(plan, o, d) {
      forall a | a in plan.edges && a != k && Reaches(plan.edges, a, k)
        ensures a in o && o[a]
      {
        ReachesLast(plan.edges, a, k);
      }
    }
  }

  lemma StartedAfterSuccess(plan: Plan, o: Outcomes, g: Graph, k: Key)
    requires OnCourse(plan, o, g) && k in g.nodes && g.nodes[k].status != Pending
    ensures AncestorsSucceed(plan, o, k)
    decreases plan.depth[k]
  {
    forall d | d in After(plan.edges, k)
      ensures d in o && o[d] && AncestorsSucceed(plan, o, d)
    {
      assert Met(plan.edges, g.nodes, k);
      StartedAfterSuccess(plan, o, g, d);
    }
    AncestorsThroughDependency(plan, o, k);
  }

  lemma StillPendingAfterFailure(plan: Plan, o: Outcomes, g: Graph, k: Key)
    requires OnCourse(plan, o, g) && g.status != GraphRunning
    requires k in g.nodes && g.nodes[k].status == Pending
    ensures !AncestorsSucceed(plan, o, k)
    decreases plan.depth[k]
  {
    hide NothingReady, Ready, RowsSound, OncePerGeneration, Outboxed, AncestorsSucceed, Causal;
    WaitsOnSomething(plan, g, k);
    var d :| d in After(plan.edges, k) && d in g.nodes && !Passed(g.nodes[d].status);
    EdgesAreLayered(plan, g, d, k);
    if g.nodes[d].status == Pending {
      StillPendingAfterFailure(plan, o, g, d);
    } else {
      assert g.nodes[d].status != Running;
    }
    AncestorsThroughDependency(plan, o, k);
  }

  /** While it runs, no node is ahead of the reference result. */
  lemma RunNeverLies(plan: Plan, o: Outcomes, start: Time, run: seq<Delivery>, k: Key)
    requires Applicable(plan, o) && k in plan.edges
    ensures var n := Run(plan, o, start, run).nodes;
            k in n && (n[k].settled ==> n[k].status == Expected(plan, o, k))
  {
    RunStaysOnCourse(plan, o, start, run);
    var g := Run(plan, o, start, run);
    assert NodeSound(g.nodes, g.tasks, k);
    if g.nodes[k].settled {
      StartedAfterSuccess(plan, o, g, k);
    }
  }

  /** What a graph shows once its nodes have their fixed outcomes. */
  ghost predicate ShowsReference(plan: Plan, o: Outcomes, outcome: GraphStatus, nodes: map<Key, NodeStatus>) {
    && Applicable(plan, o)
    && nodes.Keys == plan.edges.Keys
    && (forall k :: k in plan.edges ==> nodes[k] == Expected(plan, o, k))
    && outcome == ExpectedGraph(plan, o)
  }

  lemma SettledNodeShowsReference(plan: Plan, o: Outcomes, g: Graph, k: Key)
    requires OnCourse(plan, o, g) && g.status != GraphRunning && k in g.nodes
    ensures k in o && g.nodes[k].status == Expected(plan, o, k)
  {
    hide RowsSound, OncePerGeneration, Outboxed, AncestorsSucceed, Causal, NothingReady, ValidPlan;
    if g.nodes[k].status == Pending {
      StillPendingAfterFailure(plan, o, g, k);
    } else {
      assert g.nodes[k].status != Running;
      StartedAfterSuccess(plan, o, g, k);
    }
  }

  lemma SettledShowsReference(plan: Plan, o: Outcomes, g: Graph)
    requires OnCourse(plan, o, g) && g.status != GraphRunning
    ensures ShowsReference(plan, o, g.status, map k | k in g.nodes :: g.nodes[k].status)
    ensures g.settledAt.Some?
  {
    hide RowsSound, OncePerGeneration, Outboxed, Expected, Causal, NothingReady, ValidPlan;
    assert g.nodes.Keys == plan.edges.Keys;
    forall k | k in plan.edges
      ensures g.nodes[k].status == Expected(plan, o, k)
    {
      SettledNodeShowsReference(plan, o, g, k);
    }
    if g.status == GraphFailed {
      var k :| k in g.nodes && g.nodes[k].status == Failed;
      assert Expected(plan, o, k) == Failed;
    }
  }

  /** Confluence: however completions arrive, a settled graph shows the reference result. */
  lemma Confluence(plan: Plan, o: Outcomes, start: Time, run: seq<Delivery>)
    requires Applicable(plan, o)
    requires Run(plan, o, start, run).status != GraphRunning
    ensures var g := Run(plan, o, start, run);
            && g.nodes.Keys == plan.edges.Keys
            && (forall k :: k in plan.edges ==> g.nodes[k].status == Expected(plan, o, k))
            && g.status == ExpectedGraph(plan, o)
            && g.settledAt.Some?
  {
    hide OnCourse, Run, Expected, ExpectedGraph, Applicable;
    RunStaysOnCourse(plan, o, start, run);
    var g := Run(plan, o, start, run);
    SettledShowsReference(plan, o, g);
    var shown := map k | k in g.nodes :: g.nodes[k].status;
    assert shown.Keys == g.nodes.Keys;
  }

  // ---------------------------------------------------------------------------
  // The run does settle
  // ---------------------------------------------------------------------------

  ghost function Unsettled(nodes: map<Key, Node>): set<Key> {
    set k | k in nodes && !nodes[k].settled
  }

  lemma AdvanceSettlesNobody(plan: Plan, g: Graph, now: Time)
    requires Base(plan, g) && g.status == GraphRunning
    ensures Unsettled(MaybeSettle(plan, DispatchFrontier(plan, g), now).nodes) == Unsettled(g.nodes)
    ensures MaybeSettle(plan, DispatchFrontier(plan, g), now).log == g.log
  {
    hide RowsSound, OncePerGeneration, Outboxed, Causal, ReadyNodes;
    FrontierReleases(plan, g);
    FrontierKeepsBase(plan, g);
    var h, ready := DispatchFrontier(plan, g), ReadyNodes(plan.edges, g.nodes, plan.order);
    VerdictIsReached(plan, h, now);
    forall k | k in g.nodes
      ensures h.nodes[k].settled == g.nodes[k].settled
    {
      assert NodeReleased(plan, g, h, ready, k);
    }
  }

  /** The measure of a run: a delivery that is news settles one node more, for good. */
  lemma NewsSettlesOneMore(plan: Plan, o: Outcomes, g: Graph, d: Delivery)
    requires OnCourse(plan, o, g)
    ensures Deliver(plan, o, g, d) != g ==>
              |Unsettled(Deliver(plan, o, g, d).nodes)| == |Unsettled(g.nodes)| - 1
  {
    hide RowsSound, Layered, Decided, MaybeSettle, DispatchFrontier, OncePerGeneration, Outboxed, Faithful, Causal, NothingReady;
    var status := StatusRead(g, o, d);
    if Deliver(plan, o, g, d) != g {
      CompletionIsNews(plan, g, d.task, status, d.at);
      var k, outcome := g.tasks[d.task].key, OutcomeOf(status).value;
      RecordKeepsBase(plan, g, k, outcome);
      NodeIsSound(g.nodes, g.tasks, g.log, k);
      assert Unsettled(RecordOutcome(g, k, outcome).nodes) == Unsettled(g.nodes) - {k};
      if g.status == GraphRunning {
        AdvanceSettlesNobody(plan, RecordOutcome(g, k, outcome), d.at);
      }
    }
  }

  /** A running graph is waiting for a completion that is news. */
  lemma RunningAwaitsNews(plan: Plan, o: Outcomes, g: Graph) returns (d: Delivery)
    requires OnCourse(plan, o, g) && g.status == GraphRunning
    ensures Deliver(plan, o, g, d) != g
  {
    hide RowsSound, Layered, MaybeSettle, DispatchFrontier, OncePerGeneration, Outboxed, Causal, NothingReady;
    var k :| k in g.nodes && g.nodes[k].status == Running;
    NodeIsSound(g.nodes, g.tasks, g.log, k);
    d := Delivery(g.nodes[k].task.value, true, true, false, 0);
    var outcome := OutcomeOf(StatusRead(g, o, d)).value;
    var recorded := RecordOutcome(g, k, outcome);
    RecordKeepsBase(plan, g, k, outcome);
    AdvanceSettlesNobody(plan, recorded, d.at);
    assert Deliver(plan, o, g, d).log == recorded.log != g.log;
  }

  /** From every point of every run, delivering what is outstanding settles the graph. */
  lemma {:induction false} EveryRunCanFinish(plan: Plan, o: Outcomes, start: Time, run: seq<Delivery>)
    returns (more: seq<Delivery>)
    requires Applicable(plan, o)
    ensures Run(plan, o, start, run + more).status != GraphRunning
    ensures |more| <= |Unsettled(Run(plan, o, start, run).nodes)|
    decreases |Unsettled(Run(plan, o, start, run).nodes)|
  {
    hide OnCourse, Deliver, Applicable;
    RunStaysOnCourse(plan, o, start, run);
    var g := Run(plan, o, start, run);
    if g.status != GraphRunning {
      assert run + [] == run;
      return [];
    }
    var d := RunningAwaitsNews(plan, o, g);
    NewsSettlesOneMore(plan, o, g, d);
    assert (run + [d])[..|run + [d]| - 1] == run;
    more := EveryRunCanFinish(plan, o, start, run + [d]);
    assert run + ([d] + more) == run + [d] + more;
    more := [d] + more;
  }
}
