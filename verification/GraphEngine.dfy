/**
 The execution graph as a value and each locked transaction on it as one step.
 A refused operation raises, its transaction rolls back, and nothing changes.
 */
module GraphEngine {
  import opened Common
  import opened Topology

  type Time = int
  type TaskId = nat
  type AttemptId = nat

  datatype NodeStatus = Pending | Running | Succeeded | Failed | Cancelled | Skipped | Waiting

  datatype GraphStatus = GraphRunning | GraphSucceeded | GraphFailed | GraphCancelled | GraphWaiting

  datatype TaskStatus = TaskPending | TaskRunning | TaskSucceeded | TaskFailed | TaskExhausted

  /** The frozen plan. `order` is the order in which the node rows are read. */
  datatype Plan = Plan(edges: Edges, gated: set<Key>, depth: map<Key, nat>, order: seq<Key>, hooked: bool)

  /** `settled` stands for a non-null settled_at, `receipt` for the attempt that published. */
  datatype Node = Node(
    status: NodeStatus, generation: nat, task: Option<TaskId>, settled: bool, receipt: Option<AttemptId>)

  /** A task created for a node; the generation it was created in is recorded for the proofs. */
  datatype TaskRow = TaskRow(key: Key, generation: nat)

  /** One completion written to a node row. */
  datatype Recorded = Recorded(key: Key, generation: nat, outcome: NodeStatus)

  datatype Context = Context(outcome: GraphStatus, generation: nat, nodes: map<Key, NodeStatus>)

  datatype Settlement = Settlement(context: Context, created: Time)

  datatype Graph = Graph(
    status: GraphStatus,
    generation: nat,
    settledAt: Option<Time>,
    nodes: map<Key, Node>,
    tasks: seq<TaskRow>,
    log: seq<Recorded>,
    settlements: map<nat, Settlement>)

  datatype Refusal =
    | NodesAreFinal
    | NoSuchNode
    | NotPending
    | NotWaiting
    | AlreadySettled
    | StillRunning
    | GraphWasCancelled
    | NameTheNodes
    | NothingToRerun
    | NotBound
    | AlreadyPublished
    | LeftWithoutSucceeding

  // ---------------------------------------------------------------------------
  // Plans and rows
  // ---------------------------------------------------------------------------

  ghost predicate Layered(edges: Edges, depth: map<Key, nat>) {
    && depth.Keys == edges.Keys
    && forall k, d :: k in edges && d in edges[k] ==> d in edges && depth[d] < depth[k]
  }

  ghost predicate ValidPlan(plan: Plan) {
    && Layered(plan.edges, plan.depth)
    && Elements(plan.order) == plan.edges.Keys
    && Distinct(plan.order)
  }

  predicate Terminal(status: GraphStatus) {
    status == GraphSucceeded || status == GraphFailed || status == GraphCancelled
  }

  predicate Passed(status: NodeStatus) {
    status == Succeeded || status == Skipped
  }

  ghost predicate Rows(plan: Plan, g: Graph) {
    && ValidPlan(plan)
    && g.nodes.Keys == plan.edges.Keys
    && (g.settledAt.Some? <==> Terminal(g.status))
  }

  /** Every dependency of k has succeeded or been skipped. */
  predicate Met(edges: Edges, nodes: map<Key, Node>, k: Key) {
    forall d :: d in After(edges, k) ==> d in nodes && Passed(nodes[d].status)
  }

  predicate Ready(edges: Edges, nodes: map<Key, Node>, k: Key) {
    k in nodes && nodes[k].status == Pending && Met(edges, nodes, k)
  }

  predicate Has(nodes: map<Key, Node>, status: NodeStatus) {
    exists k :: k in nodes && nodes[k].status == status
  }

  // ---------------------------------------------------------------------------
  // Dispatch and settlement
  // ---------------------------------------------------------------------------

  function ReadyNodes(edges: Edges, nodes: map<Key, Node>, order: seq<Key>): seq<Key> {
    if order == [] then []
    else
      var front, last := order[..|order| - 1], order[|order| - 1];
      ReadyNodes(edges, nodes, front) + if Ready(edges, nodes, last) then [last] else []
  }

  /** A fresh task bound to the node, which is then RUNNING. */
  function DispatchNode(g: Graph, k: Key): Graph
    requires k in g.nodes
  {
    g.(tasks := g.tasks + [TaskRow(k, g.nodes[k].generation)],
    nodes := g.nodes[k := g.nodes[k].(status := Running, task := Some(|g.tasks|))])
  }

  /** A gated node parks; any other is dispatched. */
  function Release(plan: Plan, g: Graph, k: Key): Graph
    requires k in g.nodes
  {
    if k in plan.gated then g.(nodes := g.nodes[k := g.nodes[k].(status := Waiting)])
    else DispatchNode(g, k)
  }

  function ReleaseAll(plan: Plan, g: Graph, ready: seq<Key>): (h: Graph)
    requires forall k :: k in ready ==> k in g.nodes
    ensures h.nodes.Keys == g.nodes.Keys
  {
    if ready == [] then g
    else Release(plan, ReleaseAll(plan, g, ready[..|ready| - 1]), ready[|ready| - 1])
  }

  lemma {:induction false} ReadyNodesAre(edges: Edges, nodes: map<Key, Node>, order: seq<Key>)
    ensures forall k :: k in ReadyNodes(edges, nodes, order) <==> k in order && Ready(edges, nodes, k)
    ensures Distinct(order) ==> Distinct(ReadyNodes(edges, nodes, order))
    ensures ReadyNodes(edges, nodes, order) != [] ==> exists k :: k in order && Ready(edges, nodes, k)
  {
    if order != [] {
      var front := order[..|order| - 1];
      ReadyNodesAre(edges, nodes, front);
      assert order == front + [order[|order| - 1]];
    }
  }

  function DispatchFrontier(plan: Plan, g: Graph): (h: Graph)
    ensures h.nodes.Keys == g.nodes.Keys
  {
    if g.status != GraphRunning then g
    else
      ReadyNodesAre(plan.edges, g.nodes, plan.order);
      ReleaseAll(plan, g, ReadyNodes(plan.edges, g.nodes, plan.order))
  }

  function ContextOf(g: Graph): Context {
    Context(g.status, g.generation, map k | k in g.nodes :: g.nodes[k].status)
  }

  /** The settlement row of this generation, created unless it exists. */
  function RecordSettlement(plan: Plan, g: Graph): (h: Graph)
    requires g.settledAt.Some?
    ensures h == g.(settlements := h.settlements)
  {
    if !plan.hooked || g.generation in g.settlements then g
    else g.(settlements := g.settlements[g.generation := Settlement(ContextOf(g), g.settledAt.value)])
  }

  /** The settlement compare-and-swap. */
  function Settle(plan: Plan, g: Graph, status: GraphStatus, now: Time): (h: Graph)
    ensures h == g.(status := h.status, settledAt := h.settledAt, settlements := h.settlements)
  {
    if g.settledAt.None? && (g.status == GraphRunning || g.status == GraphWaiting)
    then RecordSettlement(plan, g.(status := status, settledAt := Some(now)))
    else g
  }

  function MaybeSettle(plan: Plan, g: Graph, now: Time): (h: Graph)
    ensures h == g.(status := h.status, settledAt := h.settledAt, settlements := h.settlements)
  {
    if Has(g.nodes, Running) then g
    else if Has(g.nodes, Pending) && ReadyNodes(plan.edges, g.nodes, plan.order) != [] then g
    else if Has(g.nodes, Failed) then Settle(plan, g, GraphFailed, now)
    else if Has(g.nodes, Cancelled) then Settle(plan, g, GraphCancelled, now)
    else if Has(g.nodes, Waiting) then
      if g.status == GraphRunning then g.(status := GraphWaiting) else g
    else if forall k :: k in g.nodes ==> Passed(g.nodes[k].status) then Settle(plan, g, GraphSucceeded, now)
    else g
  }

  // ---------------------------------------------------------------------------
  // The operations
  // ---------------------------------------------------------------------------

  function Fresh(plan: Plan): Graph {
    Graph(GraphRunning, 1, None,
          map k | k in plan.edges :: Node(Pending, 1, None, false, None), [], [], map[])
  }

  function Start(plan: Plan, now: Time): Graph {
    MaybeSettle(plan, DispatchFrontier(plan, Fresh(plan)), now)
  }

  function Skip(plan: Plan, g: Graph, k: Key, now: Time): Result<Graph, Refusal> {
    if g.status != GraphRunning then Err(NodesAreFinal)
    else if k !in g.nodes then Err(NoSuchNode)
    else if g.nodes[k].status != Pending then Err(NotPending)
    else
      var skipped := g.(nodes := g.nodes[k := g.nodes[k].(status := Skipped, settled := true)]);
      Ok(MaybeSettle(plan, DispatchFrontier(plan, skipped), now))
  }

  function Approve(plan: Plan, g: Graph, k: Key): Result<Graph, Refusal> {
    if g.status != GraphRunning && g.status != GraphWaiting then Err(NodesAreFinal)
    else if k !in g.nodes then Err(NoSuchNode)
    else if g.nodes[k].status != Waiting then Err(NotWaiting)
    else
      var dispatched := DispatchNode(g, k);
      Ok(if g.status == GraphWaiting then dispatched.(status := GraphRunning) else dispatched)
  }

  function Reject(plan: Plan, g: Graph, k: Key, now: Time): Result<Graph, Refusal> {
    if g.status != GraphRunning && g.status != GraphWaiting then Err(NodesAreFinal)
    else if k !in g.nodes then Err(NoSuchNode)
    else if g.nodes[k].status != Waiting then Err(NotWaiting)
    else
      var cancelled := g.(nodes := g.nodes[k := g.nodes[k].(status := Cancelled, settled := true)]);
      Ok(MaybeSettle(plan, cancelled.(status := GraphRunning), now))
  }

  function Cancel(plan: Plan, g: Graph, now: Time): Result<Graph, Refusal> {
    var settled := Settle(plan, g, GraphCancelled, now);
    if settled == g then Err(AlreadySettled) else Ok(settled)
  }

  function OutcomeOf(status: TaskStatus): Option<NodeStatus> {
    match status
    case TaskSucceeded => Some(Succeeded)
    case TaskFailed => Some(Failed)
    case TaskExhausted => Some(Failed)
    case TaskPending => None
    case TaskRunning => None
  }

  /** `handle_node_completion`: a completion that is not news changes nothing. */
  function Complete(plan: Plan, g: Graph, t: TaskId, status: TaskStatus, now: Time): Graph {
    if t >= |g.tasks| || OutcomeOf(status).None? then g
    else
      var k := g.tasks[t].key;
      if k !in g.nodes || g.nodes[k].task != Some(t) || g.nodes[k].settled then g
      else
        var outcome := OutcomeOf(status).value;
        var recorded := g.(nodes := g.nodes[k := g.nodes[k].(status := outcome, settled := true)],
                        log := g.log + [Recorded(k, g.nodes[k].generation, outcome)]);
        if g.status == GraphRunning
        then MaybeSettle(plan, DispatchFrontier(plan, recorded), now)
        else recorded
  }

  /** `publish`, whose body either calls succeed() or leaves without it. */
  function Publish(g: Graph, t: TaskId, attempt: AttemptId, succeeds: bool): Result<Graph, Refusal> {
    if t >= |g.tasks| || g.tasks[t].key !in g.nodes then Err(NoSuchNode)
    else
      var k := g.tasks[t].key;
      if g.nodes[k].task != Some(t) then Err(NotBound)
      else if g.nodes[k].receipt.Some? then Err(AlreadyPublished)
      else if !succeeds then Err(LeftWithoutSucceeding)
      else Ok(g.(nodes := g.nodes[k := g.nodes[k].(receipt := Some(attempt))]))
  }

  /** The nodes a resume starts from: the named ones, or every failed one. */
  ghost function NamedNodes(g: Graph, named: Option<seq<Key>>): set<Key> {
    match named
    case None => set k | k in g.nodes && g.nodes[k].status == Failed
    case Some(keys) => Elements(keys)
  }

  /** The named nodes and everything downstream of them, less what never ran. */
  ghost function RerunSet(plan: Plan, g: Graph, named: Option<seq<Key>>): set<Key> {
    set k | k in g.nodes && g.nodes[k].status != Pending &&
            exists n :: n in NamedNodes(g, named) && Reaches(plan.edges, n, k)
  }

  function Reset(g: Graph, rerun: set<Key>): Graph {
    g.(nodes := map k | k in g.nodes ::
        if k in rerun then Node(Pending, g.nodes[k].generation + 1, None, false, None) else g.nodes[k],
    status := GraphRunning, settledAt := None, generation := g.generation + 1)
  }

  ghost function Resume(plan: Plan, g: Graph, named: Option<seq<Key>>, now: Time): Result<Graph, Refusal>
    requires Rows(plan, g)
  {
    if g.status == GraphRunning || g.status == GraphWaiting then Err(StillRunning)
    else if g.status == GraphCancelled then Err(GraphWasCancelled)
    else if g.status == GraphSucceeded && (named.None? || named.value == []) then Err(NameTheNodes)
    else if named.Some? && exists k :: k in named.value && k !in g.nodes then Err(NoSuchNode)
    else
      var rerun := RerunSet(plan, g, named);
      if rerun == {} then Err(NothingToRerun)
      else
        Ok(MaybeSettle(plan, DispatchFrontier(plan, Reset(RecordSettlement(plan, g), rerun)), now))
  }

  // ---------------------------------------------------------------------------
  // Runs
  // ---------------------------------------------------------------------------

  datatype Event =
    | CompleteTask(task: TaskId, status: TaskStatus)
    | SkipNode(key: Key)
    | ApproveNode(key: Key)
    | RejectNode(key: Key)
    | CancelGraph
    | ResumeGraph(named: Option<seq<Key>>)
    | PublishReceipt(task: TaskId, attempt: AttemptId, succeeds: bool)

  function Kept(g: Graph, r: Result<Graph, Refusal>): Graph {
    match r
    case Ok(h) => h
    case Err(_) => g
  }

  ghost function Step(plan: Plan, g: Graph, e: Event, now: Time): Graph
    requires Rows(plan, g)
  {
    match e
    case CompleteTask(t, status) => Complete(plan, g, t, status, now)
    case SkipNode(k) => Kept(g, Skip(plan, g, k, now))
    case ApproveNode(k) => Kept(g, Approve(plan, g, k))
    case RejectNode(k) => Kept(g, Reject(plan, g, k, now))
    case CancelGraph => Kept(g, Cancel(plan, g, now))
    case ResumeGraph(named) => Kept(g, Resume(plan, g, named, now))
    case PublishReceipt(t, a, succeeds) => Kept(g, Publish(g, t, a, succeeds))
  }
}
