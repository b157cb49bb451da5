/**
 The retention sweep: what each pass may delete, what the deletion drags along through
 the foreign keys, and what must still be there afterwards.
 */
module Retention {
  import opened Common
  import Workflows
  import Engine = GraphEngine

  type Id = nat
  type Time = int

  datatype WorkflowKey = ChainKey(id: Id) | IterKey(id: Id) | BatchKey(id: Id)

  datatype Task = Task(
    status: Engine.TaskStatus,
    updated: Time,
    iter: Option<Id>,
    batch: Option<Id>,
    graph: Option<Id>,
    node: Option<Id>)

  datatype Workflow = Workflow(status: Workflows.Status, updated: Time, graph: Option<Id>)

  datatype Step = Step(chain: Id, task: Option<Id>)

  datatype GraphRow = GraphRow(status: Engine.GraphStatus, updated: Time)

  datatype Node = Node(graph: Id, task: Option<Id>)

  datatype Dispatch = Dispatch(ofGraph: bool, workflow: Id, generation: nat, settledHook: bool, created: Time)

  /** The tables. Attempts and task hook dispatches follow their task and are not kept apart. */
  datatype Tables = Tables(
    tasks: map<Id, Task>,
    workflows: map<WorkflowKey, Workflow>,
    steps: map<Id, Step>,
    graphs: map<Id, GraphRow>,
    nodes: map<Id, Node>,
    settlements: set<(Id, nat)>,
    dispatches: map<Id, Dispatch>)

  datatype Row = WorkflowOf(key: WorkflowKey) | TaskOf(id: Id) | GraphOf(id: Id) | DispatchOf(id: Id)

  datatype Pass = ChainPass | IterPass | BatchPass | TaskPass | GraphPass | DispatchPass

  /** What one sweep reads before it deletes: the cutoff, and the ids it takes to be open. */
  datatype Snapshot = Snapshot(cutoff: Time, openGraphs: set<Id>, liveWorkflows: set<WorkflowKey>)

  // ---------------------------------------------------------------------------
  // Live rows
  // ---------------------------------------------------------------------------

  predicate Live(status: Engine.TaskStatus) {
    status.TaskPending? || status.TaskRunning?
  }

  predicate Open(t: Tables, graph: Option<Id>) {
    graph.Some? && graph.value in t.graphs && !Engine.Terminal(t.graphs[graph.value].status)
  }

  predicate Unsettled(t: Tables, key: WorkflowKey) {
    key in t.workflows && !Workflows.IsTerminal(t.workflows[key].status)
  }

  /** Task k belongs to the workflow: through its own column, or through the chain's step. */
  predicate MemberOf(t: Tables, key: WorkflowKey, k: Id) {
    && k in t.tasks
    && match key
       case IterKey(i) => t.tasks[k].iter == Some(i)
       case BatchKey(b) => t.tasks[k].batch == Some(b)
       case ChainKey(c) => exists s :: s in t.steps && t.steps[s] == Step(c, Some(k))
  }

  /** Work that is live, or evidence that something unsettled still needs. */
  ghost predicate Protected(t: Tables, k: Id) {
    && k in t.tasks
    && (Live(t.tasks[k].status) || Open(t, t.tasks[k].graph) || exists key :: MemberOf(t, key, k) && Unsettled(t, key))
  }

  predicate Delivered(t: Tables, g: Id, n: nat) {
    exists d :: d in t.dispatches && t.dispatches[d].ofGraph && t.dispatches[d].workflow == g &&
                t.dispatches[d].generation == n && t.dispatches[d].settledHook
  }

  predicate Awaiting(t: Tables, g: Id) {
    exists s :: s in t.settlements && s.0 == g && !Delivered(t, g, s.1)
  }

  /**
   How the writers fill the label columns: a member carries its workflow's graph, a node's
   task carries its node's graph, and a task has one owner. Foreign keys point at rows.
   */
  ghost predicate Labelled(t: Tables) {
    && (forall key, k :: MemberOf(t, key, k) ==> key in t.workflows && t.tasks[k].graph == t.workflows[key].graph)
    && (forall a, b, k :: MemberOf(t, a, k) && MemberOf(t, b, k) ==> a == b)
    && (forall k :: k in t.tasks && t.tasks[k].node.Some? ==>
                      && t.tasks[k].node.value in t.nodes
                      && t.tasks[k].graph == Some(t.nodes[t.tasks[k].node.value].graph)
                      && forall key :: !MemberOf(t, key, k))
    && (forall k :: k in t.tasks && t.tasks[k].graph.Some? ==> t.tasks[k].graph.value in t.graphs)
    && (forall w :: w in t.workflows && t.workflows[w].graph.Some? ==> t.workflows[w].graph.value in t.graphs)
    && (forall s :: s in t.steps && t.steps[s].task.Some? ==> t.steps[s].task.value in t.tasks)
    && (forall n :: n in t.nodes ==> t.nodes[n].graph in t.graphs)
    && (forall s :: s in t.settlements ==> s.0 in t.graphs)
  }

  /** The snapshot names every graph that is unsettled now, and for the task pass every workflow. */
  ghost predicate Covers(t: Tables, snap: Snapshot, p: Pass) {
    && (forall g :: g in t.graphs && Open(t, Some(g)) ==> g in snap.openGraphs)
    && (p.TaskPass? ==> forall key :: Unsettled(t, key) ==> key in snap.liveWorkflows)
  }

  // ---------------------------------------------------------------------------
  // The querysets
  // ---------------------------------------------------------------------------

  predicate LabelAllows(snap: Snapshot, graph: Option<Id>) {
    graph.None? || graph.value !in snap.openGraphs
  }

  predicate WorkflowEligible(t: Tables, snap: Snapshot, key: WorkflowKey) {
    && key in t.workflows
    && Workflows.IsTerminal(t.workflows[key].status) && t.workflows[key].updated < snap.cutoff
    && LabelAllows(snap, t.workflows[key].graph)
    && !exists k :: k in t.tasks && MemberOf(t, key, k) && Live(t.tasks[k].status)
  }

  predicate TaskEligible(t: Tables, snap: Snapshot, k: Id) {
    && k in t.tasks
    && !Live(t.tasks[k].status) && t.tasks[k].updated < snap.cutoff
    && LabelAllows(snap, t.tasks[k].graph)
    && !exists key :: key in snap.liveWorkflows && MemberOf(t, key, k)
  }

  predicate GraphEligible(t: Tables, snap: Snapshot, g: Id) {
    && g in t.graphs
    && Engine.Terminal(t.graphs[g].status) && t.graphs[g].updated < snap.cutoff
    && (!exists k :: k in t.tasks && t.tasks[k].graph == Some(g) && Live(t.tasks[k].status))
    && !Awaiting(t, g)
  }

  predicate DispatchEligible(t: Tables, snap: Snapshot, d: Id) {
    && d in t.dispatches
    && t.dispatches[d].created < snap.cutoff
    && !(t.dispatches[d].ofGraph && t.dispatches[d].workflow in t.graphs)
  }

  predicate Eligible(t: Tables, snap: Snapshot, r: Row) {
    match r
    case WorkflowOf(key) => WorkflowEligible(t, snap, key)
    case TaskOf(k) => TaskEligible(t, snap, k)
    case GraphOf(g) => GraphEligible(t, snap, g)
    case DispatchOf(d) => DispatchEligible(t, snap, d)
  }

  predicate InPass(p: Pass, r: Row) {
    match p
    case ChainPass => r.WorkflowOf? && r.key.ChainKey?
    case IterPass => r.WorkflowOf? && r.key.IterKey?
    case BatchPass => r.WorkflowOf? && r.key.BatchKey?
    case TaskPass => r.TaskOf?
    case GraphPass => r.GraphOf?
    case DispatchPass => r.DispatchOf?
  }

  /** Every row of every table the sweep deletes from. */
  function AllRows(t: Tables): set<Row> {
    (set key | key in t.workflows :: WorkflowOf(key)) + (set k | k in t.tasks :: TaskOf(k)) +
    (set g | g in t.graphs :: GraphOf(g)) + (set d | d in t.dispatches :: DispatchOf(d))
  }

  function Query(t: Tables, snap: Snapshot, p: Pass): (rows: set<Row>)
    ensures forall r :: r in rows <==> InPass(p, r) && Eligible(t, snap, r)
  {
    set r | r in AllRows(t) && InPass(p, r) && Eligible(t, snap, r)
  }

  // ---------------------------------------------------------------------------
  // Deletion and its cascades
  // ---------------------------------------------------------------------------

  predicate NodeGone(t: Tables, rows: set<Row>, n: Id) {
    n in t.nodes && GraphOf(t.nodes[n].graph) in rows
  }

  predicate TaskGone(t: Tables, rows: set<Row>, k: Id) {
    && k in t.tasks
    && var task := t.tasks[k];
       || TaskOf(k) in rows
       || (task.iter.Some? && WorkflowOf(IterKey(task.iter.value)) in rows)
       || (task.batch.Some? && WorkflowOf(BatchKey(task.batch.value)) in rows)
       || (task.node.Some? && NodeGone(t, rows, task.node.value))
  }

  function Unlabel(rows: set<Row>, graph: Option<Id>): Option<Id> {
    if graph.Some? && GraphOf(graph.value) in rows then None else graph
  }

  function Unbind(t: Tables, rows: set<Row>, task: Option<Id>): Option<Id> {
    if task.Some? && TaskGone(t, rows, task.value) then None else task
  }

  /** One `delete()`: members, steps, nodes, settlements cascade; labels and bindings are set null. */
  function Delete(t: Tables, rows: set<Row>): Tables {
    Tables(
    map k | k in t.tasks && !TaskGone(t, rows, k) :: t.tasks[k].(graph := Unlabel(rows, t.tasks[k].graph)),
    map key | key in t.workflows && WorkflowOf(key) !in rows ::
    t.workflows[key].(graph := Unlabel(rows, t.workflows[key].graph)),
    map s | s in t.steps && WorkflowOf(ChainKey(t.steps[s].chain)) !in rows ::
    t.steps[s].(task := Unbind(t, rows, t.steps[s].task)),
    map g | g in t.graphs && GraphOf(g) !in rows :: t.graphs[g],
    map n | n in t.nodes && !NodeGone(t, rows, n) :: t.nodes[n].(task := Unbind(t, rows, t.nodes[n].task)),
    set s | s in t.settlements && GraphOf(s.0) !in rows,
    map d | d in t.dispatches && DispatchOf(d) !in rows :: t.dispatches[d])
  }

  ghost predicate AllEligible(t: Tables, snap: Snapshot, rows: set<Row>) {
    forall r :: r in rows ==> Eligible(t, snap, r)
  }

  /** A membership after the deletion was one before, in a workflow that is still there. */
  lemma MembershipSurvives(t: Tables, rows: set<Row>, key: WorkflowKey, k: Id)
    requires Labelled(t)
    ensures MemberOf(Delete(t, rows), key, k) <==>
              k in Delete(t, rows).tasks && MemberOf(t, key, k) && WorkflowOf(key) !in rows
  {
    hide Labelled;
    var v := Delete(t, rows);
    match key
    case ChainKey(c) => {
      if MemberOf(v, key, k) {
        var s :| s in v.steps && v.steps[s] == Step(c, Some(k));
        assert t.steps[s] == Step(c, Some(k));
      }
      if k in v.tasks && MemberOf(t, key, k) && WorkflowOf(key) !in rows {
        var s :| s in t.steps && t.steps[s] == Step(c, Some(k));
        assert v.steps[s] == Step(c, Some(k));
      }
    }
    case _ =>
  }

  /** The label columns stay as the writers left them, whatever is deleted. */
  lemma DeleteKeepsLabels(t: Tables, rows: set<Row>)
    requires Labelled(t)
    ensures Labelled(Delete(t, rows))
  {
    var v := Delete(t, rows);
    forall key, k
      ensures MemberOf(v, key, k) <==> k in v.tasks && MemberOf(t, key, k) && WorkflowOf(key) !in rows
    {
      MembershipSurvives(t, rows, key, k);
    }
    hide MemberOf;
  }

  // ---------------------------------------------------------------------------
  // What a deletion can reach
  // ---------------------------------------------------------------------------

  /** Deleting the row takes a protected task: its label or its workflow is unsettled now. */
  ghost predicate Endangers(t: Tables, r: Row) {
    match r
    case TaskOf(k) =>
      k in t.tasks && (Open(t, t.tasks[k].graph) || exists key :: MemberOf(t, key, k) && Unsettled(t, key))
    case WorkflowOf(key) =>
      && !key.ChainKey? && key in t.workflows && Open(t, t.workflows[key].graph)
      && exists k :: MemberOf(t, key, k)
    case GraphOf(_) => false
    case DispatchOf(_) => false
  }

  ghost predicate KeepsProtected(t: Tables, rows: set<Row>) {
    forall k :: Protected(t, k) ==> !TaskGone(t, rows, k)
  }

  /** A task a deletion takes is in the queryset, or belongs to a row that is. */
  lemma TakenBy(t: Tables, rows: set<Row>, k: Id)
    requires Labelled(t) && TaskGone(t, rows, k)
    ensures || TaskOf(k) in rows
            || (exists key: WorkflowKey :: !key.ChainKey? && WorkflowOf(key) in rows && MemberOf(t, key, k))
            || (t.tasks[k].graph.Some? && GraphOf(t.tasks[k].graph.value) in rows && forall key :: !MemberOf(t, key, k))
  {
    var task := t.tasks[k];
    if task.iter.Some? && WorkflowOf(IterKey(task.iter.value)) in rows {
      assert MemberOf(t, IterKey(task.iter.value), k);
    } else if task.batch.Some? && WorkflowOf(BatchKey(task.batch.value)) in rows {
      assert MemberOf(t, BatchKey(task.batch.value), k);
    }
  }

  /** An eligible row that endangers nothing takes no protected task with it. */
  lemma HarmlessTakesNothing(t: Tables, snap: Snapshot, rows: set<Row>, k: Id)
    requires Labelled(t) && AllEligible(t, snap, rows)
    requires forall r :: r in rows ==> !Endangers(t, r)
    requires TaskGone(t, rows, k)
    ensures !Protected(t, k)
  {
    TakenBy(t, rows, k);
    hide TaskGone, Awaiting, Open, Unsettled, LabelAllows;
    if TaskOf(k) in rows {
      assert Eligible(t, snap, TaskOf(k)) && !Endangers(t, TaskOf(k));
    } else if key: WorkflowKey :| !key.ChainKey? && WorkflowOf(key) in rows && MemberOf(t, key, k) {
      assert Eligible(t, snap, WorkflowOf(key)) && !Endangers(t, WorkflowOf(key));
      assert !Unsettled(t, key) by {
        assert Workflows.IsTerminal(t.workflows[key].status);
        NotUnsettled(t, key);
      }
    } else {
      var g := t.tasks[k].graph.value;
      assert Eligible(t, snap, GraphOf(g));
      NotOpen(t, g);
    }
  }

  lemma NotUnsettled(t: Tables, key: WorkflowKey)
    requires key in t.workflows && Workflows.IsTerminal(t.workflows[key].status)
    ensures !Unsettled(t, key)
  {
  }

  lemma NotOpen(t: Tables, g: Id)
    requires g in t.graphs && Engine.Terminal(t.graphs[g].status)
    ensures !Open(t, Some(g))
  {
  }

  /** A row that endangers a task takes it. */
  lemma EndangersTakes(t: Tables, rows: set<Row>, r: Row)
    requires Labelled(t) && r in rows && Endangers(t, r)
    ensures exists k :: Protected(t, k) && TaskGone(t, rows, k)
  {
    match r
    case TaskOf(k) => assert Protected(t, k) && TaskGone(t, rows, k);
    case WorkflowOf(key) =>
      var k :| MemberOf(t, key, k);
      assert Protected(t, k) && TaskGone(t, rows, k);
  }

  /**
   Deleting eligible rows spares every live task, and every member of an unsettled workflow
   or graph, exactly when no row in the batch carries an unsettled label the snapshot missed.
   */
  lemma BatchIsSafeIff(t: Tables, snap: Snapshot, rows: set<Row>)
    requires Labelled(t) && AllEligible(t, snap, rows)
    ensures KeepsProtected(t, rows) <==> forall r :: r in rows ==> !Endangers(t, r)
  {
    hide Labelled, AllEligible, Endangers, Protected, TaskGone;
    if forall r :: r in rows ==> !Endangers(t, r) {
      forall k | Protected(t, k)
        ensures !TaskGone(t, rows, k)
      {
        if TaskGone(t, rows, k) {
          HarmlessTakesNothing(t, snap, rows, k);
        }
      }
    } else {
      var r :| r in rows && Endangers(t, r);
      EndangersTakes(t, rows, r);
    }
  }

  /** A snapshot that covers the tables endangers nothing. */
  lemma CoveredIsHarmless(t: Tables, snap: Snapshot, p: Pass, r: Row)
    requires Labelled(t) && Covers(t, snap, p) && InPass(p, r) && Eligible(t, snap, r)
    ensures !Endangers(t, r)
  {
    hide Live, Awaiting, Delivered;
  }

  /** No batch of a sweep whose snapshot still holds takes a protected task. */
  lemma SweepSparesTheLiving(t: Tables, snap: Snapshot, p: Pass, rows: set<Row>)
    requires Labelled(t) && Covers(t, snap, p) && rows <= Query(t, snap, p)
    ensures KeepsProtected(t, rows)
  {
    hide Labelled, Covers, Eligible, Endangers, KeepsProtected;
    forall r | r in rows
      ensures !Endangers(t, r)
    {
      CoveredIsHarmless(t, snap, p, r);
    }
    BatchIsSafeIff(t, snap, rows);
  }

  /** Whatever the snapshot says, the statuses are read again: a live task is never taken. */
  lemma LiveIsNeverTaken(t: Tables, snap: Snapshot, rows: set<Row>, k: Id)
    requires Labelled(t) && AllEligible(t, snap, rows) && k in t.tasks
    ensures TaskGone(t, rows, k) ==> !Live(t.tasks[k].status)
  {
    if TaskGone(t, rows, k) {
      TakenBy(t, rows, k);
      hide TaskGone, Awaiting, LabelAllows, Live;
      if TaskOf(k) in rows {
        assert Eligible(t, snap, TaskOf(k));
      } else if key: WorkflowKey :| !key.ChainKey? && WorkflowOf(key) in rows && MemberOf(t, key, k) {
        assert Eligible(t, snap, WorkflowOf(key));
      } else {
        assert Eligible(t, snap, GraphOf(t.tasks[k].graph.value));
      }
    }
  }

  /**
   The snapshot is read once: a graph resumed after it was read is not in it, and the task
   pass then takes the evidence of a graph that is running again.
   */
  lemma ResumeMidSweepEndangers(t: Tables, snap: Snapshot, g: Id, k: Id)
    requires Labelled(t) && g in t.graphs
    requires TaskEligible(t, snap, k) && t.tasks[k].graph == Some(g)
    ensures var resumed := t.(graphs := t.graphs[g := t.graphs[g].(status := Engine.GraphRunning)]);
            Labelled(resumed) && TaskEligible(resumed, snap, k) && !KeepsProtected(resumed, {TaskOf(k)})
  {
    var resumed := t.(graphs := t.graphs[g := t.graphs[g].(status := Engine.GraphRunning)]);
    assert forall key, j :: MemberOf(resumed, key, j) <==> MemberOf(t, key, j);
    hide MemberOf;
    assert Protected(resumed, k) && TaskGone(resumed, {TaskOf(k)}, k);
  }

  // ---------------------------------------------------------------------------
  // The outbox
  // ---------------------------------------------------------------------------

  lemma GraphGoesDelivered(t: Tables, snap: Snapshot, g: Id, n: nat)
    requires GraphEligible(t, snap, g) && (g, n) in t.settlements
    ensures Delivered(t, g, n)
  {
    hide Delivered;
    var s := (g, n);
    assert s in t.settlements && s.0 == g;
  }

  /** An undelivered settlement keeps its graph; a delivered one is never made to look undelivered. */
  lemma OutboxSurvives(t: Tables, snap: Snapshot, rows: set<Row>, g: Id, n: nat)
    requires Labelled(t) && AllEligible(t, snap, rows) && (g, n) in t.settlements
    ensures var v := Delete(t, rows);
            && (!Delivered(t, g, n) ==> (g, n) in v.settlements && g in v.graphs && v.graphs[g] == t.graphs[g])
            && ((g, n) in v.settlements ==> (Delivered(v, g, n) <==> Delivered(t, g, n)))
  {
    hide TaskGone, Unbind, Unlabel, MemberOf, NodeGone, Awaiting, AllEligible;
    var v := Delete(t, rows);
    if GraphOf(g) in rows {
      AreEligible(t, snap, rows, GraphOf(g));
      GraphGoesDelivered(t, snap, g, n);
    } else if Delivered(t, g, n) {
      var d :| d in t.dispatches && t.dispatches[d].ofGraph && t.dispatches[d].workflow == g &&
               t.dispatches[d].generation == n && t.dispatches[d].settledHook;
      AreEligible(t, snap, rows, DispatchOf(d));
      assert d in v.dispatches && v.dispatches[d] == t.dispatches[d];
    }
  }

  lemma AreEligible(t: Tables, snap: Snapshot, rows: set<Row>, r: Row)
    requires AllEligible(t, snap, rows)
    ensures r in rows ==> Eligible(t, snap, r)
  {
  }

  // ---------------------------------------------------------------------------
  // Batches add up
  // ---------------------------------------------------------------------------

  lemma NodesGoneAddUp(t: Tables, a: set<Row>, b: set<Row>, n: Id)
    requires n in t.nodes
    ensures NodeGone(t, a + b, n) <==> NodeGone(t, a, n) || NodeGone(Delete(t, a), b, n)
  {
  }

  lemma TasksGoneAddUp(t: Tables, a: set<Row>, b: set<Row>, k: Id)
    requires Labelled(t) && k in t.tasks
    ensures TaskGone(t, a + b, k) <==> TaskGone(t, a, k) || TaskGone(Delete(t, a), b, k)
  {
    hide NodeGone, MemberOf;
    var task := t.tasks[k];
    if task.node.Some? {
      NodesGoneAddUp(t, a, b, task.node.value);
    }
    if !TaskGone(t, a, k) {
      var kept := Delete(t, a).tasks[k];
      assert kept.iter == task.iter && kept.batch == task.batch && kept.node == task.node;
    }
  }

  lemma BindingsAddUp(t: Tables, a: set<Row>, b: set<Row>, task: Option<Id>)
    requires Labelled(t)
    ensures Unbind(Delete(t, a), b, Unbind(t, a, task)) == Unbind(t, a + b, task)
  {
    hide TaskGone, MemberOf;
    if task.Some? {
      var k := task.value;
      if k in t.tasks {
        TasksGoneAddUp(t, a, b, k);
      } else {
        NoTaskGone(t, a, k);
        NoTaskGone(t, a + b, k);
        NoTaskGone(Delete(t, a), b, k);
      }
    }
  }

  lemma NoTaskGone(t: Tables, rows: set<Row>, k: Id)
    requires k !in t.tasks
    ensures !TaskGone(t, rows, k)
  {
  }

  lemma LabelsAddUp(a: set<Row>, b: set<Row>, graph: Option<Id>)
    ensures Unlabel(b, Unlabel(a, graph)) == Unlabel(a + b, graph)
  {
  }

  lemma TaskRowsAddUp(t: Tables, a: set<Row>, b: set<Row>)
    requires Labelled(t)
    ensures Delete(Delete(t, a), b).tasks == Delete(t, a + b).tasks
  {
    hide TaskGone, Unlabel, Unbind, MemberOf, Labelled;
    forall k | k in t.tasks
      ensures TaskGone(t, a + b, k) <==> TaskGone(t, a, k) || TaskGone(Delete(t, a), b, k)
      ensures Unlabel(b, Unlabel(a, t.tasks[k].graph)) == Unlabel(a + b, t.tasks[k].graph)
    {
      TasksGoneAddUp(t, a, b, k);
      LabelsAddUp(a, b, t.tasks[k].graph);
    }
  }

  lemma WorkflowRowsAddUp(t: Tables, a: set<Row>, b: set<Row>)
    ensures Delete(Delete(t, a), b).workflows == Delete(t, a + b).workflows
  {
    hide TaskGone, Unlabel, Unbind, MemberOf;
    forall key | key in t.workflows
      ensures Unlabel(b, Unlabel(a, t.workflows[key].graph)) == Unlabel(a + b, t.workflows[key].graph)
    {
      LabelsAddUp(a, b, t.workflows[key].graph);
    }
  }

  lemma StepRowsAddUp(t: Tables, a: set<Row>, b: set<Row>)
    requires Labelled(t)
    ensures Delete(Delete(t, a), b).steps == Delete(t, a + b).steps
  {
    hide TaskGone, Unlabel, Unbind, MemberOf, Labelled;
    forall s | s in t.steps
      ensures Unbind(Delete(t, a), b, Unbind(t, a, t.steps[s].task)) == Unbind(t, a + b, t.steps[s].task)
    {
      BindingsAddUp(t, a, b, t.steps[s].task);
    }
  }

  lemma NodeRowsAddUp(t: Tables, a: set<Row>, b: set<Row>)
    requires Labelled(t)
    ensures Delete(Delete(t, a), b).nodes == Delete(t, a + b).nodes
  {
    hide TaskGone, Unlabel, Unbind, MemberOf, Labelled, NodeGone;
    forall n | n in t.nodes
      ensures NodeGone(t, a + b, n) <==> NodeGone(t, a, n) || NodeGone(Delete(t, a), b, n)
      ensures Unbind(Delete(t, a), b, Unbind(t, a, t.nodes[n].task)) == Unbind(t, a + b, t.nodes[n].task)
    {
      NodesGoneAddUp(t, a, b, n);
      BindingsAddUp(t, a, b, t.nodes[n].task);
    }
  }

  /** Two deletions are one. */
  lemma DeletesAddUp(t: Tables, a: set<Row>, b: set<Row>)
    requires Labelled(t)
    ensures Delete(Delete(t, a), b) == Delete(t, a + b)
  {
    hide TaskGone, Unlabel, Unbind, MemberOf, Labelled, NodeGone;
    TaskRowsAddUp(t, a, b);
    WorkflowRowsAddUp(t, a, b);
    StepRowsAddUp(t, a, b);
    NodeRowsAddUp(t, a, b);
  }

  // ---------------------------------------------------------------------------
  // The queryset after a batch
  // ---------------------------------------------------------------------------

  lemma WorkflowsStayEligible(t: Tables, snap: Snapshot, rows: set<Row>, key: WorkflowKey)
    requires Labelled(t) && forall r :: r in rows ==> r.WorkflowOf?
    ensures WorkflowEligible(Delete(t, rows), snap, key) <==> WorkflowEligible(t, snap, key) && WorkflowOf(key) !in rows
  {
    var v := Delete(t, rows);
    forall k
      ensures MemberOf(v, key, k) <==> k in v.tasks && MemberOf(t, key, k) && WorkflowOf(key) !in rows
      ensures WorkflowOf(key) !in rows && MemberOf(t, key, k) ==> k in v.tasks && v.tasks[k].status == t.tasks[k].status
    {
      MembershipSurvives(t, rows, key, k);
      if WorkflowOf(key) !in rows && MemberOf(t, key, k) && TaskGone(t, rows, k) {
        TakenBy(t, rows, k);
        hide MemberOf, TaskGone;
        assert false;
      }
    }
    hide MemberOf, TaskGone, Labelled;
  }

  lemma TasksStayEligible(t: Tables, snap: Snapshot, rows: set<Row>, k: Id)
    requires Labelled(t) && forall r :: r in rows ==> r.TaskOf?
    ensures TaskEligible(Delete(t, rows), snap, k) <==> TaskEligible(t, snap, k) && TaskOf(k) !in rows
  {
    var v := Delete(t, rows);
    forall key
      ensures MemberOf(v, key, k) <==> k in v.tasks && MemberOf(t, key, k)
    {
      MembershipSurvives(t, rows, key, k);
    }
    assert k in t.tasks ==> (TaskGone(t, rows, k) <==> TaskOf(k) in rows);
    hide MemberOf, TaskGone, Labelled;
  }

  lemma OtherGraphsKeepTasks(t: Tables, rows: set<Row>, g: Id, k: Id)
    requires Labelled(t) && (forall r :: r in rows ==> r.GraphOf?) && GraphOf(g) !in rows
    requires k in t.tasks && t.tasks[k].graph == Some(g)
    ensures var v := Delete(t, rows); k in v.tasks && v.tasks[k] == t.tasks[k]
  {
    hide MemberOf;
  }

  lemma OtherGraphsKeepDeliveries(t: Tables, rows: set<Row>, g: Id)
    requires (forall r :: r in rows ==> r.GraphOf?) && GraphOf(g) !in rows
    ensures Awaiting(Delete(t, rows), g) <==> Awaiting(t, g)
  {
    hide TaskGone, Unbind, Unlabel, Delivered;
    var v := Delete(t, rows);
    forall n
      ensures Delivered(v, g, n) <==> Delivered(t, g, n)
    {
      SameDispatchesSameDelivery(t, v, g, n);
    }
    if Awaiting(t, g) {
      var s :| s in t.settlements && s.0 == g && !Delivered(t, g, s.1);
      assert s in v.settlements;
    }
  }

  lemma SameDispatchesSameDelivery(t: Tables, v: Tables, g: Id, n: nat)
    requires t.dispatches == v.dispatches
    ensures Delivered(v, g, n) <==> Delivered(t, g, n)
  {
  }

  lemma GraphsStayEligible(t: Tables, snap: Snapshot, rows: set<Row>, g: Id)
    requires Labelled(t) && forall r :: r in rows ==> r.GraphOf?
    ensures GraphEligible(Delete(t, rows), snap, g) <==> GraphEligible(t, snap, g) && GraphOf(g) !in rows
  {
    hide MemberOf, TaskGone, Labelled, Awaiting;
    if g in t.graphs && GraphOf(g) !in rows {
      var v := Delete(t, rows);
      OtherGraphsKeepDeliveries(t, rows, g);
      forall k | k in t.tasks && t.tasks[k].graph == Some(g)
        ensures k in v.tasks && v.tasks[k] == t.tasks[k]
      {
        OtherGraphsKeepTasks(t, rows, g, k);
      }
    }
  }

  lemma DispatchesStayEligible(t: Tables, snap: Snapshot, rows: set<Row>, d: Id)
    requires forall r :: r in rows ==> r.DispatchOf?
    ensures DispatchEligible(Delete(t, rows), snap, d) <==> DispatchEligible(t, snap, d) && DispatchOf(d) !in rows
  {
    hide TaskGone, Unbind, Unlabel;
  }

  /** Deleting part of a pass's queryset leaves the rest of it, and nothing new. */
  lemma QueryShrinks(t: Tables, snap: Snapshot, p: Pass, rows: set<Row>)
    requires Labelled(t) && forall r :: r in rows ==> InPass(p, r)
    ensures Query(Delete(t, rows), snap, p) == Query(t, snap, p) - rows
  {
    hide Labelled, Delete, WorkflowEligible, TaskEligible, GraphEligible, DispatchEligible, Query;
    forall r | InPass(p, r)
      ensures Eligible(Delete(t, rows), snap, r) <==> Eligible(t, snap, r) && r !in rows
    {
      match r
      case WorkflowOf(key) => WorkflowsStayEligible(t, snap, rows, key);
      case TaskOf(k) => TasksStayEligible(t, snap, rows, k);
      case GraphOf(g) => GraphsStayEligible(t, snap, rows, g);
      case DispatchOf(d) => DispatchesStayEligible(t, snap, rows, d);
    }
    hide InPass, Eligible;
  }

  // ---------------------------------------------------------------------------
  // One round of the loop
  // ---------------------------------------------------------------------------

  /** Dead tasks revived by a requeue, between the select and the delete. */
  function Revive(t: Tables, revived: set<Id>, now: Time): Tables {
    t.(tasks := map k | k in t.tasks ::
    if k in revived && (t.tasks[k].status.TaskFailed? || t.tasks[k].status.TaskExhausted?)
    then t.tasks[k].(status := Engine.TaskPending, updated := now) else t.tasks[k])
  }

  /** The ids were read before the revival; the delete applies the queryset's filter again. */
  function Round(t: Tables, snap: Snapshot, p: Pass, ids: set<Row>, revived: set<Id>, now: Time): Tables {
    var seen := Revive(t, revived, now);
    Delete(seen, ids * Query(seen, snap, p))
  }

  lemma RevivalKeeps(t: Tables, revived: set<Id>, now: Time)
    ensures var v := Revive(t, revived, now);
            && (Labelled(t) ==> Labelled(v))
            && (forall key, k :: MemberOf(v, key, k) <==> MemberOf(t, key, k))
            && (forall k :: Protected(t, k) ==> Protected(v, k))
  {
    var v := Revive(t, revived, now);
    assert forall key, k :: MemberOf(v, key, k) <==> MemberOf(t, key, k);
    hide MemberOf;
  }

  /** A task a requeue revived survives the round that had already picked it. */
  lemma RevivedSurvive(t: Tables, snap: Snapshot, p: Pass, ids: set<Row>, revived: set<Id>, now: Time, k: Id)
    requires Labelled(t) && k in revived && k in t.tasks
    requires t.tasks[k].status.TaskFailed? || t.tasks[k].status.TaskExhausted?
    ensures var v := Round(t, snap, p, ids, revived, now);
            k in v.tasks && v.tasks[k].status == Engine.TaskPending && v.tasks[k].updated == now
  {
    hide Labelled, TaskGone, Unlabel, Unbind;
    var seen := Revive(t, revived, now);
    RevivalKeeps(t, revived, now);
    LiveIsNeverTaken(seen, snap, ids * Query(seen, snap, p), k);
  }

  /** Settlements nobody delivered, and their graphs, are all still there. */
  ghost predicate OutboxKept(t: Tables, v: Tables) {
    forall g, n :: (g, n) in t.settlements && !Delivered(t, g, n) ==> (g, n) in v.settlements && !Delivered(v, g, n)
  }

  ghost predicate LiveKept(t: Tables, v: Tables) {
    forall k :: k in t.tasks && Live(t.tasks[k].status) ==> k in v.tasks && Live(v.tasks[k].status)
  }

  ghost predicate ProtectedKept(t: Tables, v: Tables) {
    forall k :: Protected(t, k) ==> Protected(v, k)
  }

  /** What is protected is still protected after a batch that spares it. */
  lemma ProtectedStays(t: Tables, snap: Snapshot, rows: set<Row>, k: Id)
    requires Labelled(t) && AllEligible(t, snap, rows) && Protected(t, k) && !TaskGone(t, rows, k)
    ensures Protected(Delete(t, rows), k)
  {
    var v := Delete(t, rows);
    hide TaskGone, Awaiting, LabelAllows;
    if Live(t.tasks[k].status) {
    } else if Open(t, t.tasks[k].graph) {
      AreEligible(t, snap, rows, GraphOf(t.tasks[k].graph.value));
    } else {
      var key :| MemberOf(t, key, k) && Unsettled(t, key);
      AreEligible(t, snap, rows, WorkflowOf(key));
      MembershipSurvives(t, rows, key, k);
      hide MemberOf, Labelled;
      assert MemberOf(v, key, k) && Unsettled(v, key);
    }
  }

  lemma CoverageStays(t: Tables, snap: Snapshot, p: Pass, rows: set<Row>)
    requires Covers(t, snap, p)
    ensures Covers(Delete(t, rows), snap, p)
  {
    hide TaskGone, Unbind, NodeGone;
  }

  lemma RoundOutbox(t: Tables, snap: Snapshot, rows: set<Row>)
    requires Labelled(t) && AllEligible(t, snap, rows)
    ensures OutboxKept(t, Delete(t, rows))
  {
    hide Labelled, AllEligible, Delete, Delivered;
    forall g, n | (g, n) in t.settlements && !Delivered(t, g, n)
      ensures (g, n) in Delete(t, rows).settlements && !Delivered(Delete(t, rows), g, n)
    {
      OutboxSurvives(t, snap, rows, g, n);
    }
  }

  // ---------------------------------------------------------------------------
  // What the cutoff spares
  // ---------------------------------------------------------------------------

  /** A graph that is open, or was touched at the cutoff or later, stays, and every one that stays is as it was. */
  ghost predicate GraphsStay(c: Time, t: Tables, v: Tables) {
    && v.graphs.Keys <= t.graphs.Keys
    && (forall g :: g in v.graphs ==> v.graphs[g] == t.graphs[g])
    && (forall g :: g in t.graphs && (t.graphs[g].updated >= c || Open(t, Some(g))) ==> g in v.graphs)
  }

  /** So does such a workflow, and it keeps its label for as long as its graph is there. */
  ghost predicate WorkflowsStay(c: Time, t: Tables, v: Tables) {
    && v.workflows.Keys <= t.workflows.Keys
    && (forall key :: key in v.workflows ==>
                        && v.workflows[key].status == t.workflows[key].status
                        && v.workflows[key].updated == t.workflows[key].updated
                        && v.workflows[key].graph == LabelIn(v, t.workflows[key].graph))
    && (forall key :: key in t.workflows && (t.workflows[key].updated >= c || Unsettled(t, key)) ==> key in v.workflows)
  }

  /** A label is null once its graph is gone. */
  function LabelIn(v: Tables, graph: Option<Id>): Option<Id> {
    if graph.Some? && graph.value !in v.graphs then None else graph
  }

  /** Nodes and settlements stay exactly with their graph, steps with their chain. */
  ghost predicate PartsFollow(t: Tables, v: Tables) {
    && v.nodes.Keys <= t.nodes.Keys && v.steps.Keys <= t.steps.Keys && v.settlements <= t.settlements
    && (forall n :: n in t.nodes ==> (n in v.nodes <==> t.nodes[n].graph in v.graphs))
    && (forall n :: n in v.nodes ==> v.nodes[n].graph == t.nodes[n].graph)
    && (forall s :: s in t.settlements ==> (s in v.settlements <==> s.0 in v.graphs))
    && (forall s :: s in t.steps && ChainKey(t.steps[s].chain) in v.workflows ==> s in v.steps)
    && (forall s :: s in v.steps ==> v.steps[s].chain == t.steps[s].chain)
    && (forall s :: s in v.steps && ChainKey(t.steps[s].chain) in t.workflows ==> ChainKey(t.steps[s].chain) in v.workflows)
  }

  /** A dispatch row stays if it is younger than the cutoff, and for as long as its graph does. */
  ghost predicate DispatchesStay(c: Time, t: Tables, v: Tables) {
    && v.dispatches.Keys <= t.dispatches.Keys
    && (forall d :: d in v.dispatches ==> v.dispatches[d] == t.dispatches[d])
    && (forall d :: d in t.dispatches && t.dispatches[d].created >= c ==> d in v.dispatches)
    && (forall d :: d in t.dispatches && t.dispatches[d].ofGraph && t.dispatches[d].workflow in v.graphs ==> d in v.dispatches)
  }

  /** A settlement without the dispatch row of its own graph, generation and hook stays, and its graph with it. */
  ghost predicate UndeliveredStay(t: Tables, v: Tables) {
    forall s :: s in t.settlements && s.0 in t.graphs && NobodyDispatched(t, s.0, s.1) ==>
                  s in v.settlements && s.0 in v.graphs
  }

  /** Whatever dispatch rows the graph has for this generation, none is of its settlement hook. */
  predicate NobodyDispatched(t: Tables, g: Id, n: nat) {
    forall d :: d in t.dispatches && t.dispatches[d].settledHook ==>
                  !(t.dispatches[d].ofGraph && t.dispatches[d].workflow == g && t.dispatches[d].generation == n)
  }

  predicate Young(c: Time, task: Task) {
    Live(task.status) || task.updated >= c
  }

  /** The rows a task cascades with are still there. */
  predicate OwnersIn(v: Tables, task: Task) {
    && (task.iter.Some? ==> IterKey(task.iter.value) in v.workflows)
    && (task.batch.Some? ==> BatchKey(task.batch.value) in v.workflows)
    && (task.node.Some? ==> task.node.value in v.nodes)
  }

  /** A task that is live, or was touched at the cutoff or later, goes only with its iter, batch or node. */
  ghost predicate TasksStay(c: Time, t: Tables, v: Tables) {
    && v.tasks.Keys <= t.tasks.Keys
    && (forall k :: k in v.tasks ==>
                      && v.tasks[k].iter == t.tasks[k].iter && v.tasks[k].batch == t.tasks[k].batch
                      && v.tasks[k].node == t.tasks[k].node && v.tasks[k].graph == LabelIn(v, t.tasks[k].graph)
                      && (Young(c, t.tasks[k]) ==> Young(c, v.tasks[k])))
    && (forall k :: k in t.tasks && Young(c, t.tasks[k]) && OwnersIn(v, t.tasks[k]) ==> k in v.tasks)
  }

  /** Everything the cutoff spares. */
  ghost predicate YoungKept(c: Time, t: Tables, v: Tables) {
    && GraphsStay(c, t, v) && WorkflowsStay(c, t, v) && PartsFollow(t, v)
    && DispatchesStay(c, t, v) && UndeliveredStay(t, v) && TasksStay(c, t, v)
  }

  /** Deleting eligible rows, of whatever pass, spares what the cutoff spares. */
  lemma DeleteSparesTheYoung(t: Tables, snap: Snapshot, rows: set<Row>)
    requires Labelled(t) && AllEligible(t, snap, rows)
    ensures YoungKept(snap.cutoff, t, Delete(t, rows))
  {
    hide Labelled, AllEligible, GraphsStay, WorkflowsStay, PartsFollow, DispatchesStay, UndeliveredStay, TasksStay, Delete;
    UndeliveredRowsStay(t, snap, rows);
    GraphRowsStay(t, snap, rows);
    WorkflowRowsStay(t, snap, rows);
    PartRowsFollow(t, rows);
    DispatchRowsStay(t, snap, rows);
    TaskRowsStay(t, snap, rows);
  }

  lemma GraphRowsStay(t: Tables, snap: Snapshot, rows: set<Row>)
    requires AllEligible(t, snap, rows)
    ensures GraphsStay(snap.cutoff, t, Delete(t, rows))
  {
    hide TaskGone, Unbind, Unlabel, NodeGone, Awaiting, AllEligible;
    forall g | g in t.graphs
      ensures GraphOf(g) in rows ==> GraphEligible(t, snap, g)
    {
      AreEligible(t, snap, rows, GraphOf(g));
    }
  }

  lemma LabelsStay(t: Tables, rows: set<Row>, graph: Option<Id>)
    requires graph.Some? ==> graph.value in t.graphs
    ensures Unlabel(rows, graph) == LabelIn(Delete(t, rows), graph)
  {
    hide TaskGone, Unbind, NodeGone;
  }

  lemma WorkflowRowsStay(t: Tables, snap: Snapshot, rows: set<Row>)
    requires Labelled(t) && AllEligible(t, snap, rows)
    ensures WorkflowsStay(snap.cutoff, t, Delete(t, rows))
  {
    hide TaskGone, Unbind, Unlabel, NodeGone, AllEligible, MemberOf, LabelIn;
    forall key | key in t.workflows
      ensures WorkflowOf(key) in rows ==> WorkflowEligible(t, snap, key)
      ensures Unlabel(rows, t.workflows[key].graph) == LabelIn(Delete(t, rows), t.workflows[key].graph)
    {
      AreEligible(t, snap, rows, WorkflowOf(key));
      LabelsStay(t, rows, t.workflows[key].graph);
    }
  }

  lemma PartRowsFollow(t: Tables, rows: set<Row>)
    requires Labelled(t)
    ensures PartsFollow(t, Delete(t, rows))
  {
    hide TaskGone, Unbind, Unlabel, MemberOf;
  }

  lemma DispatchRowsStay(t: Tables, snap: Snapshot, rows: set<Row>)
    requires AllEligible(t, snap, rows)
    ensures DispatchesStay(snap.cutoff, t, Delete(t, rows))
  {
    hide TaskGone, Unbind, Unlabel, NodeGone, AllEligible;
    forall d | d in t.dispatches
      ensures DispatchOf(d) in rows ==> DispatchEligible(t, snap, d)
    {
      AreEligible(t, snap, rows, DispatchOf(d));
    }
  }

  lemma UndeliveredRowsStay(t: Tables, snap: Snapshot, rows: set<Row>)
    requires AllEligible(t, snap, rows)
    ensures UndeliveredStay(t, Delete(t, rows))
  {
    hide TaskGone, Unbind, Unlabel, NodeGone, AllEligible, Awaiting;
    forall s | s in t.settlements && GraphOf(s.0) in rows
      ensures !NobodyDispatched(t, s.0, s.1)
    {
      AreEligible(t, snap, rows, GraphOf(s.0));
      assert s == (s.0, s.1);
      GraphGoesDelivered(t, snap, s.0, s.1);
    }
  }

  lemma TaskRowsStay(t: Tables, snap: Snapshot, rows: set<Row>)
    requires Labelled(t) && AllEligible(t, snap, rows)
    ensures TasksStay(snap.cutoff, t, Delete(t, rows))
  {
    hide Unbind, Unlabel, AllEligible, MemberOf, LabelIn, TaskGone;
    var v := Delete(t, rows);
    forall k | k in t.tasks
      ensures Unlabel(rows, t.tasks[k].graph) == LabelIn(v, t.tasks[k].graph)
      ensures Young(snap.cutoff, t.tasks[k]) && OwnersIn(v, t.tasks[k]) ==> !TaskGone(t, rows, k)
    {
      LabelsStay(t, rows, t.tasks[k].graph);
      AreEligible(t, snap, rows, TaskOf(k));
      if TaskGone(t, rows, k) {
        GoesWithAnOwner(t, rows, k);
      }
    }
  }

  lemma GoesWithAnOwner(t: Tables, rows: set<Row>, k: Id)
    requires k in t.tasks && TaskGone(t, rows, k)
    ensures TaskOf(k) in rows || !OwnersIn(Delete(t, rows), t.tasks[k])
  {
    hide Unbind, Unlabel;
  }

  /** A revival makes a task live, and touches nothing else. */
  lemma RevivalSparesTheYoung(t: Tables, revived: set<Id>, now: Time, c: Time)
    requires Labelled(t)
    ensures YoungKept(c, t, Revive(t, revived, now))
  {
    hide MemberOf;
  }

  lemma YoungAddUp(c: Time, t: Tables, u: Tables, v: Tables)
    requires YoungKept(c, t, u) && YoungKept(c, u, v)
    ensures YoungKept(c, t, v)
  {
    hide GraphsStay, WorkflowsStay, PartsFollow, DispatchesStay, UndeliveredStay, TasksStay;
    UndeliveredAddUp(c, t, u, v);
    GraphsAddUp(c, t, u, v);
    WorkflowsAddUp(c, t, u, v);
    PartsAddUp(c, t, u, v);
    DispatchesAddUp(c, t, u, v);
    YoungTasksAddUp(c, t, u, v);
  }

  lemma GraphsAddUp(c: Time, t: Tables, u: Tables, v: Tables)
    requires GraphsStay(c, t, u) && GraphsStay(c, u, v)
    ensures GraphsStay(c, t, v)
  {
  }

  lemma WorkflowsAddUp(c: Time, t: Tables, u: Tables, v: Tables)
    requires GraphsStay(c, u, v) && WorkflowsStay(c, t, u) && WorkflowsStay(c, u, v)
    ensures WorkflowsStay(c, t, v)
  {
  }

  lemma PartsAddUp(c: Time, t: Tables, u: Tables, v: Tables)
    requires GraphsStay(c, u, v) && WorkflowsStay(c, u, v) && PartsFollow(t, u) && PartsFollow(u, v)
    ensures PartsFollow(t, v)
  {
  }

  lemma DispatchesAddUp(c: Time, t: Tables, u: Tables, v: Tables)
    requires GraphsStay(c, u, v) && DispatchesStay(c, t, u) && DispatchesStay(c, u, v)
    ensures DispatchesStay(c, t, v)
  {
  }

  lemma UndeliveredAddUp(c: Time, t: Tables, u: Tables, v: Tables)
    requires UndeliveredStay(t, u) && UndeliveredStay(u, v) && DispatchesStay(c, t, u)
    ensures UndeliveredStay(t, v)
  {
  }

  lemma YoungTasksAddUp(c: Time, t: Tables, u: Tables, v: Tables)
    requires GraphsStay(c, u, v) && WorkflowsStay(c, u, v) && PartsFollow(u, v) && TasksStay(c, t, u) && TasksStay(c, u, v)
    ensures TasksStay(c, t, v)
  {
    hide Young;
  }

  /** A round spares what the cutoff spares, and what others revive under it. */
  lemma RoundSparesTheYoung(t: Tables, snap: Snapshot, p: Pass, ids: set<Row>, revived: set<Id>, now: Time)
    requires Labelled(t)
    ensures YoungKept(snap.cutoff, t, Round(t, snap, p, ids, revived, now))
  {
    hide Labelled, YoungKept, Delete, Eligible;
    var seen := Revive(t, revived, now);
    RevivalKeeps(t, revived, now);
    RevivalSparesTheYoung(t, revived, now, snap.cutoff);
    DeleteSparesTheYoung(seen, snap, ids * Query(seen, snap, p));
    YoungAddUp(snap.cutoff, t, seen, Round(t, snap, p, ids, revived, now));
  }

  /** A round keeps the labels, the live tasks and the outbox; with a covering snapshot, all it must. */
  lemma RoundKeeps(t: Tables, snap: Snapshot, p: Pass, ids: set<Row>, revived: set<Id>, now: Time)
    requires Labelled(t)
    ensures var v := Round(t, snap, p, ids, revived, now);
            && Labelled(v) && LiveKept(t, v) && OutboxKept(t, v)
            && (Covers(t, snap, p) ==> Covers(v, snap, p) && ProtectedKept(t, v))
  {
    var seen := Revive(t, revived, now);
    var rows := ids * Query(seen, snap, p);
    RevivalKeeps(t, revived, now);
    DeleteKeepsLabels(seen, rows);
    RoundOutbox(seen, snap, rows);
    assert OutboxKept(t, Delete(seen, rows)) by {
      hide Delete;
      forall g, n | (g, n) in t.settlements
        ensures Delivered(seen, g, n) == Delivered(t, g, n)
      {
        SameDispatchesSameDelivery(t, seen, g, n);
      }
      hide Delivered;
    }
    RoundKeepsLive(t, snap, rows, revived, now);
    if Covers(t, snap, p) {
      RevivalKeepsCoverage(t, snap, p, revived, now);
      CoverageStays(seen, snap, p, rows);
      hide Labelled, Covers, Delete, Query, Protected, TaskGone, LiveKept, OutboxKept, AllEligible;
      SweepSparesTheLiving(seen, snap, p, rows);
      forall k | Protected(t, k)
        ensures Protected(Delete(seen, rows), k)
      {
        ProtectedStays(seen, snap, rows, k);
      }
    }
  }

  lemma RevivalKeepsCoverage(t: Tables, snap: Snapshot, p: Pass, revived: set<Id>, now: Time)
    requires Covers(t, snap, p)
    ensures Covers(Revive(t, revived, now), snap, p)
  {
  }

  lemma RoundKeepsLive(t: Tables, snap: Snapshot, rows: set<Row>, revived: set<Id>, now: Time)
    requires Labelled(t) && AllEligible(Revive(t, revived, now), snap, rows)
    ensures LiveKept(t, Delete(Revive(t, revived, now), rows))
  {
    var seen := Revive(t, revived, now);
    RevivalKeeps(t, revived, now);
    hide Labelled, TaskGone, Unlabel, Unbind, AllEligible;
    forall k | k in t.tasks && Live(t.tasks[k].status)
      ensures !TaskGone(seen, rows, k)
    {
      LiveIsNeverTaken(seen, snap, rows, k);
    }
  }

  /** With nobody reviving tasks, a round deletes the ids it read. */
  lemma QuietRound(t: Tables, snap: Snapshot, p: Pass, ids: set<Row>, now: Time)
    requires ids <= Query(t, snap, p)
    ensures Round(t, snap, p, ids, {}, now) == Delete(t, ids)
  {
    hide Query, Delete;
    assert Revive(t, {}, now) == t;
    assert ids * Query(t, snap, p) == ids;
  }

  // ---------------------------------------------------------------------------
  // The count bound
  // ---------------------------------------------------------------------------

  function Settled(tasks: map<Id, Task>): set<Id> {
    set k | k in tasks && !Live(tasks[k].status)
  }

  function Newer(tasks: map<Id, Task>, c: Time): set<Id> {
    set k | k in tasks && !Live(tasks[k].status) && tasks[k].updated > c
  }

  function NotOlder(tasks: map<Id, Task>, c: Time): set<Id> {
    set k | k in tasks && !Live(tasks[k].status) && tasks[k].updated >= c
  }

  lemma {:induction false} SubsetSize<T>(a: set<T>, b: set<T>)
    requires a <= b
    ensures |a| <= |b|
  {
    if a != {} {
      var x :| x in a;
      SubsetSize(a - {x}, b - {x});
    }
  }

  /** The task pass never takes the table below the number of settled tasks it was asked to keep. */
  lemma NewestTasksSurvive(t: Tables, snap: Snapshot, rows: set<Row>, n: nat)
    requires rows <= Query(t, snap, TaskPass) && n <= |NotOlder(t.tasks, snap.cutoff)|
    ensures n <= |Settled(Delete(t, rows).tasks)|
  {
    var v := Delete(t, rows);
    forall k | k in NotOlder(t.tasks, snap.cutoff)
      ensures k in Settled(v.tasks)
    {
      assert !TaskGone(t, rows, k);
    }
    SubsetSize(NotOlder(t.tasks, snap.cutoff), Settled(v.tasks));
  }
}
