/** The sweep over the tables in place: bounded batches, pass by pass. */
module RetentionStore {
  import opened Common
  import opened Retention

  const MAX_BATCHES := 1000

  function Min(a: nat, b: nat): nat {
    if a < b then a else b
  }

  /** A slice of a queryset: any n of its rows, or all of them if there are fewer. */
  method TakeUpTo(rows: set<Row>, n: nat) returns (ids: set<Row>)
    ensures ids <= rows && |ids| == Min(|rows|, n)
  {
    ids := {};
    var rest := rows;
    while |ids| < n && rest != {}
      invariant ids !! rest && ids + rest == rows && |ids| <= n
      decreases rest
    {
      var r :| r in rest;
      rest := rest - {r};
      ids := ids + {r};
    }
    assert |ids + rest| == |ids| + |rest|;
    if rest == {} {
      assert ids == rows;
    }
  }

  /** The settled task nobody settled after, of those left. */
  method Newest(tasks: map<Id, Task>, rest: set<Id>) returns (k: Id)
    requires rest != {} && rest <= tasks.Keys
    ensures k in rest && forall j :: j in rest ==> tasks[j].updated <= tasks[k].updated
  {
    k :| k in rest;
    var unseen := rest - {k};
    while unseen != {}
      invariant k in rest && unseen <= rest
      invariant forall j :: j in rest - unseen ==> tasks[j].updated <= tasks[k].updated
      decreases unseen
    {
      var j :| j in unseen;
      if tasks[j].updated > tasks[k].updated {
        k := j;
      }
      unseen := unseen - {j};
    }
  }

  /**
   The cutoff a count bound stands for: fewer than `maxTasks` settled tasks are newer than
   it, and at least that many are not older. None while the table is under the cap.
   */
  method CountCutoff(tasks: map<Id, Task>, maxTasks: nat) returns (cutoff: Option<Time>)
    requires maxTasks > 0
    ensures cutoff.None? <==> |Settled(tasks)| < maxTasks
    ensures cutoff.Some? ==> IsCountCutoff(tasks, maxTasks, cutoff.value)
  {
    var rest := Settled(tasks);
    if |rest| < maxTasks {
      return None;
    }
    ghost var kept: set<Id> := {};
    var i := 0;
    while i < maxTasks - 1
      invariant i <= maxTasks - 1
      invariant kept !! rest && kept + rest == Settled(tasks) && |kept| == i && |rest| == |Settled(tasks)| - i
      invariant forall a, b :: a in kept && b in rest ==> tasks[a].updated >= tasks[b].updated
    {
      var k := Newest(tasks, rest);
      kept := kept + {k};
      rest := rest - {k};
      i := i + 1;
    }
    var k := Newest(tasks, rest);
    SubsetSize(Newer(tasks, tasks[k].updated), kept);
    SubsetSize(kept + {k}, NotOlder(tasks, tasks[k].updated));
    return Some(tasks[k].updated);
  }

  /** What every round keeps of the tables the loop began with. */
  ghost predicate Kept(start: Tables, t: Tables, snap: Snapshot, p: Pass) {
    && Labelled(t) && LiveKept(start, t) && OutboxKept(start, t) && YoungKept(snap.cutoff, start, t)
    && (Covers(start, snap, p) ==> Covers(t, snap, p) && ProtectedKept(start, t))
  }

  /** The rows gone so far, as one delete, and how many they are after that many rounds. */
  ghost predicate Progress(start: Tables, t: Tables, snap: Snapshot, p: Pass, gone: set<Row>, round: nat, batchSize: nat) {
    var query := Query(start, snap, p);
    && gone <= query && |gone| == Min(|query|, round * batchSize)
    && t == Delete(start, gone) && Query(t, snap, p) == query - gone
    && (round > 0 ==> 0 < batchSize && (round - 1) * batchSize < |query|)
  }

  lemma NothingLost(t: Tables, snap: Snapshot, p: Pass, batchSize: nat)
    requires Labelled(t)
    ensures Kept(t, t, snap, p) && Progress(t, t, snap, p, {}, 0, batchSize)
  {
    hide Labelled, Live, Delivered, Protected, Covers, Query, YoungKept;
    NothingDeleted(t);
    YoungKeptItself(t, snap.cutoff);
    assert 0 * batchSize == 0;
  }

  lemma YoungKeptItself(t: Tables, c: Time)
    requires Labelled(t)
    ensures YoungKept(c, t, t)
  {
    hide MemberOf;
  }

  lemma NothingDeleted(t: Tables)
    ensures Delete(t, {}) == t
  {
  }

  lemma KeepingAddsUp(a: Tables, b: Tables, c: Tables)
    ensures LiveKept(a, b) && LiveKept(b, c) ==> LiveKept(a, c)
    ensures OutboxKept(a, b) && OutboxKept(b, c) ==> OutboxKept(a, c)
    ensures ProtectedKept(a, b) && ProtectedKept(b, c) ==> ProtectedKept(a, c)
  {
    hide Live, Delivered, Protected;
  }

  lemma RoundStaysKept(
      start: Tables, t: Tables, snap: Snapshot, p: Pass, ids: set<Row>, revived: set<Id>, now: Time)
    requires Kept(start, t, snap, p)
    ensures Kept(start, Round(t, snap, p, ids, revived, now), snap, p)
  {
    hide Labelled, LiveKept, OutboxKept, ProtectedKept, YoungKept, Covers, Round;
    RoundKeeps(t, snap, p, ids, revived, now);
    RoundSparesTheYoung(t, snap, p, ids, revived, now);
    YoungAddUp(snap.cutoff, start, t, Round(t, snap, p, ids, revived, now));
    KeepingAddsUp(start, t, Round(t, snap, p, ids, revived, now));
  }

  lemma RoundProgresses(
      start: Tables, t: Tables, snap: Snapshot, p: Pass, gone: set<Row>, ids: set<Row>, round: nat, batchSize: nat, now: Time)
    requires Labelled(start) && Progress(start, t, snap, p, gone, round, batchSize)
    requires ids != {} && ids <= Query(t, snap, p) && |ids| == Min(|Query(t, snap, p)|, batchSize)
    ensures Progress(start, Round(t, snap, p, ids, {}, now), snap, p, gone + ids, round + 1, batchSize)
    ensures ids * Query(Revive(t, {}, now), snap, p) == ids
  {
    hide Labelled, Query, Delete, Revive, Round, Min;
    var query := Query(start, snap, p);
    QuietBatch(start, snap, p, gone, ids, now);
    SizeOfRest(query, gone);
    NextBatch(|query|, |gone|, |ids|, round, batchSize);
  }

  lemma NothingLeft(start: Tables, t: Tables, snap: Snapshot, p: Pass, gone: set<Row>, round: nat, batchSize: nat)
    requires Progress(start, t, snap, p, gone, round, batchSize) && round < MAX_BATCHES
    requires Min(|Query(t, snap, p)|, batchSize) == 0
    ensures var query := Query(start, snap, p);
            && |gone| == Min(|query|, MAX_BATCHES * batchSize)
            && !(0 < batchSize && (MAX_BATCHES - 1) * batchSize < |query|)
  {
    hide Query, Delete, Min;
    SizeOfRest(Query(start, snap, p), gone);
    Exhausted(|Query(start, snap, p)|, |gone|, round, batchSize);
  }

  lemma AreDisjoint(
      start: Tables, t: Tables, snap: Snapshot, p: Pass, gone: set<Row>, ids: set<Row>, round: nat, batchSize: nat)
    requires Progress(start, t, snap, p, gone, round, batchSize) && ids <= Query(t, snap, p)
    ensures |gone + ids| == |gone| + |ids|
  {
    hide Query, Delete, Min;
    assert gone !! ids;
  }

  lemma WhatWasKept(start: Tables, t: Tables, snap: Snapshot, p: Pass, gone: set<Row>, round: nat, batchSize: nat)
    requires Kept(start, t, snap, p)
    ensures Labelled(t) && LiveKept(start, t) && OutboxKept(start, t) && YoungKept(snap.cutoff, start, t)
    ensures Covers(start, snap, p) ==> Covers(t, snap, p) && ProtectedKept(start, t)
    ensures Progress(start, t, snap, p, gone, round, batchSize) ==>
              var query := Query(start, snap, p);
              && gone <= query && t == Delete(start, gone) && |gone| == Min(|query|, round * batchSize)
              && (round > 0 ==> 0 < batchSize && (round - 1) * batchSize < |query|)
  {
  }

  /** A round nobody interfered with adds its ids to what one delete would have taken. */
  lemma QuietBatch(start: Tables, snap: Snapshot, p: Pass, gone: set<Row>, ids: set<Row>, now: Time)
    requires Labelled(start) && gone <= Query(start, snap, p)
    requires ids <= Query(Delete(start, gone), snap, p) == Query(start, snap, p) - gone
    ensures var before := Delete(start, gone);
            && Revive(before, {}, now) == before
            && Round(before, snap, p, ids, {}, now) == Delete(start, gone + ids)
    ensures Query(Delete(start, gone + ids), snap, p) == Query(start, snap, p) - (gone + ids)
    ensures gone + ids <= Query(start, snap, p) && |gone + ids| == |gone| + |ids|
  {
    assert forall r :: r in gone + ids ==> InPass(p, r);
    hide Query, Delete, InPass, Labelled;
    var before := Delete(start, gone);
    QuietRound(before, snap, p, ids, now);
    NobodyRevived(before, now);
    DeletesAddUp(start, gone, ids);
    QueryShrinks(start, snap, p, gone + ids);
    assert gone !! ids;
  }

  lemma NobodyRevived(t: Tables, now: Time)
    ensures Revive(t, {}, now) == t
  {
  }

  lemma SizeOfRest(query: set<Row>, gone: set<Row>)
    requires gone <= query
    ensures |query - gone| == |query| - |gone|
  {
  }

  lemma TimesGrows(a: nat, b: nat, c: nat)
    requires a <= b
    ensures a * c <= b * c
  {
    assert (b - a) * c >= 0;
  }

  /** Where the count stands when the queryset comes back empty. */
  lemma Exhausted(query: nat, gone: nat, round: nat, batchSize: nat)
    requires gone <= query && gone == Min(query, round * batchSize) && round < MAX_BATCHES
    requires Min(query - gone, batchSize) == 0
    ensures gone == Min(query, MAX_BATCHES * batchSize)
    ensures !(0 < batchSize && (MAX_BATCHES - 1) * batchSize < query)
  {
    TimesGrows(round, MAX_BATCHES - 1, batchSize);
    TimesGrows(MAX_BATCHES - 1, MAX_BATCHES, batchSize);
  }

  lemma NextBatch(query: nat, gone: nat, ids: nat, round: nat, batchSize: nat)
    requires gone <= query && gone == Min(query, round * batchSize)
    requires 0 < ids == Min(query - gone, batchSize)
    ensures gone + ids == Min(query, (round + 1) * batchSize)
    ensures 0 < batchSize && round * batchSize < query
  {
    assert (round + 1) * batchSize == round * batchSize + batchSize;
  }

  class RetentionTables {
    var tasks: map<Id, Task>
    var workflows: map<WorkflowKey, Workflow>
    var steps: map<Id, Step>
    var graphs: map<Id, GraphRow>
    var nodes: map<Id, Node>
    var settlements: set<(Id, nat)>
    var dispatches: map<Id, Dispatch>

    function State(): Tables
      reads this
    {
      Tables(tasks, workflows, steps, graphs, nodes, settlements, dispatches)
    }

    method DeleteRows(rows: set<Row>)
      modifies this
      ensures State() == Delete(old(State()), rows)
    {
      var after := Delete(State(), rows);
      tasks, workflows, steps := after.tasks, after.workflows, after.steps;
      graphs, nodes := after.graphs, after.nodes;
      settlements, dispatches := after.settlements, after.dispatches;
    }

    /** What a requeue does in another process, between this sweep's select and its delete. */
    method ReviveRows(revived: set<Id>, now: Time)
      modifies this`tasks
      ensures State() == Revive(old(State()), revived, now)
    {
      tasks := Revive(State(), revived, now).tasks;
    }

    /** The rows read a moment ago, filtered again at the delete. */
    method DeleteBatch(snap: Snapshot, p: Pass, ids: set<Row>, revived: set<Id>, now: Time) returns (batch: set<Row>)
      modifies this
      ensures State() == Round(old(State()), snap, p, ids, revived, now)
      ensures batch == ids * Query(Revive(old(State()), revived, now), snap, p)
    {
      hide Delete, Query, Revive;
      ReviveRows(revived, now);
      batch := ids * Query(State(), snap, p);
      DeleteRows(batch);
    }

    /**
     Rounds of at most `batchSize` rows, until nothing is left, nothing went, or the ceiling.
     `revivals[i]` is what others requeue during round i. Left alone, the loop is the one
     delete of as many of the queryset's rows as the ceiling allows, and the ceiling is
     reported as soon as the last batch allowed was needed, even when it left nothing behind.
     */
    method DeleteInBatches(snap: Snapshot, p: Pass, batchSize: nat, revivals: seq<set<Id>>, now: Time)
      returns (deleted: nat, ceiling: bool, ghost gone: set<Row>)
      requires Labelled(State())
      modifies this
      ensures Labelled(State()) && LiveKept(old(State()), State()) && OutboxKept(old(State()), State())
      ensures YoungKept(snap.cutoff, old(State()), State())
      ensures Covers(old(State()), snap, p) ==> Covers(State(), snap, p) && ProtectedKept(old(State()), State())
      ensures revivals == [] ==>
                && gone <= Query(old(State()), snap, p)
                && deleted == |gone| == Min(|Query(old(State()), snap, p)|, MAX_BATCHES * batchSize)
                && State() == Delete(old(State()), gone)
                && (ceiling <==> 0 < batchSize && (MAX_BATCHES - 1) * batchSize < |Query(old(State()), snap, p)|)
    {
      hide Kept, Progress, Labelled, YoungKept, Delete, Query, Revive, Round, Min;
      ghost var start := State();
      NothingLost(start, snap, p, batchSize);
      deleted, ceiling, gone := 0, false, {};
      var round := 0;
      while round < MAX_BATCHES
        invariant round <= MAX_BATCHES
        invariant Kept(start, State(), snap, p)
        invariant revivals == [] ==> deleted == |gone| && Progress(start, State(), snap, p, gone, round, batchSize)
      {
        ghost var before := State();
        var ids := TakeUpTo(Query(State(), snap, p), batchSize);
        if ids == {} {
          if revivals == [] {
            NothingLeft(start, before, snap, p, gone, round, batchSize);
          }
          WhatWasKept(start, State(), snap, p, gone, round, batchSize);
          return;
        }
        var revived := if round < |revivals| then revivals[round] else {};
        var batch := DeleteBatch(snap, p, ids, revived, now);
        RoundStaysKept(start, before, snap, p, ids, revived, now);
        if revivals == [] {
          RoundProgresses(start, before, snap, p, gone, ids, round, batchSize, now);
          assert batch == ids;
          AreDisjoint(start, before, snap, p, gone, ids, round, batchSize);
        }
        if batch == {} {
          WhatWasKept(start, State(), snap, p, gone, round, batchSize);
          return;
        }
        deleted := deleted + |batch|;
        gone := gone + batch;
        round := round + 1;
      }
      ceiling := true;
      WhatWasKept(start, State(), snap, p, gone, round, batchSize);
    }

    /**
     The sweep: a cutoff from the age, the count or the later of the two; the open graphs
     read once; then chains, iters, batches, tasks, graphs and dispatch rows in that order.
     Others may requeue dead tasks all along; no graph is resumed under it.
     */
    method SweepRetention(now: Time, age: nat, maxTasks: nat, batchSize: nat, revivals: Pass -> seq<set<Id>>)
      returns (deleted: seq<nat>, cutoff: Option<Time>)
      requires Labelled(State())
      modifies this
      ensures Labelled(State()) && LiveKept(old(State()), State()) && OutboxKept(old(State()), State())
      ensures ProtectedKept(old(State()), State())
      ensures cutoff.None? <==> age == 0 && (maxTasks == 0 || |Settled(old(tasks))| < maxTasks)
      ensures cutoff.Some? ==> IsCutoff(old(tasks), now, age, maxTasks, cutoff.value)
      ensures cutoff.None? ==> State() == old(State()) && deleted == []
      ensures cutoff.Some? ==> YoungKept(cutoff.value, old(State()), State())
      ensures cutoff.Some? && (forall p :: revivals(p) == []) && |AllRows(old(State()))| <= MAX_BATCHES * batchSize ==>
                && State() == AfterPasses(old(State()), cutoff.value, OpenGraphs(old(State())), PASSES)
                && NothingExpired(cutoff.value, OpenGraphs(old(State())), State())
    {
      hide Kept, Labelled, Covers, LiveKept, OutboxKept, ProtectedKept, YoungKept, Delete, Query, Min, AllRows, OpenGraphs;
      hide LiveWorkflows, AfterPasses, NothingExpired;
      ghost var start := State();
      deleted, cutoff := [], None;
      KeepsItself(start);
      var byCount := None;
      if maxTasks > 0 {
        byCount := CountCutoff(tasks, maxTasks);
      }
      if age == 0 && byCount.None? {
        return;
      }
      var c := if byCount.None? || (age > 0 && now - age > byCount.value) then now - age else byCount.value;
      cutoff := Some(c);
      var openGraphs := OpenGraphs(State());
      OpenGraphsCover(start, c);
      ghost var quiet := (forall p :: revivals(p) == []) && |AllRows(start)| <= MAX_BATCHES * batchSize;
      NoPasses(start, c, openGraphs);
      YoungKeptItself(start, c);
      for i := 0 to |PASSES|
        invariant Labelled(State()) && LiveKept(start, State()) && OutboxKept(start, State())
        invariant ProtectedKept(start, State()) && YoungKept(c, start, State())
        invariant Covers(State(), Snapshot(c, openGraphs, {}), ChainPass)
        invariant quiet ==>
                    State() == AfterPasses(start, c, openGraphs, PASSES[..i]) && AllRows(State()) <= AllRows(start)
      {
        var p := PASSES[i];
        var live := if p.TaskPass? then LiveWorkflows(State()) else {};
        var snap := Snapshot(c, openGraphs, live);
        ghost var before := State();
        CoverageIsRead(before, c, openGraphs, p, live);
        var count, ceiling, gone := DeleteInBatches(snap, p, batchSize, revivals(p), now);
        KeepingAddsUp(start, before, State());
        YoungAddUp(c, start, before, State());
        CoverageIsShared(State(), c, openGraphs, p, live);
        if quiet {
          WholePass(start, before, c, openGraphs, PASSES[..i], p, gone, MAX_BATCHES * batchSize);
          assert PASSES[..i + 1] == PASSES[..i] + [p];
        }
        deleted := deleted + [count];
      }
      SweepLeavesNothingExpired(start, c);
    }
  }

  const PASSES := [ChainPass, IterPass, BatchPass, TaskPass, GraphPass, DispatchPass]

  /** A count bound's cutoff, as `CountCutoff` finds it. */
  ghost predicate IsCountCutoff(tasks: map<Id, Task>, maxTasks: nat, c: Time) {
    |Newer(tasks, c)| < maxTasks <= |NotOlder(tasks, c)|
  }

  /** One of the two bounds, and no earlier than the other. */
  ghost predicate IsCutoff(tasks: map<Id, Task>, now: Time, age: nat, maxTasks: nat, c: Time) {
    && (age > 0 ==> now - age <= c)
    && (0 < maxTasks <= |Settled(tasks)| ==> exists b :: IsCountCutoff(tasks, maxTasks, b) && b <= c)
    && ((age > 0 && c == now - age) || IsCountCutoff(tasks, maxTasks, c))
  }

  /** The sweep as one delete a pass: the whole queryset each time, open graphs read before the first. */
  ghost function AfterPasses(t: Tables, c: Time, openGraphs: set<Id>, passes: seq<Pass>): Tables {
    if passes == [] then t
    else
      var p := passes[|passes| - 1];
      var u := AfterPasses(t, c, openGraphs, passes[..|passes| - 1]);
      Delete(u, Query(u, Snapshot(c, openGraphs, if p.TaskPass? then LiveWorkflows(u) else {}), p))
  }

  /** Why a row the cutoff does not spare may still be there once its pass is over. */
  ghost predicate Swept(c: Time, open: set<Id>, t: Tables, p: Pass) {
    match p
    case TaskPass => forall k :: k in t.tasks ==> TaskIsKept(c, open, t, k)
    case GraphPass => forall g :: g in t.graphs ==> GraphIsKept(c, t, g)
    case DispatchPass => forall d :: d in t.dispatches ==> DispatchIsKept(c, t, d)
    case _ => forall key :: key in t.workflows && InPass(p, WorkflowOf(key)) ==> WorkflowIsKept(c, open, t, key)
  }

  predicate LabelledOpen(open: set<Id>, graph: Option<Id>) {
    graph.Some? && graph.value in open
  }

  /** It is unsettled, young, labelled with an open graph, or has a live member. */
  ghost predicate WorkflowIsKept(c: Time, open: set<Id>, t: Tables, key: WorkflowKey) {
    && key in t.workflows
    && (Unsettled(t, key) || t.workflows[key].updated >= c || LabelledOpen(open, t.workflows[key].graph)
        || exists k :: MemberOf(t, key, k) && Live(t.tasks[k].status))
  }

  /** It is live, young, labelled with an open graph, or evidence for an unsettled workflow. */
  ghost predicate TaskIsKept(c: Time, open: set<Id>, t: Tables, k: Id) {
    && k in t.tasks
    && (Young(c, t.tasks[k]) || LabelledOpen(open, t.tasks[k].graph) || exists key :: MemberOf(t, key, k) && Unsettled(t, key))
  }

  /** It is open, young, has a live task, or a settlement nobody has delivered. */
  ghost predicate GraphIsKept(c: Time, t: Tables, g: Id) {
    && g in t.graphs
    && (Open(t, Some(g)) || t.graphs[g].updated >= c || Awaiting(t, g)
        || exists k :: k in t.tasks && t.tasks[k].graph == Some(g) && Live(t.tasks[k].status))
  }

  /** It is young, or of a graph that is still there. */
  predicate DispatchIsKept(c: Time, t: Tables, d: Id) {
    && d in t.dispatches
    && (t.dispatches[d].created >= c || (t.dispatches[d].ofGraph && t.dispatches[d].workflow in t.graphs))
  }

  ghost predicate AllOpen(t: Tables, open: set<Id>) {
    forall g :: g in open ==> Open(t, Some(g))
  }

  /** The queryset's filter, from the other side: what it passes over has a reason to stay. */
  lemma EligibleOrKept(t: Tables, c: Time, open: set<Id>, live: set<WorkflowKey>, r: Row)
    requires r in AllRows(t) && (r.TaskOf? ==> forall key :: key in live ==> Unsettled(t, key))
    ensures var snap := Snapshot(c, open, live);
            match r
            case WorkflowOf(key) => WorkflowEligible(t, snap, key) || WorkflowIsKept(c, open, t, key)
            case TaskOf(k) => TaskEligible(t, snap, k) || TaskIsKept(c, open, t, k)
            case GraphOf(g) => GraphEligible(t, snap, g) || GraphIsKept(c, t, g)
            case DispatchOf(d) => DispatchEligible(t, snap, d) || DispatchIsKept(c, t, d)
  {
    hide Awaiting, Live, MemberOf;
    match r
    case WorkflowOf(key) => WorkflowEligibleOrKept(t, c, open, live, key);
    case TaskOf(k) =>
    case GraphOf(g) => OpenIsNotTerminal(t, g);
    case DispatchOf(d) =>
  }

  lemma WorkflowEligibleOrKept(t: Tables, c: Time, open: set<Id>, live: set<WorkflowKey>, key: WorkflowKey)
    requires key in t.workflows
    ensures WorkflowEligible(t, Snapshot(c, open, live), key) || WorkflowIsKept(c, open, t, key)
  {
    hide Live, MemberOf;
    MembersAreTasks(t, key);
  }

  lemma MembersAreTasks(t: Tables, key: WorkflowKey)
    ensures forall k :: MemberOf(t, key, k) ==> k in t.tasks
  {
  }

  /** A pass that deletes its whole queryset leaves only rows with a reason to stay. */
  lemma PassSweeps(t: Tables, c: Time, open: set<Id>, p: Pass, live: set<WorkflowKey>)
    requires Labelled(t) && (p.TaskPass? ==> live == LiveWorkflows(t))
    ensures var snap := Snapshot(c, open, live); Swept(c, open, Delete(t, Query(t, snap, p)), p)
  {
    var snap := Snapshot(c, open, live);
    var rows := Query(t, snap, p);
    var v := Delete(t, rows);
    QueryShrinks(t, snap, p, rows);
    if p.TaskPass? {
      EvidenceStays(t, rows);
    }
    hide Labelled, Delete, WorkflowEligible, TaskEligible, GraphEligible, DispatchEligible, LiveWorkflows;
    hide WorkflowIsKept, TaskIsKept, GraphIsKept, DispatchIsKept, Unsettled;
    forall r | r in AllRows(v) && InPass(p, r)
      ensures match r
              case WorkflowOf(key) => WorkflowIsKept(c, open, v, key)
              case TaskOf(k) => TaskIsKept(c, open, v, k)
              case GraphOf(g) => GraphIsKept(c, v, g)
              case DispatchOf(d) => DispatchIsKept(c, v, d)
    {
      assert r !in Query(v, snap, p);
      EligibleOrKept(v, c, open, live, r);
    }
    KeptIsSwept(v, c, open, p);
  }

  lemma KeptIsSwept(t: Tables, c: Time, open: set<Id>, p: Pass)
    requires forall r :: r in AllRows(t) && InPass(p, r) ==>
                           match r
                           case WorkflowOf(key) => WorkflowIsKept(c, open, t, key)
                           case TaskOf(k) => TaskIsKept(c, open, t, k)
                           case GraphOf(g) => GraphIsKept(c, t, g)
                           case DispatchOf(d) => DispatchIsKept(c, t, d)
    ensures Swept(c, open, t, p)
  {
    hide WorkflowIsKept, TaskIsKept, GraphIsKept, DispatchIsKept;
    forall key | key in t.workflows && InPass(p, WorkflowOf(key))
      ensures WorkflowIsKept(c, open, t, key)
    {
      assert WorkflowOf(key) in AllRows(t);
    }
    forall k | k in t.tasks && p.TaskPass?
      ensures TaskIsKept(c, open, t, k)
    {
      assert TaskOf(k) in AllRows(t);
    }
    forall g | g in t.graphs && p.GraphPass?
      ensures GraphIsKept(c, t, g)
    {
      assert GraphOf(g) in AllRows(t);
    }
    forall d | d in t.dispatches && p.DispatchPass?
      ensures DispatchIsKept(c, t, d)
    {
      assert DispatchOf(d) in AllRows(t);
    }
  }

  lemma OpenIsNotTerminal(t: Tables, g: Id)
    requires g in t.graphs
    ensures Open(t, Some(g)) <==> !Engine.Terminal(t.graphs[g].status)
  {
  }

  /** The task pass deletes no workflow: what was unsettled before it still is. */
  lemma EvidenceStays(t: Tables, rows: set<Row>)
    requires forall r :: r in rows ==> r.TaskOf?
    ensures forall key :: key in LiveWorkflows(t) ==> Unsettled(Delete(t, rows), key)
  {
    hide TaskGone, Unbind, NodeGone;
  }

  /** A reason to stay outlasts the later deletions of the sweep. */
  lemma SweptStays(t: Tables, snap: Snapshot, p: Pass, rows: set<Row>)
    requires Labelled(t) && AllEligible(t, snap, rows) && AllOpen(t, snap.openGraphs)
    requires p != DispatchPass && Swept(snap.cutoff, snap.openGraphs, t, p)
    ensures Swept(snap.cutoff, snap.openGraphs, Delete(t, rows), p)
  {
    var c, open, v := snap.cutoff, snap.openGraphs, Delete(t, rows);
    hide Labelled, Delete, Eligible, AllEligible, WorkflowIsKept, TaskIsKept, GraphIsKept, AllOpen;
    DeleteSparesTheYoung(t, snap, rows);
    match p
    case TaskPass =>
      forall k | k in v.tasks
        ensures TaskIsKept(c, open, v, k)
      {
        KeptTasksStay(t, snap, rows, k);
      }
    case GraphPass =>
      forall g | g in v.graphs
        ensures GraphIsKept(c, v, g)
      {
        KeptGraphsStay(t, snap, rows, g);
      }
    case DispatchPass =>
    case _ =>
      forall key | key in v.workflows && InPass(p, WorkflowOf(key))
        ensures WorkflowIsKept(c, open, v, key)
      {
        KeptWorkflowsStay(t, snap, rows, key);
      }
  }

  lemma OpenStays(t: Tables, snap: Snapshot, rows: set<Row>)
    requires Labelled(t) && AllEligible(t, snap, rows) && AllOpen(t, snap.openGraphs)
    ensures AllOpen(Delete(t, rows), snap.openGraphs)
  {
    hide Labelled, AllEligible, WorkflowsStay, PartsFollow, DispatchesStay, UndeliveredStay, TasksStay, Delete;
    DeleteSparesTheYoung(t, snap, rows);
  }

  /** A label that names an open graph is never set null. */
  lemma OpenLabelsStay(t: Tables, snap: Snapshot, rows: set<Row>, graph: Option<Id>)
    requires Labelled(t) && AllEligible(t, snap, rows) && AllOpen(t, snap.openGraphs)
    ensures LabelledOpen(snap.openGraphs, graph) ==> LabelIn(Delete(t, rows), graph) == graph
  {
    hide Labelled, AllEligible, Delete;
    OpenStays(t, snap, rows);
  }

  lemma KeptWorkflowsStay(t: Tables, snap: Snapshot, rows: set<Row>, key: WorkflowKey)
    requires Labelled(t) && AllEligible(t, snap, rows) && AllOpen(t, snap.openGraphs)
    requires key in Delete(t, rows).workflows && WorkflowIsKept(snap.cutoff, snap.openGraphs, t, key)
    ensures WorkflowIsKept(snap.cutoff, snap.openGraphs, Delete(t, rows), key)
  {
    var v := Delete(t, rows);
    assert WorkflowOf(key) !in rows;
    hide Labelled, AllEligible, MemberOf, GraphsStay, PartsFollow, DispatchesStay, UndeliveredStay, Delete, LabelIn;
    DeleteSparesTheYoung(t, snap, rows);
    OpenLabelsStay(t, snap, rows, t.workflows[key].graph);
    if k :| MemberOf(t, key, k) && Live(t.tasks[k].status) {
      LiveMembersStay(t, snap, rows, key, k);
    }
  }

  lemma LiveMembersStay(t: Tables, snap: Snapshot, rows: set<Row>, key: WorkflowKey, k: Id)
    requires Labelled(t) && AllEligible(t, snap, rows) && WorkflowOf(key) !in rows
    requires MemberOf(t, key, k) && Live(t.tasks[k].status)
    ensures var v := Delete(t, rows); MemberOf(v, key, k) && Live(v.tasks[k].status)
  {
    hide Labelled, AllEligible, TaskGone, Unlabel, Unbind;
    LiveIsNeverTaken(t, snap, rows, k);
    MembershipSurvives(t, rows, key, k);
  }

  lemma KeptTasksStay(t: Tables, snap: Snapshot, rows: set<Row>, k: Id)
    requires Labelled(t) && AllEligible(t, snap, rows) && AllOpen(t, snap.openGraphs)
    requires k in Delete(t, rows).tasks && TaskIsKept(snap.cutoff, snap.openGraphs, t, k)
    ensures TaskIsKept(snap.cutoff, snap.openGraphs, Delete(t, rows), k)
  {
    var v := Delete(t, rows);
    hide Labelled, AllEligible, MemberOf, GraphsStay, PartsFollow, DispatchesStay, UndeliveredStay, Delete, LabelIn;
    DeleteSparesTheYoung(t, snap, rows);
    OpenLabelsStay(t, snap, rows, t.tasks[k].graph);
    if key :| MemberOf(t, key, k) && Unsettled(t, key) {
      UnsettledIsNeverTaken(t, snap, rows, key);
      MembershipSurvives(t, rows, key, k);
    }
  }

  lemma UnsettledIsNeverTaken(t: Tables, snap: Snapshot, rows: set<Row>, key: WorkflowKey)
    requires AllEligible(t, snap, rows) && Unsettled(t, key)
    ensures WorkflowOf(key) !in rows && Unsettled(Delete(t, rows), key)
  {
    hide AllEligible, TaskGone, Unbind, MemberOf;
    AreEligible(t, snap, rows, WorkflowOf(key));
  }

  lemma KeptGraphsStay(t: Tables, snap: Snapshot, rows: set<Row>, g: Id)
    requires Labelled(t) && AllEligible(t, snap, rows)
    requires g in Delete(t, rows).graphs && GraphIsKept(snap.cutoff, t, g)
    ensures GraphIsKept(snap.cutoff, Delete(t, rows), g)
  {
    var v := Delete(t, rows);
    hide Labelled, AllEligible, WorkflowsStay, PartsFollow, DispatchesStay, UndeliveredStay, Delete, Delivered;
    DeleteSparesTheYoung(t, snap, rows);
    if Awaiting(t, g) {
      var s :| s in t.settlements && s.0 == g && !Delivered(t, g, s.1);
      OutboxSurvives(t, snap, rows, g, s.1);
      assert s == (g, s.1);
    } else if k :| k in t.tasks && t.tasks[k].graph == Some(g) && Live(t.tasks[k].status) {
      LiveTasksStay(t, snap, rows, k);
    }
  }

  lemma LiveTasksStay(t: Tables, snap: Snapshot, rows: set<Row>, k: Id)
    requires Labelled(t) && AllEligible(t, snap, rows) && k in t.tasks && Live(t.tasks[k].status)
    ensures var v := Delete(t, rows); k in v.tasks && Live(v.tasks[k].status)
  {
    hide Labelled, AllEligible, TaskGone, Unlabel, Unbind;
    LiveIsNeverTaken(t, snap, rows, k);
  }

  lemma {:induction false} PassesSweep(t: Tables, c: Time, passes: seq<Pass>)
    requires Labelled(t) && forall i :: 0 <= i < |passes| - 1 ==> passes[i] != DispatchPass
    ensures var v := AfterPasses(t, c, OpenGraphs(t), passes);
            && Labelled(v) && AllOpen(v, OpenGraphs(t))
            && forall i :: 0 <= i < |passes| ==> Swept(c, OpenGraphs(t), v, passes[i])
  {
    hide Labelled, Swept, Delete, Query, AllOpen, Eligible;
    var open := OpenGraphs(t);
    if passes == [] {
      TheOpenAreOpen(t);
    } else {
      var n := |passes| - 1;
      var front, p := passes[..n], passes[n];
      PassesSweep(t, c, front);
      var u := AfterPasses(t, c, open, front);
      var snap := Snapshot(c, open, if p.TaskPass? then LiveWorkflows(u) else {});
      var rows := Query(u, snap, p);
      DeleteKeepsLabels(u, rows);
      OpenStays(u, snap, rows);
      PassSweeps(u, c, open, p, snap.liveWorkflows);
      forall i | 0 <= i < n
        ensures Swept(c, open, Delete(u, rows), passes[i])
      {
        assert passes[i] == front[i];
        SweptStays(u, snap, passes[i], rows);
      }
    }
  }

  lemma TheOpenAreOpen(t: Tables)
    ensures AllOpen(t, OpenGraphs(t))
  {
  }

  /** Every row of the tables has a reason to be there. */
  ghost predicate NothingExpired(c: Time, open: set<Id>, t: Tables) {
    && (forall key :: key in t.workflows ==> WorkflowIsKept(c, open, t, key))
    && (forall k :: k in t.tasks ==> TaskIsKept(c, open, t, k))
    && (forall g :: g in t.graphs ==> GraphIsKept(c, t, g))
    && (forall d :: d in t.dispatches ==> DispatchIsKept(c, t, d))
    && (forall g :: g in open ==> Open(t, Some(g)))
  }

  /**
   What a whole sweep leaves: whatever is still there has a reason to be. A workflow or graph
   that is settled and older than the cutoff is kept only by live work, an open graph or an
   undelivered settlement; a dead task that old only by something unsettled; a dispatch row that
   old only by its graph.
   */
  lemma SweepLeavesNothingExpired(t: Tables, c: Time)
    requires Labelled(t)
    ensures NothingExpired(c, OpenGraphs(t), AfterPasses(t, c, OpenGraphs(t), PASSES))
  {
    hide Labelled, AfterPasses, OpenGraphs, WorkflowIsKept, TaskIsKept, GraphIsKept, DispatchIsKept, Open;
    var v, open := AfterPasses(t, c, OpenGraphs(t), PASSES), OpenGraphs(t);
    PassesSweep(t, c, PASSES);
    assert PASSES[0] == ChainPass && PASSES[1] == IterPass && PASSES[2] == BatchPass;
    assert PASSES[3] == TaskPass && PASSES[4] == GraphPass && PASSES[5] == DispatchPass;
    forall key | key in v.workflows
      ensures WorkflowIsKept(c, open, v, key)
    {
      assert Swept(c, open, v, ChainPass) && Swept(c, open, v, IterPass) && Swept(c, open, v, BatchPass);
      match key
      case ChainKey(_) => assert InPass(ChainPass, WorkflowOf(key));
      case IterKey(_) => assert InPass(IterPass, WorkflowOf(key));
      case BatchKey(_) => assert InPass(BatchPass, WorkflowOf(key));
    }
    assert Swept(c, open, v, TaskPass) && Swept(c, open, v, GraphPass) && Swept(c, open, v, DispatchPass);
  }

  lemma NoPasses(t: Tables, c: Time, openGraphs: set<Id>)
    ensures AfterPasses(t, c, openGraphs, PASSES[..0]) == t && PASSES[..|PASSES|] == PASSES
  {
  }

  lemma DeletingAddsNoRows(t: Tables, rows: set<Row>)
    ensures AllRows(Delete(t, rows)) <= AllRows(t)
  {
    hide TaskGone, Unbind, Unlabel, NodeGone;
  }

  lemma {:induction false} SameSizeIsAll<T>(a: set<T>, b: set<T>)
    requires a <= b && |a| == |b|
    ensures a == b
  {
    assert |b - a| == |b| - |a|;
  }

  /** With room under the ceiling, a pass's batches are its whole queryset. */
  lemma WholePass(
      start: Tables, t: Tables, c: Time, openGraphs: set<Id>, earlier: seq<Pass>, p: Pass, gone: set<Row>, room: nat)
    requires t == AfterPasses(start, c, openGraphs, earlier)
    requires AllRows(t) <= AllRows(start) && |AllRows(start)| <= room
    requires var query := Query(t, Snapshot(c, openGraphs, if p.TaskPass? then LiveWorkflows(t) else {}), p);
             gone <= query && |gone| == Min(|query|, room)
    ensures Delete(t, gone) == AfterPasses(start, c, openGraphs, earlier + [p])
    ensures AllRows(Delete(t, gone)) <= AllRows(start)
  {
    hide Query, AllRows, Delete, LiveWorkflows;
    var snap := Snapshot(c, openGraphs, if p.TaskPass? then LiveWorkflows(t) else {});
    var query := Query(t, snap, p);
    QueriesRows(t, snap, p);
    SubsetSize(query, AllRows(start));
    SameSizeIsAll(gone, query);
    DeletingAddsNoRows(t, gone);
    assert (earlier + [p])[..|earlier|] == earlier;
  }

  lemma QueriesRows(t: Tables, snap: Snapshot, p: Pass)
    ensures Query(t, snap, p) <= AllRows(t)
  {
    hide AllRows, Eligible;
  }

  function OpenGraphs(t: Tables): set<Id> {
    set g | g in t.graphs && !Engine.Terminal(t.graphs[g].status)
  }

  function LiveWorkflows(t: Tables): set<WorkflowKey> {
    set key | key in t.workflows && !Workflows.IsTerminal(t.workflows[key].status)
  }

  lemma KeepsItself(t: Tables)
    ensures LiveKept(t, t) && OutboxKept(t, t) && ProtectedKept(t, t)
  {
  }

  lemma OpenGraphsCover(t: Tables, cutoff: Time)
    ensures Covers(t, Snapshot(cutoff, OpenGraphs(t), {}), ChainPass)
  {
  }

  lemma CoverageIsRead(t: Tables, cutoff: Time, openGraphs: set<Id>, p: Pass, live: set<WorkflowKey>)
    requires Covers(t, Snapshot(cutoff, openGraphs, {}), ChainPass)
    requires p.TaskPass? ==> live == LiveWorkflows(t)
    ensures Covers(t, Snapshot(cutoff, openGraphs, live), p)
  {
  }

  lemma CoverageIsShared(t: Tables, cutoff: Time, openGraphs: set<Id>, p: Pass, live: set<WorkflowKey>)
    requires Covers(t, Snapshot(cutoff, openGraphs, live), p)
    ensures Covers(t, Snapshot(cutoff, openGraphs, {}), ChainPass)
  {
  }
}
