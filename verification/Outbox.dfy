/**
 The settlement outbox: one row per settled generation, written with the settlement
 itself, offered to the broker by the live process or by a replay, at most once each.
 Everything a process holds in memory can be lost, and a row it holds can outlive
 the tables it was read from.
 */
module Outbox {
  import opened Common
  import opened Topology
  import opened GraphEngine
  import opened GraphInvariants
  import opened GraphRuns
  import Confluent = GraphConfluence

  /** A settlement row in some process's memory, on its way to the broker. */
  datatype Offer = Offer(generation: nat, context: Context)

  datatype World = World(
    graph: Option<Graph>,
    dispatched: map<nat, Time>,
    sent: seq<Offer>,
    held: multiset<Offer>,
    now: Time)

  datatype Happening =
    | OnGraph(event: Event)
    | ReadRow(generation: nat)
    | Dispatch(offer: Offer, enqueued: bool)
    | Crash(offer: Offer)
    | Tick(seconds: nat)
    | DeleteGraph
    | PruneDispatch(generation: nat)

  ghost predicate Sound(plan: Plan, w: World) {
    ValidPlan(plan) && (w.graph.Some? ==> Inv(plan, w.graph.value))
  }

  /** `dispatch_hook_once`: the claim and the enqueue commit together or not at all. */
  function DispatchOnce(w: World, offer: Offer, enqueued: bool): World {
    if offer.generation in w.dispatched || !enqueued then w
    else w.(dispatched := w.dispatched[offer.generation := w.now], sent := w.sent + [offer])
  }

  ghost function Next(plan: Plan, w: World, h: Happening): (r: World)
    requires Sound(plan, w)
    ensures Sound(plan, r)
  {
    match h
    case OnGraph(e) =>
      if w.graph.None? then w
      else
        StepKeeps(plan, w.graph.value, e, w.now);
        w.(graph := Some(Step(plan, w.graph.value, e, w.now)))
    case ReadRow(n) =>
      if w.graph.Some? && n in w.graph.value.settlements
      then w.(held := w.held + multiset{Offer(n, w.graph.value.settlements[n].context)})
      else w
    case Dispatch(offer, enqueued) =>
      if offer in w.held then DispatchOnce(w.(held := w.held - multiset{offer}), offer, enqueued) else w
    case Crash(offer) => w.(held := w.held - multiset{offer})
    case Tick(seconds) => w.(now := w.now + seconds)
    case DeleteGraph =>
      // Retention takes a terminal graph whose every settlement has a dispatch row.
      if w.graph.Some? && Terminal(w.graph.value.status) && w.graph.value.settlements.Keys <= w.dispatched.Keys
      then w.(graph := None)
      else w
    case PruneDispatch(n) =>
      // A dispatch row is kept for as long as its graph exists.
      if w.graph.None? then w.(dispatched := w.dispatched - {n}) else w
  }

  ghost function Play(plan: Plan, start: Time, run: seq<Happening>): (w: World)
    requires ValidPlan(plan)
    ensures Sound(plan, w)
  {
    if run == [] then
      StartKeeps(plan, start);
      World(Some(Start(plan, start)), map[], [], multiset{}, start)
    else
      Next(plan, Play(plan, start, run[..|run| - 1]), run[|run| - 1])
  }

  // ---------------------------------------------------------------------------
  // Settlement rows
  // ---------------------------------------------------------------------------

  /** The context names the graph's status, its generation and the status of every node. */
  ghost predicate Pictures(c: Context, h: Graph) {
    && c.outcome == h.status && c.generation == h.generation
    && c.nodes.Keys == h.nodes.Keys
    && forall k :: k in h.nodes ==> c.nodes[k] == h.nodes[k].status
  }

  /** A row written by a step shows the graph as that step settled it, and when. */
  ghost predicate NewRowsShow(g: Graph, h: Graph, now: Time) {
    forall n :: n in h.settlements && n !in g.settlements ==>
                  && n == h.generation && h.settledAt == Some(now)
                  && h.settlements[n].created == now && Pictures(h.settlements[n].context, h)
  }

  lemma SettleShows(plan: Plan, g: Graph, status: GraphStatus, now: Time)
    ensures NewRowsShow(g, Settle(plan, g, status, now), now)
  {
  }

  lemma MaybeSettleShows(plan: Plan, g: Graph, now: Time)
    ensures NewRowsShow(g, MaybeSettle(plan, g, now), now)
  {
    hide ReadyNodes, Settle, Has, Pictures;
    SettleShows(plan, g, GraphFailed, now);
    SettleShows(plan, g, GraphCancelled, now);
    SettleShows(plan, g, GraphSucceeded, now);
  }

  lemma FrontierWritesNoRow(plan: Plan, g: Graph)
    requires ValidPlan(plan) && g.nodes.Keys == plan.edges.Keys
    ensures DispatchFrontier(plan, g).settlements == g.settlements
  {
    hide Layered, Ready;
    if g.status == GraphRunning {
      FrontierReleases(plan, g);
    }
  }

  lemma AdvanceShows(plan: Plan, g: Graph, now: Time)
    requires ValidPlan(plan) && g.nodes.Keys == plan.edges.Keys
    ensures NewRowsShow(g, MaybeSettle(plan, DispatchFrontier(plan, g), now), now)
  {
    hide DispatchFrontier, MaybeSettle, Layered, Pictures;
    FrontierWritesNoRow(plan, g);
    MaybeSettleShows(plan, DispatchFrontier(plan, g), now);
  }

  lemma StepShows(plan: Plan, g: Graph, e: Event, now: Time)
    requires Inv(plan, g)
    ensures NewRowsShow(g, Step(plan, g, e, now), now)
  {
    hide DispatchFrontier, MaybeSettle, Base, Decided, RerunSet, Layered, ContextOf, Pictures;
    RowsOf(plan, g);
    match e
    case CompleteTask(t, status) =>
      if Complete(plan, g, t, status, now) != g {
        AdvanceShows(plan, RecordOutcome(g, g.tasks[t].key, OutcomeOf(status).value), now);
      }
    case SkipNode(k) =>
      if Skip(plan, g, k, now).Ok? {
        AdvanceShows(plan, g.(nodes := g.nodes[k := g.nodes[k].(status := Skipped, settled := true)]), now);
      }
    case ApproveNode(k) =>
    case RejectNode(k) =>
      if Reject(plan, g, k, now).Ok? {
        var n := g.nodes[k].(status := Cancelled, settled := true);
        MaybeSettleShows(plan, g.(nodes := g.nodes[k := n]).(status := GraphRunning), now);
      }
    case CancelGraph => SettleShows(plan, g, GraphCancelled, now);
    case ResumeGraph(named) =>
      if Resume(plan, g, named, now).Ok? {
        assert RecordSettlement(plan, g) == g;
        AdvanceShows(plan, Reset(g, RerunSet(plan, g, named)), now);
      }
    case PublishReceipt(t, a, succeeds) =>
  }

  /**
   Whatever happens to a graph, a row is written once, by the step that settles it: it names the
   graph's status, generation and node statuses after that step, and the time of it.
   */
  lemma RowsAreWrittenOnce(plan: Plan, g: Graph, e: Event, now: Time)
    requires Inv(plan, g)
    ensures var h := Step(plan, g, e, now);
            && (forall n :: n in h.settlements && n !in g.settlements ==>
                              var c := h.settlements[n].context;
                              && n == h.generation && h.settledAt == Some(now) && h.settlements[n].created == now
                              && c.outcome == h.status && c.generation == h.generation
                              && c.nodes.Keys == h.nodes.Keys
                              && (forall k :: k in h.nodes ==> c.nodes[k] == h.nodes[k].status))
            && (forall n :: n in g.settlements ==> n in h.settlements && h.settlements[n] == g.settlements[n])
  {
    hide Base, Decided, Outboxed, Step;
    RowsOf(plan, g);
    StepEvolves(plan, g, e, now);
    StepShows(plan, g, e, now);
  }

  /** The point of the run at which the graph settled as the row says. */
  ghost predicate RecordedAt(plan: Plan, start: Time, run: seq<Timed>, i: nat, n: nat, row: Settlement)
    requires ValidPlan(plan)
  {
    && i <= |run|
    && var g := GraphRuns.Run(plan, start, run[..i]);
    g.generation == n && g.settledAt == Some(row.created) && Pictures(row.context, g)
  }

  lemma StartShows(plan: Plan, start: Time)
    requires ValidPlan(plan)
    ensures NewRowsShow(Fresh(plan), Start(plan, start), start)
  {
    hide DispatchFrontier, MaybeSettle, Layered, Pictures;
    AdvanceShows(plan, Fresh(plan), start);
  }

  /** Over whole runs every row is a true record: the graph did settle like that, then, in that generation. */
  lemma {:induction false} RowsAreRecords(plan: Plan, start: Time, run: seq<Timed>, n: nat)
    requires ValidPlan(plan) && n in GraphRuns.Run(plan, start, run).settlements
    ensures exists i :: RecordedAt(plan, start, run, i, n, GraphRuns.Run(plan, start, run).settlements[n])
  {
    hide Inv, Step, Pictures, Start;
    var h := GraphRuns.Run(plan, start, run);
    var row := h.settlements[n];
    assert run[..|run|] == run;
    if run == [] {
      StartShows(plan, start);
      NothingRecordedYet(plan, n);
      assert RecordedAt(plan, start, run, 0, n, row);
    } else {
      var front, last := run[..|run| - 1], run[|run| - 1];
      var g := GraphRuns.Run(plan, start, front);
      StepKeepsRows(plan, g, last.event, last.at);
      if n in g.settlements {
        RowsAreRecords(plan, start, front, n);
        var i: nat :| RecordedAt(plan, start, front, i, n, row);
        assert front[..i] == run[..i];
        assert RecordedAt(plan, start, run, i, n, row);
      } else {
        assert RecordedAt(plan, start, run, |run|, n, row);
      }
    }
  }

  lemma NothingRecordedYet(plan: Plan, n: nat)
    ensures n !in Fresh(plan).settlements
  {
  }

  lemma StepKeepsRows(plan: Plan, g: Graph, e: Event, now: Time)
    requires Inv(plan, g)
    ensures var h := Step(plan, g, e, now);
            && NewRowsShow(g, h, now)
            && forall n :: n in g.settlements ==> n in h.settlements && h.settlements[n] == g.settlements[n]
  {
    hide Base, Decided, Outboxed, Step;
    RowsAreWrittenOnce(plan, g, e, now);
  }

  // ---------------------------------------------------------------------------
  // At most one enqueue
  // ---------------------------------------------------------------------------

  ghost predicate SentOnce(sent: seq<Offer>) {
    forall i, j :: 0 <= i < j < |sent| ==> sent[i].generation != sent[j].generation
  }

  ghost predicate WasSent(sent: seq<Offer>, n: nat) {
    exists i :: 0 <= i < |sent| && sent[i].generation == n
  }

  /** A dispatch row stands for one message, and while the graph exists for every message. */
  ghost predicate Accounted(w: World) {
    && SentOnce(w.sent)
    && (forall n :: n in w.dispatched ==> WasSent(w.sent, n))
    && (w.graph.Some? ==> forall n :: WasSent(w.sent, n) ==> n in w.dispatched)
    && (w.graph.None? ==> forall o :: o in w.held ==> o.generation in w.dispatched)
  }

  /** What is held or sent carries the context of its own settlement. */
  ghost predicate Authentic(w: World) {
    w.graph.Some? ==>
      && (forall o :: o in w.held ==>
                        && o.generation in w.graph.value.settlements
                        && o.context == w.graph.value.settlements[o.generation].context)
      && (forall i :: 0 <= i < |w.sent| ==>
                        && w.sent[i].generation in w.graph.value.settlements
                        && w.sent[i].context == w.graph.value.settlements[w.sent[i].generation].context)
  }

  /** The one thing retention must not do: prune the row of an offer still in flight. */
  ghost predicate PrunesHeld(w: World, h: Happening) {
    && h.PruneDispatch? && w.graph.None?
    && h.generation in w.dispatched
    && exists o :: o in w.held && o.generation == h.generation
  }

  lemma DispatchAccounts(w: World, offer: Offer, enqueued: bool)
    requires Accounted(w) && offer in w.held
    ensures Accounted(DispatchOnce(w.(held := w.held - multiset{offer}), offer, enqueued))
  {
    var r := DispatchOnce(w.(held := w.held - multiset{offer}), offer, enqueued);
    SentOneMore(w.sent, offer);
    assert forall o :: o in r.held ==> o in w.held;
  }

  lemma SentOneMore(sent: seq<Offer>, offer: Offer)
    ensures forall n :: WasSent(sent + [offer], n) <==> WasSent(sent, n) || n == offer.generation
  {
    forall n
      ensures WasSent(sent + [offer], n) <==> WasSent(sent, n) || n == offer.generation
    {
      if WasSent(sent, n) {
        var i :| 0 <= i < |sent| && sent[i].generation == n;
        assert (sent + [offer])[i].generation == n;
      }
      assert (sent + [offer])[|sent|] == offer;
    }
  }

  lemma GrowingIsAuthentic(w: World, h: Graph)
    requires Authentic(w) && w.graph.Some?
    requires forall n :: n in w.graph.value.settlements ==>
                           n in h.settlements && h.settlements[n] == w.graph.value.settlements[n]
    ensures Authentic(w.(graph := Some(h)))
  {
  }

  lemma HoldingIsAuthentic(w: World, held: multiset<Offer>)
    requires Authentic(w)
    requires w.graph.Some? ==>
               forall o :: o in held ==>
                             || o in w.held
                             || (o.generation in w.graph.value.settlements &&
                                 o.context == w.graph.value.settlements[o.generation].context)
    ensures Authentic(w.(held := held))
  {
  }

  lemma DispatchIsAuthentic(w: World, offer: Offer, enqueued: bool)
    requires Authentic(w) && offer in w.held
    ensures Authentic(DispatchOnce(w.(held := w.held - multiset{offer}), offer, enqueued))
  {
    HoldingIsAuthentic(w, w.held - multiset{offer});
  }

  lemma NextKeepsAuthentic(plan: Plan, w: World, h: Happening)
    requires Sound(plan, w) && Authentic(w)
    ensures Authentic(Next(plan, w, h))
  {
    hide Inv, Step, Authentic, DispatchOnce, Pictures;
    match h
    case OnGraph(e) =>
      if w.graph.Some? {
        StepKeepsRows(plan, w.graph.value, e, w.now);
        GrowingIsAuthentic(w, Next(plan, w, h).graph.value);
      }
    case ReadRow(n) =>
      if w.graph.Some? && n in w.graph.value.settlements {
        HoldingIsAuthentic(w, w.held + multiset{Offer(n, w.graph.value.settlements[n].context)});
      }
    case Dispatch(offer, enqueued) =>
      if offer in w.held { DispatchIsAuthentic(w, offer, enqueued); }
    case Crash(offer) => HoldingIsAuthentic(w, w.held - multiset{offer});
    case Tick(_) => OtherwiseAuthentic(w, w.(now := w.now + h.seconds));
    case DeleteGraph => OtherwiseAuthentic(w, w.(graph := None));
    case PruneDispatch(n) => OtherwiseAuthentic(w, w.(dispatched := w.dispatched - {n}));
  }

  lemma OtherwiseAuthentic(w: World, r: World)
    requires Authentic(w) && r.held == w.held && r.sent == w.sent && (r.graph == w.graph || r.graph.None?)
    ensures Authentic(r)
  {
  }

  lemma GraphStepAccounts(w: World, h: Graph)
    requires Accounted(w) && w.graph.Some?
    ensures Accounted(w.(graph := Some(h)))
  {
  }

  lemma DroppingAccounts(w: World, held: multiset<Offer>)
    requires Accounted(w) && (w.graph.None? ==> held <= w.held)
    ensures Accounted(w.(held := held))
  {
    hide SentOnce, WasSent;
    assert w.graph.None? ==> forall o :: o in held ==> o in w.held;
  }

  /** A settled, fully dispatched graph leaves nothing in flight undispatched. */
  lemma DeletingAccounts(w: World)
    requires Accounted(w) && Authentic(w) && w.graph.Some?
    requires w.graph.value.settlements.Keys <= w.dispatched.Keys
    ensures Accounted(w.(graph := None))
  {
    hide SentOnce, WasSent;
  }

  lemma PruningAccounts(w: World, n: nat)
    requires Accounted(w) && w.graph.None?
    ensures Accounted(w.(dispatched := w.dispatched - {n})) <==>
            !(n in w.dispatched && exists o :: o in w.held && o.generation == n)
  {
    hide SentOnce, WasSent;
  }

  /**
   The exact condition: a step keeps "one dispatch row, one message" if and only if it
   is not the pruning of a row some process is still about to dispatch.
   */
  lemma AccountedIff(plan: Plan, w: World, h: Happening)
    requires Sound(plan, w) && Accounted(w) && Authentic(w)
    ensures Accounted(Next(plan, w, h)) <==> !PrunesHeld(w, h)
  {
    hide Inv, Step, Authentic, Accounted, DispatchOnce;
    match h
    case OnGraph(e) => if w.graph.Some? { GraphStepAccounts(w, Next(plan, w, h).graph.value); }
    case ReadRow(n) => DroppingAccounts(w, Next(plan, w, h).held);
    case Dispatch(offer, enqueued) => if offer in w.held { DispatchAccounts(w, offer, enqueued); }
    case Crash(offer) => DroppingAccounts(w, w.held - multiset{offer});
    case Tick(_) => TickAccounts(w, h.seconds);
    case DeleteGraph => if Next(plan, w, h) != w { DeletingAccounts(w); }
    case PruneDispatch(n) => if w.graph.None? { PruningAccounts(w, n); }
  }

  lemma TickAccounts(w: World, seconds: nat)
    requires Accounted(w)
    ensures Accounted(w.(now := w.now + seconds))
  {
  }

  /** And past that point the second message follows: the held offer is dispatched again. */
  lemma PruningHeldSendsTwice(plan: Plan, w: World, n: nat) returns (offer: Offer)
    requires Sound(plan, w) && Accounted(w) && PrunesHeld(w, PruneDispatch(n))
    ensures var sent := Next(plan, Next(plan, w, PruneDispatch(n)), Dispatch(offer, true)).sent;
            && sent == w.sent + [offer] && offer.generation == n && WasSent(w.sent, n)
            && !SentOnce(sent)
  {
    offer :| offer in w.held && offer.generation == n;
    var i :| 0 <= i < |w.sent| && w.sent[i].generation == n;
    var sent := w.sent + [offer];
    assert sent[i].generation == n && sent[|w.sent|] == offer;
  }

  ghost predicate NeverPrunesHeld(plan: Plan, start: Time, run: seq<Happening>)
    requires ValidPlan(plan)
  {
    forall i :: 0 <= i < |run| ==> !PrunesHeld(Play(plan, start, run[..i]), run[i])
  }

  /** Over whole runs, crashes and resumes included, no generation's hook is enqueued twice. */
  lemma {:induction false} AtMostOneEnqueue(plan: Plan, start: Time, run: seq<Happening>)
    requires ValidPlan(plan) && NeverPrunesHeld(plan, start, run)
    ensures var w := Play(plan, start, run); Accounted(w) && Authentic(w) && SentOnce(w.sent)
  {
    hide Next, Inv;
    if run == [] {
    } else {
      var front := run[..|run| - 1];
      forall i | 0 <= i < |front|
        ensures !PrunesHeld(Play(plan, start, front[..i]), front[i])
      {
        assert front[..i] == run[..i];
      }
      AtMostOneEnqueue(plan, start, front);
      assert !PrunesHeld(Play(plan, start, run[..|run| - 1]), run[|run| - 1]);
      NextKeepsAuthentic(plan, Play(plan, start, front), run[|run| - 1]);
      AccountedIff(plan, Play(plan, start, front), run[|run| - 1]);
    }
  }

  /** While its graph exists a hooked generation has its one row exactly if it has settled. */
  lemma ExactlyOneRow(plan: Plan, start: Time, run: seq<Happening>, n: nat)
    requires ValidPlan(plan) && plan.hooked && Play(plan, start, run).graph.Some?
    ensures var g := Play(plan, start, run).graph.value;
            n in g.settlements <==> (1 <= n < g.generation || (n == g.generation && g.settledAt.Some?))
  {
    hide Base, Decided, Play;
    var g := Play(plan, start, run).graph.value;
    assert Inv(plan, g);
  }

  // ---------------------------------------------------------------------------
  // What the hook is told
  // ---------------------------------------------------------------------------

  /** The handler reads of a task what its node's fixed outcome allows: nothing yet, or that outcome. */
  ghost predicate ReadsTruly(o: Confluent.Outcomes, g: Graph, t: TaskId, status: TaskStatus) {
    t < |g.tasks| && g.tasks[t].key in o ==>
      && (status == TaskSucceeded ==> o[g.tasks[t].key])
      && (status == TaskFailed || status == TaskExhausted ==> !o[g.tasks[t].key])
  }

  /** Nothing happens to the graph but completions, which read the tasks truly. */
  ghost predicate Truthful(o: Confluent.Outcomes, w: World, h: Happening) {
    h.OnGraph? && w.graph.Some? ==> h.event.CompleteTask? && ReadsTruly(o, w.graph.value, h.event.task, h.event.status)
  }

  ghost predicate TruthfulRun(plan: Plan, o: Confluent.Outcomes, start: Time, run: seq<Happening>)
    requires ValidPlan(plan)
  {
    forall i :: 0 <= i < |run| ==> Truthful(o, Play(plan, start, run[..i]), run[i])
  }

  /** The first generation's context, with the reference result. */
  ghost predicate Truth(plan: Plan, o: Confluent.Outcomes, n: nat, c: Context) {
    n == 1 && c.generation == 1 && Confluent.ShowsReference(plan, o, c.outcome, c.nodes)
  }

  /** Rows, offers in memory and messages sent all tell the reference result. */
  ghost predicate TellsTruth(plan: Plan, o: Confluent.Outcomes, w: World) {
    && (w.graph.Some? ==>
          && Confluent.OnCourse(plan, o, w.graph.value) && w.graph.value.generation == 1
          && forall n :: n in w.graph.value.settlements ==> Truth(plan, o, n, w.graph.value.settlements[n].context))
    && (forall f :: f in w.held ==> Truth(plan, o, f.generation, f.context))
    && (forall i :: 0 <= i < |w.sent| ==> Truth(plan, o, w.sent[i].generation, w.sent[i].context))
  }

  /** A picture of a settled graph on course is the reference result. */
  lemma PictureIsTrue(plan: Plan, o: Confluent.Outcomes, g: Graph, c: Context)
    requires Confluent.OnCourse(plan, o, g) && g.generation == 1 && g.status != GraphRunning && Pictures(c, g)
    ensures Truth(plan, o, 1, c)
  {
    hide Confluent.OnCourse;
    Confluent.SettledShowsReference(plan, o, g);
    assert c.nodes == map k | k in g.nodes :: g.nodes[k].status;
  }

  lemma SettledIsNotRunning(plan: Plan, g: Graph)
    requires Inv(plan, g) && g.settledAt.Some?
    ensures g.status != GraphRunning
  {
    hide RowsSound, Causal, OncePerGeneration, Decided, Outboxed;
  }

  /** A true reading is one of the deliveries of which confluence speaks. */
  lemma TrueReadingIsADelivery(plan: Plan, o: Confluent.Outcomes, g: Graph, t: TaskId, status: TaskStatus, now: Time)
    requires g.nodes.Keys <= o.Keys && ReadsTruly(o, g, t, status)
    ensures exists d :: Complete(plan, g, t, status, now) == Confluent.Deliver(plan, o, g, d)
  {
    hide MaybeSettle, DispatchFrontier;
    var d := Confluent.Delivery(t, true, OutcomeOf(status).Some?, status == TaskExhausted, now);
    assert Complete(plan, g, t, status, now) == Confluent.Deliver(plan, o, g, d);
  }

  lemma CompletionTellsTruth(plan: Plan, o: Confluent.Outcomes, w: World, h: Happening)
    requires Sound(plan, w) && TellsTruth(plan, o, w) && Truthful(o, w, h) && h.OnGraph? && w.graph.Some?
    ensures TellsTruth(plan, o, Next(plan, w, h))
  {
    hide Inv, Step, Pictures, Truth, Confluent.OnCourse;
    var g, e := w.graph.value, h.event;
    RowsOf(plan, g);
    var r := Step(plan, g, e, w.now);
    StepKeepsRows(plan, g, e, w.now);
    CompletionStaysOnCourse(plan, o, g, e.task, e.status, w.now);
    StepKeeps(plan, g, e, w.now);
    forall n | n in r.settlements
      ensures Truth(plan, o, n, r.settlements[n].context)
    {
      if n !in g.settlements {
        SettledIsNotRunning(plan, r);
        PictureIsTrue(plan, o, r, r.settlements[n].context);
      }
    }
  }

  lemma CompletionStaysOnCourse(plan: Plan, o: Confluent.Outcomes, g: Graph, t: TaskId, status: TaskStatus, now: Time)
    requires Confluent.OnCourse(plan, o, g) && ReadsTruly(o, g, t, status)
    ensures Rows(plan, g)
    ensures var r := Step(plan, g, CompleteTask(t, status), now);
            Confluent.OnCourse(plan, o, r) && r.generation == g.generation
  {
    hide Decided, Outboxed, Causal, OncePerGeneration, RowsSound, Complete, Confluent.Deliver;
    TrueReadingIsADelivery(plan, o, g, t, status, now);
    var d :| Complete(plan, g, t, status, now) == Confluent.Deliver(plan, o, g, d);
    Confluent.DeliverStaysOnCourse(plan, o, g, d);
    CompleteAdvances(plan, g, t, status, now);
  }

  lemma OthersTellTruth(plan: Plan, o: Confluent.Outcomes, w: World, h: Happening)
    requires Sound(plan, w) && TellsTruth(plan, o, w) && (h.OnGraph? ==> w.graph.None?)
    ensures TellsTruth(plan, o, Next(plan, w, h))
  {
    hide Inv, Step, Truth, Confluent.OnCourse;
  }

  lemma StartTellsTruth(plan: Plan, o: Confluent.Outcomes, start: Time)
    requires Confluent.Applicable(plan, o)
    ensures TellsTruth(plan, o, Play(plan, start, []))
  {
    hide DispatchFrontier, MaybeSettle, Layered, Pictures, Truth, Confluent.OnCourse;
    var r := Start(plan, start);
    Confluent.StartIsOnCourse(plan, o, start);
    StartShows(plan, start);
    StartKeeps(plan, start);
    NothingRecordedYetAtAll(plan, start);
    forall n | n in r.settlements
      ensures Truth(plan, o, n, r.settlements[n].context)
    {
      SettledIsNotRunning(plan, r);
      PictureIsTrue(plan, o, r, r.settlements[n].context);
    }
  }

  lemma NothingRecordedYetAtAll(plan: Plan, start: Time)
    requires ValidPlan(plan)
    ensures Fresh(plan).settlements == map[] && Start(plan, start).generation == 1
  {
    hide DispatchFrontier, MaybeSettle;
    FreshIsSound(plan);
    AdvanceAdvances(plan, Fresh(plan), Fresh(plan), start);
  }

  lemma {:induction false} RunTellsTruth(plan: Plan, o: Confluent.Outcomes, start: Time, run: seq<Happening>)
    requires Confluent.Applicable(plan, o) && TruthfulRun(plan, o, start, run)
    ensures TellsTruth(plan, o, Play(plan, start, run))
  {
    hide Next, TellsTruth, Truthful, Confluent.Applicable;
    assert ValidPlan(plan) by { PlanOf(plan, o); }
    if run == [] {
      StartTellsTruth(plan, o, start);
    } else {
      var front, last := run[..|run| - 1], run[|run| - 1];
      forall i | 0 <= i < |front|
        ensures Truthful(o, Play(plan, start, front[..i]), front[i])
      {
        assert front[..i] == run[..i];
      }
      RunTellsTruth(plan, o, start, front);
      var w := Play(plan, start, front);
      assert Truthful(o, w, last);
      if last.OnGraph? && w.graph.Some? {
        CompletionTellsTruth(plan, o, w, last);
      } else {
        OthersTellTruth(plan, o, w, last);
      }
    }
  }

  lemma PlanOf(plan: Plan, o: Confluent.Outcomes)
    requires Confluent.Applicable(plan, o)
    ensures ValidPlan(plan)
  {
  }

  /**
   What the hook of a gate-free graph is told, whatever order completions, replays, crashes and
   retention come in: the reference result, for the graph and for every node of the plan.
   */
  lemma HooksTellTheReference(plan: Plan, o: Confluent.Outcomes, start: Time, run: seq<Happening>, i: nat)
    requires Confluent.Applicable(plan, o) && TruthfulRun(plan, o, start, run)
    requires i < |Play(plan, start, run).sent|
    ensures var c := Play(plan, start, run).sent[i].context;
            && c.outcome == Confluent.ExpectedGraph(plan, o)
            && c.nodes.Keys == plan.edges.Keys
            && (forall k :: k in plan.edges ==> c.nodes[k] == Confluent.Expected(plan, o, k))
  {
    hide Play, TruthfulRun, Confluent.Expected, Confluent.ExpectedGraph, Confluent.OnCourse;
    RunTellsTruth(plan, o, start, run);
  }

  // ---------------------------------------------------------------------------
  // The replay sweep
  // ---------------------------------------------------------------------------

  /** The sweep over these rows: each settlement older than the cutoff without a dispatch row is offered. */
  function Replayed(
    w: World, settlements: map<nat, Settlement>, rows: seq<nat>, cutoff: Time, refused: set<nat>): World
    requires forall n :: n in rows ==> n in settlements
  {
    if rows == [] then w
    else
      var front, n := rows[..|rows| - 1], rows[|rows| - 1];
      var v := Replayed(w, settlements, front, cutoff, refused);
      if settlements[n].created < cutoff && n !in v.dispatched
      then DispatchOnce(v, Offer(n, settlements[n].context), n !in refused)
      else v
  }

  lemma {:induction false} ReplayedCovers(
    w: World, settlements: map<nat, Settlement>, rows: seq<nat>, cutoff: Time, refused: set<nat>)
    requires forall n :: n in rows ==> n in settlements
    ensures var v := Replayed(w, settlements, rows, cutoff, refused);
            && v == w.(dispatched := v.dispatched, sent := v.sent)
            && (forall n :: n in w.dispatched ==> n in v.dispatched)
            && (forall n :: n in rows && settlements[n].created < cutoff && n !in refused ==> n in v.dispatched)
  {
    if rows != [] {
      var front, last := rows[..|rows| - 1], rows[|rows| - 1];
      ReplayedCovers(w, settlements, front, cutoff, refused);
      assert forall n :: n in rows <==> n in front || n == last by { ElementsOf(rows); }
    }
  }

  lemma ElementsOf(rows: seq<nat>)
    requires rows != []
    ensures forall n :: n in rows <==> n in rows[..|rows| - 1] || n == rows[|rows| - 1]
  {
    assert rows == rows[..|rows| - 1] + [rows[|rows| - 1]];
  }

  /** No row is touched but the old undispatched ones, and each new row has its one message. */
  ghost predicate AddsExactly(w: World, v: World, settlements: map<nat, Settlement>, cutoff: Time, refused: set<nat>) {
    && (forall n :: n in w.dispatched ==> n in v.dispatched && v.dispatched[n] == w.dispatched[n])
    && (forall n :: n in v.dispatched && n !in w.dispatched ==>
                      n in settlements && settlements[n].created < cutoff && n !in refused)
    && w.sent <= v.sent
    && (forall n :: WasSent(v.sent[|w.sent|..], n) <==> n in v.dispatched && n !in w.dispatched)
    && SentOnce(v.sent[|w.sent|..])
  }

  lemma OneMoreAddsExactly(
    w: World, v: World, settlements: map<nat, Settlement>, cutoff: Time, refused: set<nat>, n: nat)
    requires AddsExactly(w, v, settlements, cutoff, refused)
    requires n in settlements && settlements[n].created < cutoff && n !in v.dispatched && n !in refused
    ensures AddsExactly(w, DispatchOnce(v, Offer(n, settlements[n].context), true), settlements, cutoff, refused)
  {
    var offer := Offer(n, settlements[n].context);
    var more := v.sent[|w.sent|..];
    assert (v.sent + [offer])[|w.sent|..] == more + [offer];
    SentOneMore(more, offer);
    SentOnceMore(more, offer);
    hide WasSent, SentOnce;
  }

  lemma SentOnceMore(sent: seq<Offer>, offer: Offer)
    requires SentOnce(sent) && !WasSent(sent, offer.generation)
    ensures SentOnce(sent + [offer])
  {
  }

  lemma {:induction false} ReplayedAddsExactly(
    w: World, settlements: map<nat, Settlement>, rows: seq<nat>, cutoff: Time, refused: set<nat>)
    requires forall n :: n in rows ==> n in settlements
    ensures AddsExactly(w, Replayed(w, settlements, rows, cutoff, refused), settlements, cutoff, refused)
  {
    hide AddsExactly;
    if rows == [] {
      NothingAdded(w, settlements, cutoff, refused);
    } else {
      var front, n := rows[..|rows| - 1], rows[|rows| - 1];
      ReplayedAddsExactly(w, settlements, front, cutoff, refused);
      var v := Replayed(w, settlements, front, cutoff, refused);
      if settlements[n].created < cutoff && n !in v.dispatched && n !in refused {
        OneMoreAddsExactly(w, v, settlements, cutoff, refused, n);
      }
    }
  }

  lemma NothingAdded(w: World, settlements: map<nat, Settlement>, cutoff: Time, refused: set<nat>)
    ensures AddsExactly(w, w, settlements, cutoff, refused)
  {
  }

  lemma WhatWasAdded(
    w: World, v: World, settlements: map<nat, Settlement>, rows: seq<nat>, cutoff: Time, refused: set<nat>)
    requires Elements(rows) == settlements.Keys && AddsExactly(w, v, settlements, cutoff, refused)
    requires forall n :: n in rows && n in settlements && settlements[n].created < cutoff && n !in refused ==> n in v.dispatched
    ensures forall n :: n in settlements && settlements[n].created < cutoff && n !in refused ==> n in v.dispatched
    ensures forall n :: n in w.dispatched ==> n in v.dispatched && v.dispatched[n] == w.dispatched[n]
    ensures forall n :: n in v.dispatched && n !in w.dispatched ==>
                          n in settlements && settlements[n].created < cutoff && n !in refused
    ensures w.sent <= v.sent
    ensures forall n :: WasSent(v.sent[|w.sent|..], n) <==> n in v.dispatched && n !in w.dispatched
    ensures SentOnce(v.sent[|w.sent|..])
  {
    hide WasSent, SentOnce;
    forall n | n in settlements
      ensures n in rows
    {
      assert n in Elements(rows);
    }
  }

  /** What an offer does to the tables depends on the tables alone. */
  lemma DispatchRows(v: World, now: Time, offer: Offer, enqueued: bool)
    requires v.now == now
    ensures var a, b := DispatchOnce(v, offer, enqueued), DispatchOnce(World(None, v.dispatched, v.sent, multiset{}, now), offer, enqueued);
            a.dispatched == b.dispatched && a.sent == b.sent && a == v.(dispatched := a.dispatched, sent := a.sent)
  {
  }

  /** Reading a row and dispatching it at once is one offer. */
  lemma ReadThenDispatch(plan: Plan, w: World, n: nat, enqueued: bool)
    requires Sound(plan, w) && w.graph.Some? && n in w.graph.value.settlements
    ensures var offer := Offer(n, w.graph.value.settlements[n].context);
            Next(plan, Next(plan, w, ReadRow(n)), Dispatch(offer, enqueued)) == DispatchOnce(w, offer, enqueued)
  {
    hide Inv;
    var offer := Offer(n, w.graph.value.settlements[n].context);
    assert w.held + multiset{offer} - multiset{offer} == w.held;
  }

  lemma PlayTwoMore(plan: Plan, start: Time, run: seq<Happening>, h: Happening, i: Happening)
    requires ValidPlan(plan)
    ensures Play(plan, start, run + [h, i]) == Next(plan, Next(plan, Play(plan, start, run), h), i)
  {
    hide Next;
    assert (run + [h, i])[..|run| + 1] == run + [h] && (run + [h])[..|run|] == run;
  }

  /** The sweep's moves after a run: reads and dispatches, which prune nothing. */
  lemma {:induction false} ReplayIsARun(
    plan: Plan, start: Time, run: seq<Happening>, rows: seq<nat>, cutoff: Time, refused: set<nat>)
    returns (more: seq<Happening>)
    requires ValidPlan(plan) && Play(plan, start, run).graph.Some?
    requires forall n :: n in rows ==> n in Play(plan, start, run).graph.value.settlements
    ensures forall i :: 0 <= i < |more| ==> more[i].ReadRow? || more[i].Dispatch?
    ensures var w := Play(plan, start, run);
            Play(plan, start, run + more) == Replayed(w, w.graph.value.settlements, rows, cutoff, refused)
  {
    hide Next, Inv, DispatchOnce;
    var w := Play(plan, start, run);
    var settlements := w.graph.value.settlements;
    if rows == [] {
      more := [];
      assert run + more == run;
    } else {
      var front, n := rows[..|rows| - 1], rows[|rows| - 1];
      var before := ReplayIsARun(plan, start, run, front, cutoff, refused);
      var v := Replayed(w, settlements, front, cutoff, refused);
      ReplayedCovers(w, settlements, front, cutoff, refused);
      if settlements[n].created < cutoff && n !in v.dispatched {
        var read, dispatch := ReadRow(n), Dispatch(Offer(n, settlements[n].context), n !in refused);
        more := before + [read, dispatch];
        assert run + more == (run + before) + [read, dispatch];
        PlayTwoMore(plan, start, run + before, read, dispatch);
        ReadThenDispatch(plan, v, n, n !in refused);
      } else {
        more := before;
      }
    }
  }

  /**
   From every reachable state whose graph exists: a replay past the grace that the broker
   does not refuse leaves no settled generation undelivered, and each was sent once.
   */
  lemma ReplayLeavesNothing(plan: Plan, start: Time, run: seq<Happening>, rows: seq<nat>, cutoff: Time, n: nat)
    requires ValidPlan(plan) && plan.hooked && NeverPrunesHeld(plan, start, run)
    requires Play(plan, start, run).graph.Some?
    requires Elements(rows) == Play(plan, start, run).graph.value.settlements.Keys
    requires var g := Play(plan, start, run).graph.value;
             1 <= n < g.generation || (n == g.generation && g.settledAt.Some?)
    ensures var w := Play(plan, start, run);
            && n in w.graph.value.settlements
            && (forall k :: k in rows ==> k in w.graph.value.settlements)
            && var v := Replayed(w, w.graph.value.settlements, rows, cutoff, {});
               && (w.graph.value.settlements[n].created < cutoff ==> n in v.dispatched && WasSent(v.sent, n))
               && SentOnce(v.sent)
  {
    hide Next, Inv, Play, SentOnce, WasSent, PrunesHeld;
    var w := Play(plan, start, run);
    var settlements := w.graph.value.settlements;
    ExactlyOneRow(plan, start, run, n);
    assert forall k :: k in rows <==> k in Elements(rows);
    ReplayedCovers(w, settlements, rows, cutoff, {});
    var more := ReplayIsARun(plan, start, run, rows, cutoff, {});
    forall i | 0 <= i < |run + more|
      ensures !PrunesHeld(Play(plan, start, (run + more)[..i]), (run + more)[i])
    {
      if i < |run| {
        assert (run + more)[..i] == run[..i];
      } else {
        NeverPrunes(Play(plan, start, (run + more)[..i]), more[i - |run|]);
      }
    }
    AtMostOneEnqueue(plan, start, run + more);
  }

  lemma NeverPrunes(w: World, h: Happening)
    requires h.ReadRow? || h.Dispatch?
    ensures !PrunesHeld(w, h)
  {
  }

  // ---------------------------------------------------------------------------
  // The tables
  // ---------------------------------------------------------------------------

  class OutboxTables {
    var settlements: map<nat, Settlement>
    var dispatched: map<nat, Time>
    var sent: seq<Offer>

    /** Claim, enqueue, and roll the claim back if the broker refuses. */
    method DispatchHookOnce(offer: Offer, now: Time, enqueued: bool)
      modifies this`dispatched, this`sent
      ensures var w := DispatchOnce(World(None, old(dispatched), old(sent), multiset{}, now), offer, enqueued);
              dispatched == w.dispatched && sent == w.sent
    {
      if offer.generation in dispatched {
        return;
      }
      var savepoint := dispatched;
      dispatched := dispatched[offer.generation := now];
      if !enqueued {
        dispatched := savepoint;
        return;
      }
      sent := sent + [offer];
    }

    /**
     Offer every settlement older than the cutoff that has no dispatch row.
     `rows` is the table in the order the query reads it; `refused` holds the
     generations whose enqueue fails.
     */
    method ReplaySettledHooks(rows: seq<nat>, cutoff: Time, now: Time, refused: set<nat>) returns (replayed: nat)
      requires Elements(rows) == settlements.Keys
      modifies this`dispatched, this`sent
      ensures forall n :: n in rows ==> n in settlements
      ensures var w := World(None, old(dispatched), old(sent), multiset{}, now);
              var v := Replayed(w, settlements, rows, cutoff, refused);
              dispatched == v.dispatched && sent == v.sent
      ensures forall n :: n in settlements && settlements[n].created < cutoff && n !in refused ==> n in dispatched
      ensures forall n :: n in old(dispatched) ==> n in dispatched && dispatched[n] == old(dispatched[n])
      ensures forall n :: n in dispatched && n !in old(dispatched) ==>
                            n in settlements && settlements[n].created < cutoff && n !in refused
      ensures old(sent) <= sent
      ensures forall n :: WasSent(sent[|old(sent)|..], n) <==> n in dispatched && n !in old(dispatched)
      ensures SentOnce(sent[|old(sent)|..])
    {
      hide AddsExactly, WasSent, SentOnce, DispatchOnce;
      replayed := 0;
      ghost var w := World(None, dispatched, sent, multiset{}, now);
      forall n | n in rows
        ensures n in settlements
      {
        assert n in Elements(rows);
      }
      assert rows[..0] == [] && rows[..|rows|] == rows;
      for i := 0 to |rows|
        invariant var v := Replayed(w, settlements, rows[..i], cutoff, refused);
                  dispatched == v.dispatched && sent == v.sent && v == w.(dispatched := v.dispatched, sent := v.sent)
      {
        var n := rows[i];
        assert rows[..i + 1][..i] == rows[..i];
        if settlements[n].created < cutoff && n !in dispatched {
          DispatchRows(Replayed(w, settlements, rows[..i], cutoff, refused), now, Offer(n, settlements[n].context), n !in refused);
          DispatchHookOnce(Offer(n, settlements[n].context), now, n !in refused);
          replayed := replayed + 1;
        }
      }
      ReplayedCovers(w, settlements, rows, cutoff, refused);
      ReplayedAddsExactly(w, settlements, rows, cutoff, refused);
      WhatWasAdded(w, World(None, dispatched, sent, multiset{}, now), settlements, rows, cutoff, refused);
    }
  }
}
