/**
 Iters and batches: members published with their total in one transaction, counted under
 a row lock as their final attempts are routed, and settled by the last of them.
 */
module Parallel {
  import opened Common
  import opened Workflows

  /** A member's final outcome, and whether its attempt has been counted. */
  datatype Member = Member(outcome: Option<bool>, counted: bool)

  datatype World = World(
    status: Status,
    total: nat,
    completed: nat,
    successes: nat,
    failures: nat,
    settled: bool,
    members: seq<Member>,
    hooks: Hooks,
    progress: nat,
    settlements: nat)

  datatype Increment = Noop | Partial | Complete

  function Created(): World {
    World(Pending, 0, 0, 0, 0, false, [], Hooks({}, [], {}), 0, 0)
  }

  function Fresh(n: nat): seq<Member> {
    seq(n, _ => Member(None, false))
  }

  /**
   Publish the total and create every member, or nothing if one cannot be created. The
   status tested is the one `run`'s handle was read with; the write is not conditional.
   */
  function Publish(w: World, seen: Status, items: nat, created: bool): World {
    if items == 0 || seen != Pending || !created then w
    else w.(total := items, status := Running, members := w.members + Fresh(items))
  }

  /** A member's task reaches SUCCEEDED, or fails with no retry left. */
  function Resolve(w: World, i: nat, won: bool): World {
    if i >= |w.members| || w.members[i].outcome.Some? then w
    else w.(members := w.members[i := w.members[i].(outcome := Some(won))])
  }

  function SettleIfComplete(w: World): (World, bool) {
    if w.completed < w.total || w.settled || IsTerminal(w.status) then (w, false)
    else
      var won := w.failures == 0;
      (w.(status := if won then Succeeded else Failed, settled := true, settlements := w.settlements + 1,
      hooks := w.hooks.(pending := w.hooks.pending + {Hook(if won then SuccessHook else FailureHook, w.settlements)})),
      true)
  }

  /** `_atomic_increment`: under the lock, a cancelled workflow or a counted attempt changes nothing. */
  function AtomicIncrement(w: World, i: nat): (World, Increment)
    requires i < |w.members| && w.members[i].outcome.Some?
  {
    if w.status == Cancelled || w.members[i].counted then (w, Noop)
    else
      var won := w.members[i].outcome.value;
      var counted := w.(
      members := w.members[i := w.members[i].(counted := true)],
      completed := w.completed + 1,
      successes := if won then w.successes + 1 else w.successes,
      failures := if won then w.failures else w.failures + 1);
      if counted.completed < counted.total then (counted, Partial)
      else
        var (v, updated) := SettleIfComplete(counted);
        (v, if updated then Complete else Noop)
  }

  /** One routing of member i's final attempt, live or replayed. */
  function Route(w: World, i: nat): World {
    if i >= |w.members| || w.members[i].outcome.None? then w
    else
      var (v, outcome) := AtomicIncrement(w, i);
      if outcome == Partial then v.(progress := v.progress + 1) else v
  }

  function FireHook(w: World, hook: Hook, enqueued: bool): World {
    if hook in w.hooks.pending then w.(hooks := Fire(w.hooks, hook, enqueued)) else w
  }

  function Cancel(w: World, enqueued: bool): World {
    if w.settled || IsTerminal(w.status) then w
    else
      w.(status := Cancelled, settled := true, settlements := w.settlements + 1,
      hooks := Fire(w.hooks, Hook(CancelledHook, w.settlements), enqueued))
  }

  datatype Event =
    | RunWorkflow(seen: Status, items: nat, created: bool)
    | ResolveMember(index: nat, won: bool)
    | RouteMember(index: nat)
    | DispatchHook(hook: Hook, enqueued: bool)
    | CancelWorkflow(enqueued: bool)
    | Crash

  function Step(w: World, e: Event): World {
    match e
    case RunWorkflow(seen, items, created) => Publish(w, seen, items, created)
    case ResolveMember(i, won) => Resolve(w, i, won)
    case RouteMember(i) => Route(w, i)
    case DispatchHook(hook, enqueued) => FireHook(w, hook, enqueued)
    case CancelWorkflow(enqueued) => Cancel(w, enqueued)
    case Crash => w.(hooks := w.hooks.(pending := {}))
  }

  function Play(run: seq<Event>): World {
    if run == [] then Created() else Step(Play(run[..|run| - 1]), run[|run| - 1])
  }

  // ---------------------------------------------------------------------------
  // Counting
  // ---------------------------------------------------------------------------

  /** Members counted with the given outcome. */
  function Tally(members: seq<Member>, won: bool): nat {
    if members == [] then 0
    else
      var last := members[|members| - 1];
      Tally(members[..|members| - 1], won) + if last.counted && last.outcome == Some(won) then 1 else 0
  }

  lemma {:induction false} TallyOfUpdate(members: seq<Member>, i: nat, m: Member, won: bool)
    requires i < |members|
    ensures Tally(members[i := m], won) + (if members[i].counted && members[i].outcome == Some(won) then 1 else 0) ==
            Tally(members, won) + (if m.counted && m.outcome == Some(won) then 1 else 0)
  {
    var n := |members|;
    if i == n - 1 {
      assert members[i := m][..n - 1] == members[..n - 1];
    } else {
      TallyOfUpdate(members[..n - 1], i, m, won);
      assert members[i := m][..n - 1] == members[..n - 1][i := m];
    }
  }

  ghost predicate AllCounted(members: seq<Member>) {
    forall i :: 0 <= i < |members| ==> members[i].counted
  }

  /** The tallies never exceed the members, and reach them exactly when all are counted. */
  lemma {:induction false} TallyIsFullIff(members: seq<Member>)
    requires forall i :: 0 <= i < |members| && members[i].counted ==> members[i].outcome.Some?
    ensures Tally(members, true) + Tally(members, false) <= |members|
    ensures Tally(members, true) + Tally(members, false) == |members| <==> AllCounted(members)
  {
    if members != [] {
      var front, last := members[..|members| - 1], members[|members| - 1];
      TallyIsFullIff(front);
      if AllCounted(members) {
        assert AllCounted(front);
      }
      if AllCounted(front) && last.counted {
        forall i | 0 <= i < |members|
          ensures members[i].counted
        {
          assert members[i] == if i < |front| then front[i] else last;
        }
        assert AllCounted(members);
        if last.outcome.value {
          assert last.outcome == Some(true);
        } else {
          assert last.outcome == Some(false);
        }
      }
    }
  }

  lemma {:induction false} FreshTally(n: nat, won: bool)
    ensures Tally(Fresh(n), won) == 0
  {
    if n > 0 {
      assert Fresh(n)[..n - 1] == Fresh(n - 1);
      FreshTally(n - 1, won);
    }
  }

  // ---------------------------------------------------------------------------
  // The invariant
  // ---------------------------------------------------------------------------

  ghost predicate Tallied(w: World) {
    && w.successes == Tally(w.members, true)
    && w.failures == Tally(w.members, false)
    && w.completed == w.successes + w.failures
    && w.total == |w.members|
    && (forall i :: 0 <= i < |w.members| && w.members[i].counted ==> w.members[i].outcome.Some?)
  }

  ghost predicate Placed(w: World) {
    && (w.settled <==> IsTerminal(w.status))
    && (w.status == Pending ==> w.total == 0)
    && (w.status == Running ==> w.completed < w.total)
    && (w.status == Succeeded ==> w.completed == w.total > 0 && w.failures == 0)
    && (w.status == Failed ==> w.completed == w.total && w.failures > 0)
    && w.status != WaitingApproval
  }

  ghost predicate Inv(w: World) {
    Tallied(w) && Placed(w) && HooksSound(w.hooks, w.settlements) && w.settlements == if w.settled then 1 else 0
  }

  /**
   The exact condition on `run`: it keeps the counts and the settlement unless it publishes
   on a handle that still shows a status the workflow has left.
   */
  lemma PublishKeepsIff(w: World, seen: Status, items: nat, created: bool)
    requires Inv(w)
    ensures Inv(Publish(w, seen, items, created)) <==>
            !(items > 0 && created && seen == Pending && w.status != Pending)
  {
    hide HooksSound;
    FreshTally(items, true);
    FreshTally(items, false);
    if w.status == Pending {
      assert w.members + Fresh(items) == Fresh(items);
    } else {
      hide Tally;
    }
  }

  lemma ResolveKeeps(w: World, i: nat, won: bool)
    requires Inv(w)
    ensures Inv(Resolve(w, i, won))
  {
    var v := Resolve(w, i, won);
    if v != w {
      TallyOfUpdate(w.members, i, v.members[i], true);
      TallyOfUpdate(w.members, i, v.members[i], false);
    }
  }

  lemma RouteKeeps(w: World, i: nat)
    requires Inv(w)
    ensures Inv(Route(w, i))
  {
    hide HooksSound, Tally;
    if i < |w.members| && w.members[i].outcome.Some? && w.status != Cancelled && !w.members[i].counted {
      var m := w.members[i].(counted := true);
      TallyOfUpdate(w.members, i, m, true);
      TallyOfUpdate(w.members, i, m, false);
      TallyIsFullIff(w.members);
      TallyIsFullIff(w.members[i := m]);
      NewHookIsSound(w.hooks, if Route(w, i).failures == 0 then SuccessHook else FailureHook, w.settlements);
    }
  }

  lemma OtherKeeps(w: World, e: Event)
    requires Inv(w) && (e.DispatchHook? || e.CancelWorkflow? || e.Crash?)
    ensures Inv(Step(w, e))
  {
    hide HooksSound, Tally, Fire;
    match e
    case DispatchHook(hook, enqueued) =>
      if hook in w.hooks.pending { FireKeepsHooks(w.hooks, hook, enqueued, w.settlements); }
    case CancelWorkflow(enqueued) => FiringNewHookIsSound(w.hooks, CancelledHook, enqueued, w.settlements);
    case Crash => CrashedHooksAreSound(w.hooks, w.settlements);
  }

  lemma CrashedHooksAreSound(h: Hooks, settlements: nat)
    requires HooksSound(h, settlements)
    ensures HooksSound(h.(pending := {}), settlements)
  {
  }

  /** No run on a handle the workflow has left behind. */
  ghost predicate Sanctioned(w: World, e: Event) {
    e.RunWorkflow? && e.seen == Pending ==> w.status == Pending
  }

  ghost predicate SanctionedRun(run: seq<Event>) {
    run == [] ||
    var front, last := run[..|run| - 1], run[|run| - 1];
    SanctionedRun(front) && Sanctioned(Play(front), last)
  }

  lemma StepKeeps(w: World, e: Event)
    requires Inv(w) && Sanctioned(w, e)
    ensures Inv(Step(w, e))
  {
    hide Inv, Publish, Resolve, Route, FireHook, Cancel;
    match e
    case RunWorkflow(seen, items, created) => PublishKeepsIff(w, seen, items, created);
    case ResolveMember(i, won) => ResolveKeeps(w, i, won);
    case RouteMember(i) => RouteKeeps(w, i);
    case _ => OtherKeeps(w, e);
  }

  lemma {:induction false} RunKeeps(run: seq<Event>)
    requires SanctionedRun(run)
    ensures Inv(Play(run))
  {
    hide Inv, Step;
    if run == [] {
      CreatedIsSound();
    } else {
      RunKeeps(run[..|run| - 1]);
      StepKeeps(Play(run[..|run| - 1]), run[|run| - 1]);
    }
  }

  lemma NothingCountedIsSound(w: World)
    requires w.members == [] && w.total == w.completed == w.successes == w.failures == w.settlements == 0
    requires w.status == Pending && !w.settled && w.hooks == Hooks({}, [], {})
    ensures Inv(w)
  {
    hide HooksSound;
    NoHooksAreSound();
  }

  lemma CreatedIsSound()
    ensures Inv(Created())
  {
    hide Inv;
    NothingCountedIsSound(Created());
  }

  /**
   Whatever the order of completions, duplicates, crashes, replays and a cancel: the
   counters are the counted members, and the workflow has settled exactly when every
   member was counted, SUCCEEDED exactly when none of them failed, and at most once.
   */
  lemma CountingIsExact(run: seq<Event>)
    requires SanctionedRun(run)
    ensures var w := Play(run);
            && w.completed == w.successes + w.failures <= w.total == |w.members|
            && w.successes == Tally(w.members, true) && w.failures == Tally(w.members, false)
            && w.settlements <= 1 && (w.settled <==> IsTerminal(w.status))
    ensures var w := Play(run);
            w.status != Cancelled && w.status != Pending ==>
              && (IsTerminal(w.status) <==> AllCounted(w.members))
              && (w.status == Succeeded <==> AllCounted(w.members) && NoneLost(w.members))
    ensures |Play(run).hooks.sent| <= 1
  {
    hide Play, Tally, AllCounted, NoneLost;
    RunKeeps(run);
    var w := Play(run);
    TallyIsFullIff(w.members);
    TallyOfLosers(w.members);
    if w.status != Cancelled && w.status != Pending && AllCounted(w.members) {
      assert w.completed == w.total;
    }
    OneSettlementOneHook(w.hooks, w.settlements);
  }

  lemma OneSettlementOneHook(h: Hooks, settlements: nat)
    requires HooksSound(h, settlements) && settlements <= 1
    ensures |h.sent| <= 1
  {
    if |h.sent| > 1 {
      var first, second := h.sent[0].settlement, h.sent[1].settlement;
      assert false;
    }
  }

  ghost predicate NoneLost(members: seq<Member>) {
    forall i :: 0 <= i < |members| && members[i].counted ==> members[i].outcome != Some(false)
  }

  lemma {:induction false} TallyOfLosers(members: seq<Member>)
    ensures Tally(members, false) == 0 <==> NoneLost(members)
  {
    if members != [] {
      var front := members[..|members| - 1];
      TallyOfLosers(front);
      assert forall i :: 0 <= i < |front| ==> front[i] == members[i];
      if NoneLost(members) {
        assert NoneLost(front);
      }
    }
  }

  /** One step for one member: its outcome is the first resolution's, and a routing counts it once it has one. */
  lemma MembersFollowTheirEvents(w: World, e: Event, i: nat)
    requires i < |w.members|
    ensures i < |Step(w, e).members|
    ensures var a, b := w.members[i], Step(w, e).members[i];
            && b.outcome == (if a.outcome.None? && e.ResolveMember? && e.index == i then Some(e.won) else a.outcome)
            && (b.counted <==> a.counted || (e == RouteMember(i) && a.outcome.Some? && w.status != Cancelled))
  {
  }

  /** Over whole runs, a counted member's outcome was reported by a resolution of its own. */
  lemma {:induction false} OutcomesWereReported(run: seq<Event>, i: nat)
    requires i < |Play(run).members| && Play(run).members[i].outcome.Some?
    ensures exists k :: 0 <= k < |run| && run[k] == ResolveMember(i, Play(run).members[i].outcome.value)
  {
    hide Step;
    if run != [] {
      var front, last := run[..|run| - 1], run[|run| - 1];
      var w := Play(front);
      if i < |w.members| {
        MembersFollowTheirEvents(w, last, i);
        if w.members[i].outcome.Some? {
          OutcomesWereReported(front, i);
          var k :| 0 <= k < |front| && front[k] == ResolveMember(i, w.members[i].outcome.value);
          assert run[k] == front[k];
        } else {
          assert run[|run| - 1] == ResolveMember(i, Play(run).members[i].outcome.value);
        }
      } else {
        NewMembersAreOpen(w, last, i);
      }
    }
  }

  lemma NewMembersAreOpen(w: World, e: Event, i: nat)
    requires |w.members| <= i < |Step(w, e).members|
    ensures Step(w, e).members[i] == Member(None, false)
  {
  }

  /** The increment's answer: PARTIAL if it counted one of several left, COMPLETE if it settled the workflow. */
  lemma AnswersMean(w: World, i: nat)
    requires i < |w.members| && w.members[i].outcome.Some?
    ensures var (v, answer) := AtomicIncrement(w, i);
            && (answer == Partial <==> v.completed == w.completed + 1 < v.total)
            && (answer == Complete <==> v.settlements == w.settlements + 1)
            && Route(w, i) == v.(progress := if answer == Partial then w.progress + 1 else w.progress)
  {
  }

  /** What is settled or terminal is settled by no routing and no cancel, whatever the counters say. */
  lemma SettlingIsOnce(w: World, e: Event)
    requires (w.settled || IsTerminal(w.status)) && (e.RouteMember? || e.CancelWorkflow?)
    ensures var v := Step(w, e);
            v.status == w.status && v.settled == w.settled && v.settlements == w.settlements && v.hooks == w.hooks
  {
  }

  // ---------------------------------------------------------------------------
  // Cancel and replay
  // ---------------------------------------------------------------------------

  predicate StaleRun(e: Event) {
    e.RunWorkflow? && e.seen == Pending && e.items > 0 && e.created
  }

  /** A cancel freezes the status and every counter against anything but a run on an older handle. */
  lemma CancelFreezesIff(w: World, e: Event)
    requires w.status == Cancelled && w.settled
    ensures Step(w, e).status == Cancelled <==> !StaleRun(e)
    ensures var v := Step(w, e);
            !StaleRun(e) ==>
            && v.status == Cancelled && v.settled && v.settlements == w.settlements
            && v.completed == w.completed && v.successes == w.successes && v.failures == w.failures
            && v.total == w.total && v.progress == w.progress
  {
  }

  /** A workflow cancelled and then run: counted to the end, it never settles and cannot be cancelled. */
  lemma StaleRunNeverSettles(w: World, e: Event)
    requires w.settled && (w.status == Running || (w.status == Cancelled && StaleRun(e)))
    ensures var v := Step(w, e); v.status == Running && v.settled && v.settlements == w.settlements
  {
  }

  /** Routing a member twice counts it once, then and ever after. */
  predicate Spent(w: World, i: nat) {
    i < |w.members| && (w.status == Cancelled || w.members[i].counted)
  }

  lemma RoutingSpends(w: World, i: nat)
    requires i < |w.members| && w.members[i].outcome.Some?
    ensures Spent(Route(w, i), i)
  {
  }

  lemma SpentStaysSpent(w: World, e: Event, i: nat)
    requires Inv(w) && Sanctioned(w, e) && Spent(w, i)
    ensures Spent(Step(w, e), i)
  {
    hide HooksSound, Tally;
  }

  lemma SpentIsInert(w: World, i: nat)
    requires Spent(w, i)
    ensures Route(w, i) == w
  {
  }

  lemma {:induction false} ReplayIsInert(run: seq<Event>, k: nat, i: nat)
    requires SanctionedRun(run) && k < |run| && run[k] == RouteMember(i)
    requires i < |Play(run[..k]).members| && Play(run[..k]).members[i].outcome.Some?
    ensures Route(Play(run), i) == Play(run) && Spent(Play(run), i)
    decreases |run|
  {
    hide Inv, Step, Route, Spent;
    var front, last := run[..|run| - 1], run[|run| - 1];
    if k == |run| - 1 {
      StepRoutes(Play(front), i);
      RoutingSpends(Play(front), i);
    } else {
      assert front[..k] == run[..k];
      ReplayIsInert(front, k, i);
      RunKeeps(front);
      SpentStaysSpent(Play(front), last, i);
    }
    SpentIsInert(Play(run), i);
  }

  lemma StepRoutes(w: World, i: nat)
    ensures Step(w, RouteMember(i)) == Route(w, i)
  {
  }

  /** A settlement's hook has been queued, or a process is about to queue it. */
  predicate Announced(w: World) {
    w.settled ==> w.hooks.sent != [] || w.hooks.pending != {}
  }

  /** A dispatch row stands for a message: nothing else suppresses a hook. */
  predicate RowsAreSent(w: World) {
    w.hooks.rows != {} ==> w.hooks.sent != []
  }

  /** The settlement's own process dies before it dispatches, or the broker refuses its only message. */
  predicate LosesHook(w: World, e: Event) {
    || (e.Crash? && w.settled && w.hooks.sent == [])
    || (e.DispatchHook? && e.hook in w.hooks.pending && !e.enqueued && w.hooks.sent == [])
    || (e.CancelWorkflow? && !w.settled && !IsTerminal(w.status) && !e.enqueued)
  }

  /** The exact condition: a step leaves a settlement unannounced if and only if it is one of these. */
  lemma HookIsLostIff(w: World, e: Event)
    requires Inv(w) && Sanctioned(w, e) && RowsAreSent(w) && Announced(w)
    ensures Announced(Step(w, e)) <==> !LosesHook(w, e)
  {
    hide Tally;
    match e
    case DispatchHook(hook, enqueued) =>
      if hook in w.hooks.pending {
        OneHookIsHeld(w, hook);
      }
    case CancelWorkflow(enqueued) => NoHookBeforeSettling(w);
    case _ =>
  }

  /** A workflow settles once, so a held hook is the only one there is. */
  lemma OneHookIsHeld(w: World, hook: Hook)
    requires Inv(w) && hook in w.hooks.pending
    ensures w.hooks.pending == {hook} && w.hooks.sent == [] && w.settled
  {
    hide Tally;
    forall p | p in w.hooks.pending
      ensures p == hook
    {
      assert p.settlement == 0 == hook.settlement;
    }
    if |w.hooks.sent| > 0 {
      var first := w.hooks.sent[0].settlement;
      assert false;
    }
  }

  lemma NoHookBeforeSettling(w: World)
    requires Inv(w)
    ensures !w.settled ==> w.hooks.pending == {} && w.hooks.sent == []
  {
    hide Tally;
    if !w.settled {
      if |w.hooks.sent| > 0 {
        var first := w.hooks.sent[0].settlement;
        assert false;
      }
      assert forall p :: p in w.hooks.pending ==> p.settlement < 0;
    }
  }

  lemma StepKeepsRowsSent(w: World, e: Event)
    requires RowsAreSent(w)
    ensures RowsAreSent(Step(w, e)) && w.hooks.sent <= Step(w, e).hooks.sent
  {
    hide Tally;
  }

  /** Once lost, a hook stays lost: no completion, replay or cancel sends one. */
  lemma LostHookStaysLost(w: World, e: Event)
    requires Inv(w) && Sanctioned(w, e) && w.settled && w.hooks.pending == {}
    ensures Step(w, e).hooks == w.hooks && Step(w, e).settled
  {
    hide HooksSound, Tally;
  }

  /** Hooks exist only of a settled workflow, and are of the kind its status calls for. */
  ghost predicate HooksName(w: World) {
    && (forall p :: p in w.hooks.pending ==> w.settled && Announces(p.kind, w.status))
    && (forall i :: 0 <= i < |w.hooks.sent| ==> w.settled && Announces(w.hooks.sent[i].kind, w.status))
  }

  lemma StepKeepsNames(w: World, e: Event)
    requires Inv(w) && Sanctioned(w, e) && HooksName(w)
    ensures HooksName(Step(w, e))
  {
    hide HooksSound, Tally;
    NoHookBeforeSettling(w);
  }

  lemma {:induction false} RunKeepsNames(run: seq<Event>)
    requires SanctionedRun(run)
    ensures HooksName(Play(run))
  {
    hide Inv, Step;
    if run != [] {
      RunKeepsNames(run[..|run| - 1]);
      RunKeeps(run[..|run| - 1]);
      StepKeepsNames(Play(run[..|run| - 1]), run[|run| - 1]);
    }
  }

  /**
   Over whole runs, whatever is on its way or sent: the workflow has settled, and the hook is
   its success hook exactly if it SUCCEEDED, its failure hook if it FAILED, the other if CANCELLED.
   */
  lemma HooksNameTheOutcome(run: seq<Event>, hook: Hook)
    requires SanctionedRun(run) && (hook in Play(run).hooks.pending || hook in Play(run).hooks.sent)
    ensures var w := Play(run);
            && w.settled
            && (hook.kind == SuccessHook <==> w.status == Succeeded)
            && (hook.kind == FailureHook <==> w.status == Failed)
            && (hook.kind == CancelledHook <==> w.status == Cancelled)
  {
    hide Play, SanctionedRun;
    RunKeepsNames(run);
  }

  /** Some event of the run lost it. */
  predicate LostOnTheWay(run: seq<Event>) {
    exists k :: 0 <= k < |run| && LosesHook(Play(run[..k]), run[k])
  }

  lemma LostOnTheWayNext(run: seq<Event>)
    requires run != []
    ensures var front, last := run[..|run| - 1], run[|run| - 1];
            LostOnTheWay(run) <==> LostOnTheWay(front) || LosesHook(Play(front), last)
  {
    hide Play, LosesHook;
    var front := run[..|run| - 1];
    forall k | 0 <= k < |front|
      ensures front[..k] == run[..k] && front[k] == run[k]
    {
    }
    if LostOnTheWay(front) {
      var k :| 0 <= k < |front| && LosesHook(Play(front[..k]), front[k]);
      assert LosesHook(Play(run[..k]), run[k]);
    }
  }

  /** Over whole runs: a settled workflow is unannounced exactly when such a crash or refusal came. */
  lemma {:induction false} HookIsLostOnTheWayIff(run: seq<Event>)
    requires SanctionedRun(run)
    ensures RowsAreSent(Play(run))
    ensures Announced(Play(run)) <==> !LostOnTheWay(run)
  {
    hide Inv, Step, LosesHook, Announced, RowsAreSent, LostOnTheWay;
    if run == [] {
      CreatedIsAnnounced();
      NoEventNoLoss();
    } else {
      var n := |run| - 1;
      var front, last := run[..n], run[n];
      var w := Play(front);
      HookIsLostOnTheWayIff(front);
      RunKeeps(front);
      StepKeepsRowsSent(w, last);
      LostOnTheWayNext(run);
      if Announced(w) {
        HookIsLostIff(w, last);
      } else {
        UnannouncedStays(w, last);
      }
    }
  }

  lemma NoEventNoLoss()
    ensures !LostOnTheWay([])
  {
  }

  lemma CreatedIsAnnounced()
    ensures RowsAreSent(Created()) && Announced(Created())
  {
  }

  lemma UnannouncedStays(w: World, e: Event)
    requires Inv(w) && Sanctioned(w, e) && !Announced(w)
    ensures !Announced(Step(w, e))
  {
    hide Inv, Step;
    LostHookStaysLost(w, e);
  }

  // ---------------------------------------------------------------------------
  // The rows
  // ---------------------------------------------------------------------------

  class WorkflowRow {
    var status: Status
    var total: nat
    var completed: nat
    var successes: nat
    var failures: nat
    var settled: bool
    var members: seq<Member>
    var rows: set<HookType>
    var sent: seq<Hook>
    var pending: set<Hook>
    ghost var progress: nat
    var settlements: nat

    ghost function State(): World
      reads this
    {
      World(status, total, completed, successes, failures, settled, members, Hooks(rows, sent, pending), progress, settlements)
    }

    /** The publish first, then the fan-out; a member that cannot be created rolls both back. */
    method Run(seen: Status, items: nat, failsAt: Option<nat>) returns (ok: bool)
      modifies this`total, this`status, this`members
      ensures var created := failsAt.None? || failsAt.value >= items;
              State() == Publish(old(State()), seen, items, created) && (ok <==> items > 0 && seen == Pending && created)
    {
      if items == 0 || seen != Pending {
        return false;
      }
      var totalBefore, statusBefore, membersBefore := total, status, members;
      total, status := items, Running;
      for i := 0 to items
        invariant total == items && status == Running && members == membersBefore + Fresh(i)
        invariant failsAt.None? || failsAt.value >= i
      {
        if failsAt == Some(i) {
          total, status, members := totalBefore, statusBefore, membersBefore;
          return false;
        }
        members := members + [Member(None, false)];
      }
      return true;
    }

    /** `settle_workflow`: terminal status, settlement and the hook's number in one conditional update. */
    method SettleRow(won: bool) returns (settledNow: bool)
      requires completed >= total && won == (failures == 0)
      modifies this`status, this`settled, this`pending, this`settlements
      ensures (State(), settledNow) == SettleIfComplete(old(State()))
    {
      if settled || IsTerminal(status) {
        return false;
      }
      status, settled := if won then Succeeded else Failed, true;
      pending := pending + {Hook(if won then SuccessHook else FailureHook, settlements)};
      settlements := settlements + 1;
      return true;
    }

    method AtomicIncrementRow(i: nat) returns (outcome: Increment)
      requires i < |members| && members[i].outcome.Some?
      modifies this
      ensures (State(), outcome) == AtomicIncrement(old(State()), i)
    {
      hide SettleIfComplete;
      if status == Cancelled {
        return Noop;
      }
      if members[i].counted {
        return Noop;
      }
      members := members[i := members[i].(counted := true)];
      completed := completed + 1;
      if members[i].outcome.value {
        successes := successes + 1;
      } else {
        failures := failures + 1;
      }
      if completed >= total {
        var settledNow := SettleRow(failures == 0);
        return if settledNow then Complete else Noop;
      }
      return Partial;
    }

    /** Claim the row and queue the hook; a kind already claimed is skipped, a refusal gives the row back. */
    method DispatchHookRow(hook: Hook, enqueued: bool)
      modifies this`pending, this`rows, this`sent
      ensures Hooks(rows, sent, pending) == Fire(old(Hooks(rows, sent, pending)), hook, enqueued)
    {
      pending := pending - {hook};
      if hook.kind in rows {
        return;
      }
      var savepoint := rows;
      rows := rows + {hook.kind};
      if !enqueued {
        rows := savepoint;
        return;
      }
      sent := sent + [hook];
    }

    /** One conditional update; the hook shares its transaction, but a refused enqueue does not undo it. */
    method CancelRow(enqueued: bool) returns (updated: bool)
      modifies this
      ensures State() == Cancel(old(State()), enqueued)
      ensures updated <==> old(!settled && !IsTerminal(status))
    {
      if settled || IsTerminal(status) {
        return false;
      }
      status, settled := Cancelled, true;
      DispatchHookRow(Hook(CancelledHook, settlements), enqueued);
      settlements := settlements + 1;
      return true;
    }
  }
}
