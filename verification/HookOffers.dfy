/**
 When a task's own hook is offered: with every routing of its outcome, except the one that
 `_resolve_committed` leaves, which tells the node and sets the flag and calls no hook. For
 a task that is a node's, or nobody's; a chain's or batch's member has no hook of its own.
 */
module HookOffers {
  import opened Common
  import opened Backoff
  import opened Attempts
  import opened SingleFlight
  import opened Recovery
  import Hooks = TaskHooks

  /** Offered means told and not the node's alone; flagged means offered, but for the node's alone. */
  ghost predicate OffersSound(w: World) {
    && (forall n :: n in w.offered ==> n in w.told && n !in w.nodeOnly)
    && (forall n :: n in w.nodeOnly ==>
                      1 <= n <= |w.attempts| && w.attempts[n - 1].success == Some(true) && w.attempts[n - 1].routed)
    && (forall i :: 0 <= i < |w.attempts| && Owed(w, i) && w.attempts[i].routed && w.attempts[i].number !in w.nodeOnly ==>
                      w.attempts[i].number in w.offered)
  }

  /** One step: offers stay sound, and the node's alone are exactly the published orphans reaped. */
  ghost predicate OffersCarry(s: Settings, w: World, e: Event, v: World) {
    && OffersSound(v)
    && (forall n :: 1 <= n ==> (n in v.nodeOnly <==> n in w.nodeOnly || ReapsCommitted(s, w, e, n - 1)))
  }

  lemma SameOutcomesOffer(s: Settings, w: World, e: Event, v: World)
    requires OffersSound(w) && SameOutcomes(w, v)
    requires forall i :: !ReapsCommitted(s, w, e, i)
    ensures OffersCarry(s, w, e, v)
  {
    hide ReapsCommitted;
    assert forall i :: 0 <= i < |w.attempts| ==> (Owed(v, i) <==> Owed(w, i));
  }

  /** Resolving the open attempt: retried, left to be routed, or routed to the node alone. */
  lemma ResolvingOffers(s: Settings, w: World, e: Event, v: World, i: nat)
    requires Heard(w) && OffersSound(w) && i == |w.attempts| - 1 && !Resolved(w.attempts[i])
    requires forall j :: 0 <= j < |w.attempts| ==> w.attempts[j].number == j + 1
    requires |w.attempts| <= |v.attempts| <= |w.attempts| + 1 && v.told == w.told && v.offered == w.offered
    requires forall j :: 0 <= j < i ==> v.attempts[j] == w.attempts[j]
    requires Resolved(v.attempts[i]) && v.attempts[i].number == i + 1
    requires |v.attempts| == |w.attempts| + 1 ==>
               v.attempts[i].success == Some(false) && !Resolved(v.attempts[i + 1])
    requires ReapsCommitted(s, w, e, i) <==> |v.attempts| == |w.attempts| && v.attempts[i].routed
    requires ReapsCommitted(s, w, e, i) ==> v.attempts[i].success == Some(true)
    requires v.nodeOnly == if ReapsCommitted(s, w, e, i) then w.nodeOnly + {i + 1} else w.nodeOnly
    requires forall j :: ReapsCommitted(s, w, e, j) ==> j == i
    ensures OffersCarry(s, w, e, v)
  {
    hide ReapsCommitted;
    assert i + 1 !in w.told && i + 1 !in w.nodeOnly;
    forall j | 0 <= j < |v.attempts| && Owed(v, j) && v.attempts[j].routed && v.attempts[j].number !in v.nodeOnly
      ensures v.attempts[j].number in v.offered
    {
      if j < i {
        assert Owed(w, j);
      }
    }
  }

  lemma KeptHistory(w: World, i: nat, delay: nat)
    requires i < |w.attempts| && SettleFailure(w, i, delay).Ok?
    ensures var v := SettleFailure(w, i, delay).value; v.offered == w.offered && v.nodeOnly == w.nodeOnly
  {
  }

  lemma HandleOffers(s: Settings, w: World, e: Event, i: nat, q: Q2Id, exception: Option<string>, delay: nat)
    requires Inv(s, w) && Heard(w) && OffersSound(w) && (e.HandleResult? || e.ReconcileResult?)
    ensures OffersCarry(s, w, e, Handle(w, i, q, exception, delay))
  {
    hide Counted, SettleFailure, AllResolved, AttemptSound, OffersCarry, OffersSound, Heard;
    var h := Handle(w, i, q, exception, delay);
    if !Owns(w, i, q) || q !in w.saved || Resolved(w.attempts[i]) {
      SameOutcomesOffer(s, w, e, w);
    } else {
      QueuedWhenOwned(s, w, i, q);
      OpenIsLast(s, w, i);
      OpenIsUnrouted(s, w, i);
      var r := w.saved[q];
      var v := w.(
      attempts := w.attempts[i := w.attempts[i].(
      success := Some(r.success), completedAt := r.stopped, exception := if r.success then None else exception)],
      status := if r.success then Succeeded else Failed);
      if !r.success {
        ResolvingKeeps(s, w, v, i);
        FailureOutcome(s, v, i, delay);
        KeptHistory(v, i, delay);
      }
      ResolvingOffers(s, w, e, h, i);
    }
  }

  lemma ReapOffers(s: Settings, w: World, i: nat, delay: nat)
    requires Inv(s, w) && Heard(w) && OffersSound(w)
    ensures OffersCarry(s, w, ReapOrphan(i, delay), Reap(s, w, i, delay))
  {
    hide Counted, SettleFailure, AllResolved, AttemptSound, OffersCarry, OffersSound, Heard;
    var h, e := Reap(s, w, i, delay), ReapOrphan(i, delay);
    if !Orphaned(s, w, i) {
      SameOutcomesOffer(s, w, e, w);
    } else {
      var a := w.attempts[i];
      OpenIsLast(s, w, i);
      OpenIsUnrouted(s, w, i);
      if !a.committed {
        var v := w.(attempts := w.attempts[i := a.(
        success := Some(false), completedAt := w.now,
        exception := Some(if a.returned then "ResultLost" else "OrphanedTask"))]);
        ResolvingKeeps(s, w, v, i);
        FailureOutcome(s, v, i, delay);
        KeptHistory(v, i, delay);
      }
      ResolvingOffers(s, w, e, h, i);
    }
  }

  lemma RouteOffers(s: Settings, w: World, i: nat, reach: Reach)
    requires Inv(s, w) && OffersSound(w)
    ensures OffersCarry(s, w, RouteAttempt(i, reach), Route(s, w, i, reach))
  {
    hide Inv, Route, OffersSound;
    RouteRoutes(s, w, i, reach);
    RoutedOffers(w, Route(s, w, i, reach), i, reach);
  }

  lemma RoutedOffers(w: World, v: World, i: nat, reach: Reach)
    requires RoutedFrom(w, v, i, reach) && OffersSound(w)
    ensures OffersSound(v) && v.nodeOnly == w.nodeOnly
  {
    if v != w {
      forall j | 0 <= j < |v.attempts| && Owed(v, j) && v.attempts[j].routed && v.attempts[j].number !in v.nodeOnly
        ensures v.attempts[j].number in v.offered
      {
        assert v.attempts[j] == w.attempts[j].(routed := v.attempts[j].routed) && Owed(w, j);
      }
    }
  }

  lemma RequeueOffers(s: Settings, w: World, e: Event)
    requires OffersSound(w) && e.RequeueDead?
    ensures OffersCarry(s, w, e, Step(s, w, e))
  {
    hide OffersSound;
    RequeueAppends(s, w, e);
    OneMoreAttemptOffers(w, Step(s, w, e));
  }

  lemma RequeueAppends(s: Settings, w: World, e: Event)
    requires e.RequeueDead?
    ensures var v := Step(s, w, e);
            && v.told == w.told && v.offered == w.offered && v.nodeOnly == w.nodeOnly
            && |w.attempts| <= |v.attempts| <= |w.attempts| + 1
            && (forall j :: 0 <= j < |w.attempts| ==> v.attempts[j] == w.attempts[j])
            && (|v.attempts| > |w.attempts| ==> !Resolved(v.attempts[|w.attempts|]))
  {
  }

  lemma OneMoreAttemptOffers(w: World, v: World)
    requires OffersSound(w) && v.told == w.told && v.offered == w.offered && v.nodeOnly == w.nodeOnly
    requires |w.attempts| <= |v.attempts| <= |w.attempts| + 1
    requires forall j :: 0 <= j < |w.attempts| ==> v.attempts[j] == w.attempts[j]
    requires |v.attempts| > |w.attempts| ==> !Resolved(v.attempts[|w.attempts|])
    ensures OffersSound(v)
  {
    forall j | 0 <= j < |v.attempts| && Owed(v, j) && v.attempts[j].routed && v.attempts[j].number !in v.nodeOnly
      ensures v.attempts[j].number in v.offered
    {
      assert j < |w.attempts| && Owed(w, j);
    }
  }

  lemma InertStepsOffer(s: Settings, w: World, e: Event)
    requires OffersSound(w) && (IsInert(e) || e.CrashMonitor?)
    ensures OffersCarry(s, w, e, Step(s, w, e))
  {
    hide OffersSound, OffersCarry, Step;
    if e.ClaimDue? || e.DeliverMessage? || e.Beat? || e.CommitOutput? || e.ReturnFromBody? {
      WorkKeepsOutcomes(s, w, e);
    } else {
      OthersKeepOutcomes(s, w, e);
    }
    SameOutcomesOffer(s, w, e, Step(s, w, e));
  }

  /** No outcome, flag or routing of the task is touched. */
  ghost predicate SameOutcomes(w: World, v: World) {
    && |v.attempts| == |w.attempts|
    && v.told == w.told && v.offered == w.offered && v.nodeOnly == w.nodeOnly
    && (forall i :: 0 <= i < |w.attempts| ==>
                      && v.attempts[i].number == w.attempts[i].number
                      && v.attempts[i].success == w.attempts[i].success
                      && v.attempts[i].routed == w.attempts[i].routed)
  }

  lemma WorkKeepsOutcomes(s: Settings, w: World, e: Event)
    requires e.ClaimDue? || e.DeliverMessage? || e.Beat? || e.CommitOutput? || e.ReturnFromBody?
    ensures SameOutcomes(w, Step(s, w, e))
  {
  }

  lemma OthersKeepOutcomes(s: Settings, w: World, e: Event)
    requires e.SaveResult? || e.LoseMessage? || e.CancelWorkflow? || e.CrashWorker? || e.Tick? || e.CrashMonitor?
    ensures SameOutcomes(w, Step(s, w, e))
  {
  }

  lemma StepOffers(s: Settings, w: World, e: Event)
    requires Inv(s, w) && RequeuesTerminal(w, e) && Heard(w) && OffersSound(w)
    ensures OffersCarry(s, w, e, Step(s, w, e))
  {
    hide Inv, Handle, Reap, Route, OffersCarry, OffersSound, Heard, Requeue, Claim, Deliver, Heartbeat, Commit, Return, Save;
    match e {
      case HandleResult(i, q, exception, delay) => HandleOffers(s, w, e, i, q, exception, delay);
      case ReconcileResult(i, q, exception, delay) =>
        if Reconcilable(s, w, i, q) { HandleOffers(s, w, e, i, q, exception, delay); } else { SameOutcomesOffer(s, w, e, w); }
      case ReapOrphan(i, delay) => ReapOffers(s, w, i, delay);
      case RouteAttempt(i, reach) => RouteOffers(s, w, i, reach);
      case RequeueDead(status, latest) => RequeueOffers(s, w, e);
      case _ => InertStepsOffer(s, w, e);
    }
  }

  // ---------------------------------------------------------------------------
  // Over whole runs
  // ---------------------------------------------------------------------------

  lemma NewTaskIsSound(s: Settings, policy: Option<Policy>, deferred: bool, notBefore: Time, start: Time)
    requires s.limit >= 1 && (policy.Some? ==> ValidPolicy(policy.value))
    ensures var w := NewTask(policy, deferred, notBefore, start);
            Inv(s, w) && Heard(w) && Recoverable(w) && OffersSound(w) && w.nodeOnly == {} && forall i :: !FlaggedAhead(w, i)
  {
    NewTasksAreSound(s, policy, notBefore, start);
    NewTasksAreRecoverable(s, policy, notBefore, start);
  }

  /** Some event of the run reaped attempt i on its published output. */
  predicate WasReapedCommitted(s: Settings, w: World, run: seq<Event>, i: nat) {
    exists k :: 0 <= k < |run| && ReapsCommitted(s, Play(s, w, run[..k]), run[k], i)
  }

  lemma WasReapedNext(s: Settings, w: World, run: seq<Event>, i: nat)
    requires run != []
    ensures var front, last := run[..|run| - 1], run[|run| - 1];
            WasReapedCommitted(s, w, run, i) <==>
            WasReapedCommitted(s, w, front, i) || ReapsCommitted(s, Play(s, w, front), last, i)
  {
    hide Play, ReapsCommitted;
    var front := run[..|run| - 1];
    forall k | 0 <= k < |front|
      ensures front[..k] == run[..k] && front[k] == run[k]
    {
    }
    if WasReapedCommitted(s, w, front, i) {
      var k :| 0 <= k < |front| && ReapsCommitted(s, Play(s, w, front[..k]), front[k], i);
      assert ReapsCommitted(s, Play(s, w, run[..k]), run[k], i);
    }
  }

  lemma {:induction false} RunOffers(s: Settings, w: World, run: seq<Event>, i: nat)
    requires Inv(s, w) && TerminalRequeues(s, w, run) && Heard(w) && Recoverable(w) && OffersSound(w) && w.nodeOnly == {}
    ensures var v := Play(s, w, run);
            && Inv(s, v) && Heard(v) && OffersSound(v)
            && (i + 1 in v.nodeOnly <==> WasReapedCommitted(s, w, run, i))
  {
    hide Step, Inv, Heard, OffersSound, OffersCarry, WasReapedCommitted, ReapsCommitted;
    RoutingIsLostByACrashIff(s, w, run, i);
    if run == [] {
      NobodyReaped(s, w, i);
    } else {
      var front, last := run[..|run| - 1], run[|run| - 1];
      RunOffers(s, w, front, i);
      StepOffers(s, Play(s, w, front), last);
      CarriedAt(s, Play(s, w, front), last, Play(s, w, run), i);
      WasReapedNext(s, w, run, i);
    }
  }

  lemma CarriedAt(s: Settings, w: World, e: Event, v: World, i: nat)
    requires OffersCarry(s, w, e, v)
    ensures OffersSound(v) && (i + 1 in v.nodeOnly <==> i + 1 in w.nodeOnly || ReapsCommitted(s, w, e, i))
  {
  }

  lemma NobodyReaped(s: Settings, w: World, i: nat)
    ensures !WasReapedCommitted(s, w, [], i)
  {
  }

  /**
   Over whole runs of a new task: an outcome's hook is offered at most with its routing, and
   once the outcome is flagged as routed, it was never offered if and only if the sweep had
   resolved the attempt on its published output. No crash is needed for that.
   */
  lemma HookIsMissedIff(
    s: Settings, policy: Option<Policy>, deferred: bool, notBefore: Time, start: Time, run: seq<Event>, i: nat)
    requires s.limit >= 1 && (policy.Some? ==> ValidPolicy(policy.value))
    requires TerminalRequeues(s, NewTask(policy, deferred, notBefore, start), run)
    ensures var w := NewTask(policy, deferred, notBefore, start);
            var v := Play(s, w, run);
            && (i + 1 in v.offered ==> i + 1 in v.told && !WasReapedCommitted(s, w, run, i))
            && (Owed(v, i) && v.attempts[i].routed ==>
                  (i + 1 !in v.offered <==> WasReapedCommitted(s, w, run, i)))
  {
    hide Step, Play, Heard, Recoverable, WasReapedCommitted, NewTask, TerminalRequeues, Counted, AttemptSound;
    var w := NewTask(policy, deferred, notBefore, start);
    NewTaskIsSound(s, policy, deferred, notBefore, start);
    RunOffers(s, w, run, i);
    var v := Play(s, w, run);
    assert Flight(s, v);
  }

  /** Over whole runs of a new task: a routing is lost iff a crash met its flag set by such a sweep. */
  lemma NewTaskLosesARoutingIff(
    s: Settings, policy: Option<Policy>, deferred: bool, notBefore: Time, start: Time, run: seq<Event>, i: nat)
    requires s.limit >= 1 && (policy.Some? ==> ValidPolicy(policy.value))
    requires TerminalRequeues(s, NewTask(policy, deferred, notBefore, start), run)
    ensures var w := NewTask(policy, deferred, notBefore, start);
            Lost(Play(s, w, run), i) <==>
            exists k :: 0 <= k < |run| && run[k].CrashMonitor? && FlaggedAhead(Play(s, w, run[..k]), i)
    ensures var w := NewTask(policy, deferred, notBefore, start);
            Lost(Play(s, w, run), i) ==> WasReapedCommitted(s, w, run, i)
  {
    hide Step, Inv, Play, Heard, Recoverable, FlaggedAhead, ReapsCommitted, NewTask, TerminalRequeues, Lost;
    var w := NewTask(policy, deferred, notBefore, start);
    NewTaskIsSound(s, policy, deferred, notBefore, start);
    RoutingIsLostByACrashIff(s, w, run, i);
    if Lost(Play(s, w, run), i) {
      var k :| 0 <= k < |run| && run[k].CrashMonitor? && FlaggedAhead(Play(s, w, run[..k]), i);
      TerminalPrefix(s, w, run, k);
      FlagWasSetByACommittedReap(s, w, run[..k], i);
      var j :| 0 <= j < k && ReapsCommitted(s, Play(s, w, run[..k][..j]), run[..k][j], i);
      assert run[..k][..j] == run[..j] && run[..k][j] == run[j];
    }
  }

  lemma {:induction false} TerminalPrefix(s: Settings, w: World, run: seq<Event>, k: nat)
    requires TerminalRequeues(s, w, run) && k <= |run|
    ensures TerminalRequeues(s, w, run[..k])
  {
    hide Play, RequeuesTerminal;
    if k == |run| {
      assert run[..k] == run;
    } else {
      TerminalPrefix(s, w, run[..|run| - 1], k);
      assert run[..|run| - 1][..k] == run[..k];
    }
  }

  lemma {:induction false} RunKeepsOffers(s: Settings, w: World, run: seq<Event>)
    requires Inv(s, w) && TerminalRequeues(s, w, run) && Heard(w) && OffersSound(w)
    ensures Inv(s, Play(s, w, run)) && Heard(Play(s, w, run)) && OffersSound(Play(s, w, run))
  {
    hide Step, Inv, Heard, OffersSound, OffersCarry;
    RunKeeps(s, w, run);
    if run != [] {
      var front, last := run[..|run| - 1], run[|run| - 1];
      RunKeepsOffers(s, w, front);
      StepOffers(s, Play(s, w, front), last);
      CarriedAt(s, Play(s, w, front), last, Play(s, w, run), 0);
      StepIsHeard(s, Play(s, w, front), last);
    }
  }

  lemma {:induction false} SweepsRequeueNothing(s: Settings, w: World, run: seq<Event>)
    requires Sweeping(run)
    ensures TerminalRequeues(s, w, run)
  {
    hide Play;
    if run != [] {
      var last := run[|run| - 1];
      assert last.Tick? || IsSweepOrDelivery(last);
      SweepsRequeueNothing(s, w, run[..|run| - 1]);
    }
  }

  /**
   Recovery, hooks included: from every state in which no routing has been lost the sweeps
   finish the task, route its outcome, and have offered its hook unless it is a published
   orphan's.
   */
  lemma SweepsOfferTheHook(s: Settings, w: World) returns (run: seq<Event>)
    requires Requeueless(s, w) && Heard(w) && Recoverable(w) && OffersSound(w)
    ensures var v := Play(s, w, run);
            && Sweeping(run) && Done(v) && Terminal(v.status)
            && (Last(v).number in v.offered <==> Last(v).number !in v.nodeOnly)
  {
    hide Behind, Flight, Counted, Play, Heard, Recoverable, OffersSound, TerminalRequeues;
    run := SweepsFinish(s, w);
    SweepsRequeueNothing(s, w, run);
    RunKeepsOffers(s, w, run);
    DoneIsOffered(Play(s, w, run));
  }

  /** Where the sweeps finish, the hook of the final outcome was offered, but for a published orphan's. */
  lemma DoneIsOffered(w: World)
    requires OffersSound(w) && Done(w)
    ensures Last(w).number in w.offered <==> Last(w).number !in w.nodeOnly
  {
    assert Owed(w, |w.attempts| - 1);
  }

  // ---------------------------------------------------------------------------
  // What is queued
  // ---------------------------------------------------------------------------

  /** The event offers the hook of a routed attempt. */
  predicate Offering(s: Settings, w: World, e: Event) {
    && e.RouteAttempt? && e.reach != Told
    && Routable(s, w, e.index) && w.attempts[e.index].number !in w.nodeOnly
  }

  /** The offers of a run, in order; `accepts[k]` says whether the broker takes the k-th event's message. */
  ghost function OffersOf(s: Settings, w: World, run: seq<Event>, accepts: seq<bool>): seq<Hooks.Offer>
    requires |accepts| == |run|
  {
    if run == [] then []
    else
      var n := |run| - 1;
      var v, e := Play(s, w, run[..n]), run[n];
      OffersOf(s, w, run[..n], accepts[..n]) + OfferOf(s, v, e, accepts[n])
  }

  function OfferOf(s: Settings, w: World, e: Event, accept: bool): seq<Hooks.Offer> {
    if Offering(s, w, e) then [Hooks.Offer(w.attempts[e.index].success.value, accept)] else []
  }

  /** The event offers the hook of an attempt with this outcome. */
  predicate OffersAs(s: Settings, w: World, e: Event, success: bool) {
    Offering(s, w, e) && w.attempts[e.index].success == Some(success)
  }

  /** Attempt j's outcome has been offered. */
  predicate OfferedAs(w: World, j: nat, success: bool) {
    j < |w.attempts| && w.attempts[j].success == Some(success) && j + 1 in w.offered
  }

  /** An offer is recorded with the attempt whose outcome it names. */
  lemma OfferIsRecorded(s: Settings, w: World, e: Event)
    requires Inv(s, w) && Offering(s, w, e)
    ensures e.index < |w.attempts| && w.attempts[e.index].success.Some?
    ensures OfferedAs(Step(s, w, e), e.index, w.attempts[e.index].success.value)
  {
    hide Counted, AttemptSound;
  }

  lemma OffersStay(s: Settings, w: World, e: Event, j: nat, success: bool)
    requires Inv(s, w) && OfferedAs(w, j, success)
    ensures OfferedAs(Step(s, w, e), j, success)
  {
    hide Step, Inv;
    AttemptsOnlyAdvance(s, w, e, j);
    OffersOnlyGrow(s, w, e);
  }

  /** Only an offering event records an offer. */
  lemma RecordedIsOffered(s: Settings, w: World, e: Event, j: nat, success: bool)
    requires Inv(s, w) && Heard(w) && OffersSound(w) && !OfferedAs(w, j, success) && OfferedAs(Step(s, w, e), j, success)
    ensures Offering(s, w, e) && e.index == j && w.attempts[j].success == Some(success)
  {
    hide Counted, AttemptSound, SettleFailure;
    if !e.RouteAttempt? {
      OffersOnlyGrow(s, w, e);
      if j < |w.attempts| {
        AttemptsOnlyAdvance(s, w, e, j);
      }
    } else {
      RouteRoutes(s, w, e.index, e.reach);
    }
  }

  lemma OffersOnlyGrow(s: Settings, w: World, e: Event)
    ensures w.offered <= Step(s, w, e).offered
    ensures !e.RouteAttempt? ==> Step(s, w, e).offered == w.offered
  {
    hide Handle, Reap, SettleFailure;
    match e
    case HandleResult(i, q, exception, delay) => HandlingOffersNothing(w, i, q, exception, delay);
    case ReconcileResult(i, q, exception, delay) => HandlingOffersNothing(w, i, q, exception, delay);
    case ReapOrphan(i, delay) => ReapingOffersNothing(s, w, i, delay);
    case _ =>
  }

  lemma HandlingOffersNothing(w: World, i: nat, q: Q2Id, exception: Option<string>, delay: nat)
    ensures Handle(w, i, q, exception, delay).offered == w.offered
  {
  }

  lemma ReapingOffersNothing(s: Settings, w: World, i: nat, delay: nat)
    ensures Reap(s, w, i, delay).offered == w.offered
  {
  }

  /** Some offer of the list names this outcome. */
  predicate Names(offers: seq<Hooks.Offer>, success: bool) {
    exists i :: 0 <= i < |offers| && offers[i].success == success
  }

  /** Over whole runs an outcome is among the offers exactly when an attempt with it was offered. */
  lemma {:induction false} OffersAreOfAttempts(s: Settings, w: World, run: seq<Event>, accepts: seq<bool>, success: bool)
    requires Inv(s, w) && TerminalRequeues(s, w, run) && Heard(w) && Recoverable(w) && OffersSound(w)
    requires w.nodeOnly == {} && w.offered == {} && |accepts| == |run|
    ensures Names(OffersOf(s, w, run, accepts), success) <==> exists j :: OfferedAs(Play(s, w, run), j, success)
  {
    hide Step, Inv, Heard, Recoverable, OffersSound, OfferedAs, OffersAs, OfferOf, Names;
    if run == [] {
      NothingOffered(w, success);
    } else {
      var n := |run| - 1;
      var front, last := run[..n], run[n];
      var v := Play(s, w, front);
      OffersAreOfAttempts(s, w, front, accepts[..n], success);
      RunOffers(s, w, front, 0);
      assert OffersOf(s, w, run, accepts) == OffersOf(s, w, front, accepts[..n]) + OfferOf(s, v, last, accepts[n]);
      assert Play(s, w, run) == Step(s, v, last);
      NamesNext(s, v, last, accepts[n], OffersOf(s, w, front, accepts[..n]), success);
      OneMoreOffered(s, v, last, success);
    }
  }

  lemma NothingOffered(w: World, success: bool)
    requires w.offered == {}
    ensures !Names([], success) && forall j :: !OfferedAs(w, j, success)
  {
  }

  lemma NamesNext(s: Settings, w: World, e: Event, accept: bool, offers: seq<Hooks.Offer>, success: bool)
    ensures Names(offers + OfferOf(s, w, e, accept), success) <==> Names(offers, success) || OffersAs(s, w, e, success)
  {
    var more := OfferOf(s, w, e, accept);
    if Names(offers, success) {
      var i :| 0 <= i < |offers| && offers[i].success == success;
      assert (offers + more)[i].success == success;
    }
    if OffersAs(s, w, e, success) {
      assert (offers + more)[|offers|].success == success;
    }
    if Names(offers + more, success) {
      var i :| 0 <= i < |offers + more| && (offers + more)[i].success == success;
      assert i < |offers| ==> offers[i].success == success;
    }
  }

  lemma OneMoreOffered(s: Settings, w: World, e: Event, success: bool)
    requires Inv(s, w) && Heard(w) && OffersSound(w)
    ensures (exists j :: OfferedAs(Step(s, w, e), j, success)) <==>
            (exists j :: OfferedAs(w, j, success)) || OffersAs(s, w, e, success)
  {
    hide Step, Inv, Heard, OffersSound, OfferedAs, Routable;
    if j :| OfferedAs(w, j, success) {
      OffersStay(s, w, e, j, success);
    } else if OffersAs(s, w, e, success) {
      OfferIsRecorded(s, w, e);
    } else if j :| OfferedAs(Step(s, w, e), j, success) {
      RecordedIsOffered(s, w, e, j, success);
    }
  }

  /**
   From the attempts to the queue: with a broker that refuses nothing, a hook of a new task is
   queued exactly when it is configured and an attempt with its outcome was offered.
   */
  lemma HookIsQueuedIff(
    s: Settings, policy: Option<Policy>, deferred: bool, notBefore: Time, start: Time, run: seq<Event>,
    configured: set<Hooks.Kind>, accepts: seq<bool>, success: bool)
    requires s.limit >= 1 && (policy.Some? ==> ValidPolicy(policy.value)) && |accepts| == |run|
    requires TerminalRequeues(s, NewTask(policy, deferred, notBefore, start), run)
    ensures var w := NewTask(policy, deferred, notBefore, start);
            var kind := if success then Hooks.OnSuccess else Hooks.OnFailure;
            var sent := Hooks.Play(configured, OffersOf(s, w, run, accepts)).sent;
            && Distinct(sent)
            && (kind in sent ==> kind in configured && exists j :: OfferedAs(Play(s, w, run), j, success))
            && ((forall k :: 0 <= k < |accepts| ==> accepts[k]) ==>
                  (kind in sent <==> kind in configured && exists j :: OfferedAs(Play(s, w, run), j, success)))
  {
    hide Step, Inv, Play, Heard, Recoverable, OffersSound, OfferedAs, TerminalRequeues, OffersOf, NewTask, Hooks.Play;
    var w := NewTask(policy, deferred, notBefore, start);
    NewTaskIsSound(s, policy, deferred, notBefore, start);
    NothingOfferedYet(policy, deferred, notBefore, start);
    var offers := OffersOf(s, w, run, accepts);
    OffersAreOfAttempts(s, w, run, accepts, success);
    Hooks.QueuedOnceIff(configured, offers);
    if forall k :: 0 <= k < |accepts| ==> accepts[k] {
      OffersAccepted(s, w, run, accepts);
    }
  }

  lemma NothingOfferedYet(policy: Option<Policy>, deferred: bool, notBefore: Time, start: Time)
    ensures NewTask(policy, deferred, notBefore, start).offered == {}
  {
  }

  ghost predicate AllTaken(offers: seq<Hooks.Offer>) {
    forall i :: 0 <= i < |offers| ==> offers[i].enqueued
  }

  lemma {:induction false} OffersAccepted(s: Settings, w: World, run: seq<Event>, accepts: seq<bool>)
    requires |accepts| == |run| && forall k :: 0 <= k < |accepts| ==> accepts[k]
    ensures AllTaken(OffersOf(s, w, run, accepts))
  {
    hide Play, Offering;
    if run != [] {
      var n := |run| - 1;
      OffersAccepted(s, w, run[..n], accepts[..n]);
      assert accepts[n] && AllTaken(OfferOf(s, Play(s, w, run[..n]), run[n], accepts[n]));
      TakenAddUp(OffersOf(s, w, run[..n], accepts[..n]), OfferOf(s, Play(s, w, run[..n]), run[n], accepts[n]));
    }
  }

  lemma TakenAddUp(before: seq<Hooks.Offer>, more: seq<Hooks.Offer>)
    requires AllTaken(before) && AllTaken(more)
    ensures AllTaken(before + more)
  {
  }

  /** A published orphan that is the task's only success has its success hook queued by nobody. */
  lemma PublishedOrphanIsSilent(
    s: Settings, policy: Option<Policy>, deferred: bool, notBefore: Time, start: Time, run: seq<Event>,
    configured: set<Hooks.Kind>, accepts: seq<bool>, i: nat)
    requires s.limit >= 1 && (policy.Some? ==> ValidPolicy(policy.value)) && |accepts| == |run|
    requires TerminalRequeues(s, NewTask(policy, deferred, notBefore, start), run)
    requires WasReapedCommitted(s, NewTask(policy, deferred, notBefore, start), run, i)
    requires var v := Play(s, NewTask(policy, deferred, notBefore, start), run);
             forall j :: 0 <= j < |v.attempts| && j != i ==> v.attempts[j].success != Some(true)
    ensures var w := NewTask(policy, deferred, notBefore, start);
            Hooks.OnSuccess !in Hooks.Play(configured, OffersOf(s, w, run, accepts)).sent
  {
    hide Step, Inv, Play, WasReapedCommitted, TerminalRequeues, OffersOf, NewTask, Hooks.Play, Owed;
    HookIsMissedIff(s, policy, deferred, notBefore, start, run, i);
    HookIsQueuedIff(s, policy, deferred, notBefore, start, run, configured, accepts, true);
  }
}
