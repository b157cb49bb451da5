/**
 Single flight: at most one attempt of a task is open, the attempts are numbered
 without gaps, the task's status follows the last of them, and the number of times
 its body is entered is bounded. Proved for every interleaving of the steps.
 */
module SingleFlight {
  import opened Common
  import opened Backoff
  import opened Attempts

  // ---------------------------------------------------------------------------
  // The invariant
  // ---------------------------------------------------------------------------

  ghost predicate AttemptSound(s: Settings, w: World, a: Attempt) {
    && (a.state == Scheduled ==>
          && a.q2.None? && a.claimedAt.None? && a.notBefore.Some? && !a.started
          && a.success.None? && !a.returned && !a.committed)
    && (a.state == Queued ==> a.q2.Some? && a.q2.value < w.nextQ2)
    && (a.started <==> a.executions > 0)
    && (a.started ==> a.heartbeat.Some?)
    && a.executions <= s.limit
    && (a.claimedAt.Some? && a.notBefore.Some? ==> a.notBefore.value <= a.claimedAt.value)
    && (a.routed ==> Resolved(a))
  }

  /** PENDING iff scheduled, RUNNING iff queued and open, otherwise the last outcome. */
  predicate StatusFollows(status: TaskStatus, last: Attempt) {
    match last.success
    case None => status == if last.state == Scheduled then Pending else Running
    case Some(success) => if success then status == Succeeded else Dead(status)
  }

  function AttemptLimit(policy: Option<Policy>): nat {
    if policy.None? then 1 else policy.value.maxAttempts
  }

  ghost predicate Flight(s: Settings, w: World) {
    && |w.attempts| >= 1
    && (forall i :: 0 <= i < |w.attempts| ==> w.attempts[i].number == i + 1)
    && (forall i :: 0 <= i < |w.attempts| ==> AttemptSound(s, w, w.attempts[i]))
    && (forall i :: 0 <= i < |w.attempts| - 1 ==> Resolved(w.attempts[i]))
    && StatusFollows(w.status, w.attempts[|w.attempts| - 1])
  }

  function Executions(attempts: seq<Attempt>): nat {
    if attempts == [] then 0
    else Executions(attempts[..|attempts| - 1]) + attempts[|attempts| - 1].executions
  }

  /** What the counters say about the history. */
  ghost predicate Counted(s: Settings, w: World) {
    && s.limit >= 1
    && (w.policy.Some? ==> ValidPolicy(w.policy.value))
    && w.entries == Executions(w.attempts)
    && |w.attempts| <= AttemptLimit(w.policy) + w.requeues
  }

  ghost predicate Inv(s: Settings, w: World) {
    Flight(s, w) && Counted(s, w)
  }

  // ---------------------------------------------------------------------------
  // Rewriting one attempt, and adding one
  // ---------------------------------------------------------------------------

  lemma {:induction false} ExecutionsOfUpdate(attempts: seq<Attempt>, i: nat, a: Attempt)
    requires i < |attempts|
    ensures Executions(attempts[i := a]) == Executions(attempts) - attempts[i].executions + a.executions
  {
    var n := |attempts|;
    if i == n - 1 {
      assert attempts[i := a][..n - 1] == attempts[..n - 1];
    } else {
      ExecutionsOfUpdate(attempts[..n - 1], i, a);
      assert attempts[i := a][..n - 1] == attempts[..n - 1][i := a];
    }
  }

  lemma ExecutionsOfAppend(attempts: seq<Attempt>, a: Attempt)
    ensures Executions(attempts + [a]) == Executions(attempts) + a.executions
  {
    assert (attempts + [a])[..|attempts|] == attempts;
  }

  lemma RewriteKeepsFlight(s: Settings, w: World, v: World, i: nat)
    requires Flight(s, w) && i < |w.attempts|
    requires |v.attempts| == |w.attempts| && v.attempts == w.attempts[i := v.attempts[i]] && v.nextQ2 >= w.nextQ2
    requires v.attempts[i].number == i + 1 && AttemptSound(s, v, v.attempts[i])
    requires Resolved(w.attempts[i]) ==> Resolved(v.attempts[i])
    requires StatusFollows(v.status, v.attempts[|w.attempts| - 1])
    ensures Flight(s, v)
  {
    forall j | 0 <= j < |v.attempts|
      ensures AttemptSound(s, v, v.attempts[j])
    {
      assert AttemptSound(s, w, w.attempts[j]);
    }
  }

  /** Only the open attempt can still be resolved. */
  lemma OpenIsLast(s: Settings, w: World, i: nat)
    requires Flight(s, w) && i < |w.attempts| && !Resolved(w.attempts[i])
    ensures i == |w.attempts| - 1
  {
  }

  lemma NumbersAreTaken(s: Settings, w: World, number: nat)
    requires Flight(s, w)
    ensures NumberTaken(w, number) <==> 1 <= number <= |w.attempts|
  {
    if 1 <= number <= |w.attempts| {
      assert w.attempts[number - 1].number == number;
    }
  }

  /** Scheduling the next attempt is sound exactly when the last one is resolved. */
  lemma ScheduleKeepsFlight(s: Settings, w: World, number: nat, notBefore: Time)
    requires |w.attempts| >= 1 && number == |w.attempts| + 1
    requires forall i :: 0 <= i < |w.attempts| ==> w.attempts[i].number == i + 1
    requires forall i :: 0 <= i < |w.attempts| ==> AttemptSound(s, w, w.attempts[i])
    requires forall i :: 0 <= i < |w.attempts| ==> Resolved(w.attempts[i])
    ensures ScheduleAttempt(w, number, notBefore).Ok?
    ensures Flight(s, ScheduleAttempt(w, number, notBefore).value)
  {
    assert !NumberTaken(w, number);
    var v := ScheduleAttempt(w, number, notBefore).value;
    forall j | 0 <= j < |v.attempts|
      ensures AttemptSound(s, v, v.attempts[j])
    {
      if j < |w.attempts| { assert AttemptSound(s, w, w.attempts[j]); }
    }
  }

  // ---------------------------------------------------------------------------
  // Each step
  // ---------------------------------------------------------------------------

  lemma ClaimKeeps(s: Settings, w: World, i: nat, cutoff: Time)
    requires Inv(s, w)
    ensures Inv(s, Claim(w, i, cutoff))
  {
    if Claim(w, i, cutoff) != w {
      assert AttemptSound(s, w, w.attempts[i]);
      OpenIsLast(s, w, i);
      RewriteKeepsFlight(s, w, Claim(w, i, cutoff), i);
      ExecutionsOfUpdate(w.attempts, i, Claim(w, i, cutoff).attempts[i]);
    }
  }

  lemma DeliverKeeps(s: Settings, w: World, i: nat, q: Q2Id)
    requires Inv(s, w)
    ensures Inv(s, Deliver(s, w, i, q))
  {
    var v := Deliver(s, w, i, q);
    if v.attempts != w.attempts {
      assert AttemptSound(s, w, w.attempts[i]);
      OpenIsLast(s, w, i);
      RewriteKeepsFlight(s, w, v, i);
    } else {
      SameRowsKeep(s, w, v);
    }
    if Owns(w, i, q) {
      ExecutionsOfUpdate(w.attempts, i, v.attempts[i]);
    }
  }

  lemma SameRowsKeep(s: Settings, w: World, v: World)
    requires Flight(s, w) && v.attempts == w.attempts && v.status == w.status && v.nextQ2 == w.nextQ2
    ensures Flight(s, v)
  {
    forall j | 0 <= j < |v.attempts|
      ensures AttemptSound(s, v, v.attempts[j])
    {
      assert AttemptSound(s, w, w.attempts[j]);
    }
  }

  /** Heartbeats, commit stamps, returns and the routed flag change no outcome. */
  lemma StampKeeps(s: Settings, w: World, v: World, i: nat)
    requires Inv(s, w) && i < |w.attempts|
    requires |v.attempts| == |w.attempts| && v.attempts == w.attempts[i := v.attempts[i]]
    requires v.status == w.status && v.nextQ2 == w.nextQ2 && v.policy == w.policy
    requires v.entries == w.entries && v.requeues == w.requeues
    requires var a, b := w.attempts[i], v.attempts[i];
             && b == a.(heartbeat := b.heartbeat, committed := b.committed, returned := b.returned, routed := b.routed)
             && (b == a || a.state == Queued) && (b.routed ==> a.routed || Resolved(a))
             && (a.heartbeat.Some? ==> b.heartbeat.Some?)
    ensures Inv(s, v)
  {
    assert AttemptSound(s, w, w.attempts[i]);
    RewriteKeepsFlight(s, w, v, i);
    ExecutionsOfUpdate(w.attempts, i, v.attempts[i]);
  }

  ghost predicate AllResolved(s: Settings, w: World) {
    && |w.attempts| >= 1
    && forall j :: 0 <= j < |w.attempts| ==>
                     w.attempts[j].number == j + 1 && AttemptSound(s, w, w.attempts[j]) && Resolved(w.attempts[j])
  }

  predicate Retries(w: World, i: nat)
    requires i < |w.attempts|
  {
    && !w.workflowCancelled && w.policy.Some?
    && ShouldRetry(w.policy.value, w.attempts[i].number, w.attempts[i].exception)
  }

  /** A retry commits with the failure: the next attempt exists and the failed one is routed. */
  lemma RetryKeeps(s: Settings, w: World, i: nat, delay: nat)
    requires AllResolved(s, w) && Counted(s, w) && i == |w.attempts| - 1
    requires w.attempts[i].state == Queued && Retries(w, i)
    ensures SettleFailure(w, i, delay).Ok? && Inv(s, SettleFailure(w, i, delay).value)
    ensures var v := SettleFailure(w, i, delay).value;
            && v.status == Pending && |v.attempts| == |w.attempts| + 1
            && v.attempts[..|w.attempts|] == w.attempts[i := w.attempts[i].(routed := true)]
  {
    hide Flight, AttemptSound;
    var number := w.attempts[i].number + 1;
    ScheduleKeepsFlight(s, w, number, w.now + delay);
    var x := ScheduleAttempt(w, number, w.now + delay).value;
    ExecutionsOfAppend(w.attempts, NewAttempt(number, w.now + delay, w.now));
    StampKeeps(s, x, MarkRouted(x, i), i);
  }

  /** Without one the task is dead and its routing is owed. */
  lemma GiveUpKeeps(s: Settings, w: World, i: nat, delay: nat)
    requires AllResolved(s, w) && Counted(s, w) && i == |w.attempts| - 1 && !Retries(w, i)
    requires w.attempts[i].success == Some(false)
    ensures SettleFailure(w, i, delay).Ok? && Counted(s, SettleFailure(w, i, delay).value)
    ensures var v := SettleFailure(w, i, delay).value;
            && (v.status == w.status || v.status == Exhausted)
            && v.attempts == w.attempts && v.nextQ2 == w.nextQ2 && w.attempts[i].number in v.routing
            && forall dead :: Dead(dead) ==> Flight(s, v.(status := dead))
  {
    hide AttemptSound;
    var v := SettleFailure(w, i, delay).value;
    forall dead | Dead(dead)
      ensures Flight(s, v.(status := dead))
    {
      DeadRowsAreFlight(s, w, dead);
      SameRowsKeep(s, w.(status := dead), v.(status := dead));
    }
  }

  lemma DeadRowsAreFlight(s: Settings, w: World, dead: TaskStatus)
    requires AllResolved(s, w) && Dead(dead) && w.attempts[|w.attempts| - 1].success == Some(false)
    ensures Flight(s, w.(status := dead))
  {
    var v := w.(status := dead);
    forall j | 0 <= j < |v.attempts|
      ensures AttemptSound(s, v, v.attempts[j])
    {
      assert AttemptSound(s, w, w.attempts[j]);
    }
  }

  /** Writing an outcome on the open attempt leaves every attempt resolved. */
  lemma ResolvingKeeps(s: Settings, w: World, v: World, i: nat)
    requires Inv(s, w) && i < |w.attempts| && !Resolved(w.attempts[i]) && w.attempts[i].state == Queued
    requires |v.attempts| == |w.attempts| && v.attempts == w.attempts[i := v.attempts[i]] && v.nextQ2 == w.nextQ2
    requires v.policy == w.policy && v.entries == w.entries && v.requeues == w.requeues
    requires var a, b := w.attempts[i], v.attempts[i];
             && b == a.(success := b.success, completedAt := b.completedAt, exception := b.exception, routed := b.routed)
             && b.success.Some?
    ensures i == |v.attempts| - 1 && Counted(s, v) && AllResolved(s, v)
  {
    OpenIsLast(s, w, i);
    ExecutionsOfUpdate(w.attempts, i, v.attempts[i]);
    forall j | 0 <= j < |v.attempts|
      ensures v.attempts[j].number == j + 1 && AttemptSound(s, v, v.attempts[j]) && Resolved(v.attempts[j])
    {
      assert AttemptSound(s, w, w.attempts[j]);
    }
  }

  lemma QueuedWhenOwned(s: Settings, w: World, i: nat, q: Q2Id)
    requires Flight(s, w) && Owns(w, i, q)
    ensures w.attempts[i].state == Queued
  {
    assert AttemptSound(s, w, w.attempts[i]);
  }

  lemma HandleKeeps(s: Settings, w: World, i: nat, q: Q2Id, exception: Option<string>, delay: nat)
    requires Inv(s, w)
    ensures Inv(s, Handle(w, i, q, exception, delay))
  {
    hide Flight, Counted, SettleFailure, AllResolved;
    if Owns(w, i, q) && q in w.saved && !Resolved(w.attempts[i]) {
      QueuedWhenOwned(s, w, i, q);
      var r := w.saved[q];
      var v := w.(
      attempts := w.attempts[i := w.attempts[i].(
      success := Some(r.success), completedAt := r.stopped, exception := if r.success then None else exception)],
      status := if r.success then Succeeded else Failed);
      ResolvingKeeps(s, w, v, i);
      if r.success {
        SucceededRowsAreFlight(s, v);
        RoutingKeeps(s, v, v.routing + {w.attempts[i].number});
      } else {
        FailureKeeps(s, v, i, delay);
      }
    }
  }

  lemma SucceededRowsAreFlight(s: Settings, v: World)
    requires AllResolved(s, v) && v.status == Succeeded && v.attempts[|v.attempts| - 1].success == Some(true)
    ensures Flight(s, v)
  {
  }

  /** The failure path both resolvers share. */
  lemma FailureKeeps(s: Settings, w: World, i: nat, delay: nat)
    requires AllResolved(s, w) && Counted(s, w) && i == |w.attempts| - 1
    requires w.attempts[i].success == Some(false) && w.attempts[i].state == Queued
    requires w.status == Running || w.status == Failed
    ensures SettleFailure(w, i, delay).Ok?
    ensures var v := SettleFailure(w, i, delay).value;
            Inv(s, if v.status == Running then v.(status := Failed) else v)
    ensures w.status == Failed ==> SettleFailure(w, i, delay).value.status != Running
  {
    hide Flight, Counted, SettleFailure, AllResolved;
    if Retries(w, i) {
      RetryKeeps(s, w, i, delay);
    } else {
      GiveUpKeeps(s, w, i, delay);
      var v := SettleFailure(w, i, delay).value;
      StatusIsUncounted(s, v);
      assert v.(status := v.status) == v;
      assert Flight(s, v.(status := if v.status == Running then Failed else v.status));
    }
  }

  lemma RoutingKeeps(s: Settings, w: World, routing: set<nat>)
    requires Flight(s, w)
    ensures Flight(s, w.(routing := routing)) && (Counted(s, w) ==> Counted(s, w.(routing := routing)))
  {
    SameRowsKeep(s, w, w.(routing := routing));
  }

  lemma ReapKeeps(s: Settings, w: World, i: nat, delay: nat)
    requires Inv(s, w)
    ensures Inv(s, Reap(s, w, i, delay))
  {
    hide Flight, Counted, SettleFailure, AllResolved;
    if Orphaned(s, w, i) {
      var a := w.attempts[i];
      if a.committed {
        var v := Reap(s, w, i, delay);
        ResolvingKeeps(s, w, v, i);
        SucceededRowsAreFlight(s, v);
      } else {
        var v := w.(attempts := w.attempts[i := a.(
        success := Some(false), completedAt := w.now,
        exception := Some(if a.returned then "ResultLost" else "OrphanedTask"))]);
        ResolvingKeeps(s, w, v, i);
        FailureKeeps(s, v, i, delay);
      }
    }
  }

  lemma StatusIsUncounted(s: Settings, w: World)
    requires Counted(s, w)
    ensures Counted(s, w.(status := Failed))
  {
  }

  lemma RouteKeeps(s: Settings, w: World, i: nat, reach: Reach)
    requires Inv(s, w)
    ensures Inv(s, Route(s, w, i, reach))
  {
    if Routable(s, w, i) {
      assert AttemptSound(s, w, w.attempts[i]);
      StampKeeps(s, w, Route(s, w, i, reach), i);
    }
  }

  // ---------------------------------------------------------------------------
  // Requeue
  // ---------------------------------------------------------------------------

  predicate Terminal(status: TaskStatus) {
    status == Succeeded || Dead(status)
  }

  /**
   The exact condition under which a requeue keeps single flight: it is refused, or the
   task is terminal when its attempt is inserted. The status the caller saw decides only
   whether it is refused, and may have been read long before.
   */
  lemma RequeueKeepsFlightIff(s: Settings, w: World, seenStatus: TaskStatus, seenLatest: nat)
    requires Inv(s, w) && seenLatest <= |w.attempts|
    ensures Requeue(w, seenStatus, seenLatest).Ok? <==> Dead(seenStatus) && seenLatest == |w.attempts|
    ensures Requeue(w, seenStatus, seenLatest).Ok? ==>
              (Inv(s, Requeue(w, seenStatus, seenLatest).value) <==> Terminal(w.status))
  {
    NumbersAreTaken(s, w, seenLatest + 1);
    if Requeue(w, seenStatus, seenLatest).Ok? {
      var v := Requeue(w, seenStatus, seenLatest).value;
      ExecutionsOfAppend(w.attempts, NewAttempt(seenLatest + 1, w.now, w.now));
      if Terminal(w.status) {
        ScheduleKeepsFlight(s, w, seenLatest + 1, w.now);
        SameRowsKeep(s, ScheduleAttempt(w, seenLatest + 1, w.now).value, v);
      } else {
        assert !Resolved(v.attempts[|w.attempts| - 1]);
      }
    }
  }

  /** Two operators, each with an instance of its own loaded while the task was dead: both are accepted. */
  lemma StaleRequeueOpensTwo(s: Settings, now: Time)
    requires s.limit >= 1
    ensures var dead := Enqueued(None, now).(
              status := Failed,
              attempts := [Enqueued(None, now).attempts[0].(success := Some(false))]);
            && Inv(s, dead)
            && Requeue(dead, Failed, 1).Ok?
            && Requeue(Requeue(dead, Failed, 1).value, Failed, 2).Ok?
            && var both := Requeue(Requeue(dead, Failed, 1).value, Failed, 2).value.attempts;
            && |both| == 3 && !Resolved(both[1]) && !Resolved(both[2])
  {
    var dead := Enqueued(None, now).(
    status := Failed,
    attempts := [Enqueued(None, now).attempts[0].(success := Some(false))]);
    assert dead.attempts[..0] == [];
    assert dead.policy.None? && |dead.attempts| == 1 && AttemptLimit(dead.policy) == 1;
    assert AttemptSound(s, dead, dead.attempts[0]);
    assert Inv(s, dead);
    RequeueKeepsFlightIff(s, dead, Failed, 1);
    var once := Requeue(dead, Failed, 1).value;
    RequeueKeepsFlightIff(s, once, Failed, 2);
  }

  // ---------------------------------------------------------------------------
  // Whole runs
  // ---------------------------------------------------------------------------

  /** A requeue looked up a latest attempt that exists, and finds the task terminal or loses. */
  ghost predicate RequeuesTerminal(w: World, e: Event) {
    e.RequeueDead? && Dead(e.seenStatus) ==>
      e.seenLatest < |w.attempts| || (e.seenLatest == |w.attempts| && Terminal(w.status))
  }

  lemma OtherKeeps(s: Settings, w: World, v: World)
    requires Inv(s, w) && v.attempts == w.attempts && v.status == w.status && v.nextQ2 == w.nextQ2
    requires v.policy == w.policy && v.entries == w.entries && v.requeues == w.requeues
    ensures Inv(s, v)
  {
    SameRowsKeep(s, w, v);
  }

  lemma StepKeeps(s: Settings, w: World, e: Event)
    requires Inv(s, w) && RequeuesTerminal(w, e)
    ensures Inv(s, Step(s, w, e))
  {
    hide Inv, Claim, Deliver, Handle, Reap, Route, Requeue, ScheduleAttempt;
    match e
    case ClaimDue(i, cutoff) => ClaimKeeps(s, w, i, cutoff);
    case DeliverMessage(i, q) => DeliverKeeps(s, w, i, q);
    case Beat(i, q) => BeatKeeps(s, w, i, q);
    case CommitOutput(i, q) => CommitKeeps(s, w, i, q);
    case ReturnFromBody(i, q) => ReturnKeeps(s, w, i, q);
    case SaveResult(q, success) => OtherKeeps(s, w, Save(w, q, success));
    case LoseMessage(q) => OtherKeeps(s, w, w.(queue := w.queue - {q}));
    case HandleResult(i, q, exception, delay) => HandleKeeps(s, w, i, q, exception, delay);
    case ReconcileResult(i, q, exception, delay) => HandleKeeps(s, w, i, q, exception, delay);
    case ReapOrphan(i, delay) => ReapKeeps(s, w, i, delay);
    case RouteAttempt(i, reach) => RouteKeeps(s, w, i, reach);
    case RequeueDead(status, latest) => RequeueKeeps(s, w, status, latest);
    case CancelWorkflow => OtherKeeps(s, w, w.(workflowCancelled := true));
    case CrashWorker(q) => OtherKeeps(s, w, w.(executing := w.executing - {q}, reporting := w.reporting - {q}));
    case CrashMonitor => OtherKeeps(s, w, w.(routing := {}));
    case Tick(seconds) => OtherKeeps(s, w, w.(now := w.now + seconds));
  }

  lemma RequeueKeeps(s: Settings, w: World, seenStatus: TaskStatus, seenLatest: nat)
    requires Inv(s, w) && RequeuesTerminal(w, RequeueDead(seenStatus, seenLatest))
    ensures Inv(s, Step(s, w, RequeueDead(seenStatus, seenLatest)))
  {
    hide Inv, ScheduleAttempt;
    if Dead(seenStatus) {
      RequeueKeepsFlightIff(s, w, seenStatus, seenLatest);
    }
  }

  lemma BeatKeeps(s: Settings, w: World, i: nat, q: Q2Id)
    requires Inv(s, w)
    ensures Inv(s, Heartbeat(w, i, q))
  {
    hide Inv;
    if Heartbeat(w, i, q) != w {
      QueuedWhenOwned(s, w, i, q) by { FlightOf(s, w); }
      StampKeeps(s, w, Heartbeat(w, i, q), i);
    }
  }

  lemma CommitKeeps(s: Settings, w: World, i: nat, q: Q2Id)
    requires Inv(s, w)
    ensures Inv(s, Commit(w, i, q))
  {
    hide Inv;
    if Commit(w, i, q) != w {
      QueuedWhenOwned(s, w, i, q) by { FlightOf(s, w); }
      StampKeeps(s, w, Commit(w, i, q), i);
    }
  }

  lemma ReturnKeeps(s: Settings, w: World, i: nat, q: Q2Id)
    requires Inv(s, w)
    ensures Inv(s, Return(w, i, q))
  {
    hide Inv;
    if Return(w, i, q) != w {
      QueuedWhenOwned(s, w, i, q) by { FlightOf(s, w); }
      if Resolved(w.attempts[i]) {
        OtherKeeps(s, w, Return(w, i, q));
      } else {
        StampKeeps(s, w, Return(w, i, q), i);
      }
    }
  }

  lemma FlightOf(s: Settings, w: World)
    requires Inv(s, w)
    ensures Flight(s, w)
  {
  }

  ghost predicate TerminalRequeues(s: Settings, w: World, run: seq<Event>) {
    run == [] ||
    var front, last := run[..|run| - 1], run[|run| - 1];
    TerminalRequeues(s, w, front) && RequeuesTerminal(Play(s, w, front), last)
  }

  lemma NewTasksAreSound(s: Settings, policy: Option<Policy>, notBefore: Time, now: Time)
    requires s.limit >= 1 && (policy.Some? ==> ValidPolicy(policy.value))
    ensures Inv(s, Enqueued(policy, now)) && Inv(s, Deferred(policy, notBefore, now))
  {
    assert Enqueued(policy, now).attempts[..0] == [] && Deferred(policy, notBefore, now).attempts[..0] == [];
  }

  lemma {:induction false} RunKeeps(s: Settings, w: World, run: seq<Event>)
    requires Inv(s, w) && TerminalRequeues(s, w, run)
    ensures Inv(s, Play(s, w, run))
  {
    hide Inv, Step;
    if run != [] {
      RunKeeps(s, w, run[..|run| - 1]);
      StepKeeps(s, Play(s, w, run[..|run| - 1]), run[|run| - 1]);
    }
  }

  /** Single flight over whole runs, for a task that starts queued and one that starts scheduled. */
  lemma OneAttemptInFlight(
    s: Settings, policy: Option<Policy>, deferred: bool, notBefore: Time, start: Time, run: seq<Event>)
    requires s.limit >= 1 && (policy.Some? ==> ValidPolicy(policy.value))
    requires TerminalRequeues(s, NewTask(policy, deferred, notBefore, start), run)
    ensures var w := Play(s, NewTask(policy, deferred, notBefore, start), run);
            && |w.attempts| >= 1
            && (forall i :: 0 <= i < |w.attempts| ==> w.attempts[i].number == i + 1)
            && (forall i :: 0 <= i < |w.attempts| - 1 ==> Resolved(w.attempts[i]))
            && StatusFollows(w.status, w.attempts[|w.attempts| - 1])
            && (forall i :: 0 <= i < |w.attempts| ==>
                              var a := w.attempts[i];
                              && (a.state == Queued ==> a.q2.Some?)
                              && (a.claimedAt.Some? && a.notBefore.Some? ==> a.notBefore.value <= a.claimedAt.value)
                              && a.executions <= s.limit)
  {
    hide Play, TerminalRequeues;
    NewTasksAreSound(s, policy, notBefore, start);
    var w0 := NewTask(policy, deferred, notBefore, start);
    RunKeeps(s, w0, run);
    var w := Play(s, w0, run);
    forall i | 0 <= i < |w.attempts|
      ensures w.attempts[i].state == Queued ==> w.attempts[i].q2.Some?
    {
      assert AttemptSound(s, w, w.attempts[i]);
    }
  }

  // ---------------------------------------------------------------------------
  // The execution budget
  // ---------------------------------------------------------------------------

  lemma {:induction false} ExecutionsAreLimited(attempts: seq<Attempt>, limit: nat)
    requires forall i :: 0 <= i < |attempts| ==> attempts[i].executions <= limit
    ensures Executions(attempts) <= |attempts| * limit
  {
    if attempts != [] {
      ExecutionsAreLimited(attempts[..|attempts| - 1], limit);
      assert |attempts| * limit == (|attempts| - 1) * limit + limit;
    }
  }

  /** The body is entered at most (max_attempts + requeues) * limit times. */
  lemma BodyEntriesAreBounded(s: Settings, w: World)
    requires Inv(s, w)
    ensures w.entries <= (AttemptLimit(w.policy) + w.requeues) * s.limit
  {
    forall i | 0 <= i < |w.attempts|
      ensures w.attempts[i].executions <= s.limit
    {
      assert AttemptSound(s, w, w.attempts[i]);
    }
    ExecutionsAreLimited(w.attempts, s.limit);
    ProductGrows(|w.attempts|, AttemptLimit(w.policy) + w.requeues, s.limit);
  }

  lemma ProductGrows(x: nat, y: nat, z: nat)
    requires x <= y
    ensures x * z <= y * z
  {
  }

  /** Nothing un-starts or un-resolves an attempt, so FIRST is given once and never after resolution. */
  lemma AttemptsOnlyAdvance(s: Settings, w: World, e: Event, i: nat)
    requires i < |w.attempts|
    ensures var v := Step(s, w, e);
            && i < |v.attempts|
            && Advanced(w.attempts[i], v.attempts[i])
            && (v.attempts[i].executions > w.attempts[i].executions ==>
                  e.DeliverMessage? && e.index == i && VerdictOf(s, w.attempts[i]) != Refused)
  {
    hide SettleFailure;
    match e
    case HandleResult(j, q, exception, delay) => HandleAdvances(s, w, j, q, exception, delay, i);
    case ReconcileResult(j, q, exception, delay) => HandleAdvances(s, w, j, q, exception, delay, i);
    case ReapOrphan(j, delay) => ReapAdvances(s, w, j, delay, i);
    case _ =>
  }

  predicate Advanced(a: Attempt, b: Attempt) {
    && (a.started ==> b.started)
    && a.executions <= b.executions <= a.executions + 1
    && (Resolved(a) ==> b.success == a.success && b.executions == a.executions)
  }

  lemma FailureOnlyRoutes(w: World, i: nat, delay: nat, j: nat)
    requires i < |w.attempts| && j < |w.attempts| && SettleFailure(w, i, delay).Ok?
    ensures var v := SettleFailure(w, i, delay).value;
            j < |v.attempts| && v.attempts[j] == w.attempts[j].(routed := v.attempts[j].routed)
  {
  }

  lemma HandleAdvances(
    s: Settings, w: World, j: nat, q: Q2Id, exception: Option<string>, delay: nat, i: nat)
    requires i < |w.attempts|
    ensures var v := Handle(w, j, q, exception, delay);
            && i < |v.attempts| && Advanced(w.attempts[i], v.attempts[i])
            && v.attempts[i].executions == w.attempts[i].executions
  {
    hide SettleFailure;
    if Owns(w, j, q) && q in w.saved && !Resolved(w.attempts[j]) && !w.saved[q].success {
      var v := w.(
      attempts := w.attempts[j := w.attempts[j].(
      success := Some(false), completedAt := w.saved[q].stopped, exception := exception)],
      status := Failed);
      if SettleFailure(v, j, delay).Ok? {
        FailureOnlyRoutes(v, j, delay, i);
      }
    }
  }

  lemma ReapAdvances(s: Settings, w: World, j: nat, delay: nat, i: nat)
    requires i < |w.attempts|
    ensures var v := Reap(s, w, j, delay);
            && i < |v.attempts| && Advanced(w.attempts[i], v.attempts[i])
            && v.attempts[i].executions == w.attempts[i].executions
  {
    hide SettleFailure;
    if Orphaned(s, w, j) && !w.attempts[j].committed {
      var a := w.attempts[j];
      var v := w.(attempts := w.attempts[j := a.(
      success := Some(false), completedAt := w.now,
      exception := Some(if a.returned then "ResultLost" else "OrphanedTask"))]);
      if SettleFailure(v, j, delay).Ok? {
        FailureOnlyRoutes(v, j, delay, i);
      }
    }
  }

  lemma VerdictsAreBudgeted(s: Settings, w: World, i: nat)
    requires Inv(s, w) && i < |w.attempts|
    ensures VerdictOf(s, w.attempts[i]) == First ==> !w.attempts[i].started && w.attempts[i].executions == 0
    ensures VerdictOf(s, w.attempts[i]) == Refused <==> Resolved(w.attempts[i]) || w.attempts[i].executions == s.limit
  {
    assert AttemptSound(s, w, w.attempts[i]);
  }
}
