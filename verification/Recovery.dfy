/**
 Crash recovery of one task: a measure that no step but a requeue can raise, a sweep or
 delivery that lowers it from every state once the clock has passed its grace, and the
 one routing a crash can lose for good.
 */
module Recovery {
  import opened Common
  import opened Backoff
  import opened Attempts
  import opened SingleFlight

  // ---------------------------------------------------------------------------
  // The measure
  // ---------------------------------------------------------------------------

  function Last(w: World): Attempt
    requires |w.attempts| >= 1
  {
    w.attempts[|w.attempts| - 1]
  }

  /** Scheduled, then queued, then resolved, then routed. */
  function Phase(a: Attempt): nat {
    if a.success.None? then (if a.state == Scheduled then 3 else 2)
    else if a.routed then 0 else 1
  }

  /** Attempts left, then the phase of the last one. */
  function Measure(w: World): int
    requires |w.attempts| >= 1
  {
    4 * (AttemptLimit(w.policy) - |w.attempts|) + Phase(Last(w))
  }

  /** Every attempt but the last was absorbed by its retry. */
  ghost predicate Behind(w: World) {
    forall i :: 0 <= i < |w.attempts| - 1 ==> w.attempts[i].routed
  }

  ghost predicate Requeueless(s: Settings, w: World) {
    Inv(s, w) && Behind(w) && w.requeues == 0
  }

  /** The last attempt is resolved and flagged as routed: no sweep will touch it again. */
  predicate Flagged(w: World) {
    |w.attempts| >= 1 && Resolved(Last(w)) && Last(w).routed
  }

  /** And its routing has really happened: nothing is owed. */
  predicate Done(w: World) {
    Flagged(w) && Last(w).number in w.told
  }

  datatype Shown = Shown(state: AttemptState, success: Option<bool>, routed: bool)

  function Show(a: Attempt): Shown {
    Shown(a.state, a.success, a.routed)
  }

  /** The step moved some attempt along, or added one. */
  ghost predicate Moved(w: World, v: World) {
    || |v.attempts| != |w.attempts|
    || exists i :: 0 <= i < |w.attempts| && Show(v.attempts[i]) != Show(w.attempts[i])
  }

  ghost predicate Falls(w: World, v: World)
    requires |w.attempts| >= 1 && |v.attempts| >= 1
  {
    && Behind(v) && v.policy == w.policy && v.requeues == w.requeues
    && (Moved(w, v) ==> Measure(v) < Measure(w))
    && (!Moved(w, v) ==> Measure(v) == Measure(w))
  }

  lemma RewriteFalls(s: Settings, w: World, v: World, i: nat)
    requires Requeueless(s, w) && i < |w.attempts| && |v.attempts| == |w.attempts|
    requires v.attempts == w.attempts[i := v.attempts[i]] && v.policy == w.policy && v.requeues == w.requeues
    requires w.attempts[i].routed ==> v.attempts[i].routed
    requires Show(v.attempts[i]) == Show(w.attempts[i]) || (!w.attempts[i].routed && Phase(v.attempts[i]) < Phase(w.attempts[i]))
    ensures Falls(w, v)
  {
    if Show(v.attempts[i]) != Show(w.attempts[i]) {
      assert i == |w.attempts| - 1;
      assert Moved(w, v);
    }
  }

  lemma SameAttemptsFall(w: World, v: World)
    requires |w.attempts| >= 1 && Behind(w)
    requires v.attempts == w.attempts && v.policy == w.policy && v.requeues == w.requeues
    ensures Falls(w, v)
  {
  }

  lemma RetryFalls(s: Settings, w: World, v: World, i: nat)
    requires Requeueless(s, w) && i == |w.attempts| - 1 && Phase(w.attempts[i]) == 2
    requires |v.attempts| == |w.attempts| + 1 && v.policy == w.policy && v.requeues == w.requeues
    requires forall j :: 0 <= j < i ==> v.attempts[j] == w.attempts[j]
    requires v.attempts[i].routed && Phase(Last(v)) <= 3
    ensures Falls(w, v)
  {
    assert Moved(w, v);
  }

  lemma HandleFalls(s: Settings, w: World, i: nat, q: Q2Id, exception: Option<string>, delay: nat)
    requires Requeueless(s, w)
    ensures |Handle(w, i, q, exception, delay).attempts| >= 1 && Falls(w, Handle(w, i, q, exception, delay))
  {
    hide Flight, Counted, SettleFailure, Falls, AllResolved, Behind, AttemptSound;
    var h := Handle(w, i, q, exception, delay);
    if Owns(w, i, q) && q in w.saved && !Resolved(w.attempts[i]) {
      QueuedWhenOwned(s, w, i, q);
      OpenIsLast(s, w, i);
      var r := w.saved[q];
      var v := w.(
      attempts := w.attempts[i := w.attempts[i].(
      success := Some(r.success), completedAt := r.stopped, exception := if r.success then None else exception)],
      status := if r.success then Succeeded else Failed);
      ResolvingKeeps(s, w, v, i);
      OpenIsUnrouted(s, w, i);
      if r.success {
        RewriteFalls(s, w, h, i);
      } else {
        FailureKeeps(s, v, i, delay);
        KeptCounters(v, i, delay);
        if Retries(v, i) {
          RetryKeeps(s, v, i, delay);
          RetryRows(v, h, i);
          RetryFalls(s, w, h, i);
        } else {
          GiveUpKeeps(s, v, i, delay);
          RewriteFalls(s, w, h, i);
        }
      }
    } else {
      SameAttemptsFall(w, w) by { AtLeastOne(s, w); }
    }
    KeptCountersOfHandle(s, w, i, q, exception, delay);
  }

  lemma AtLeastOne(s: Settings, w: World)
    requires Inv(s, w)
    ensures |w.attempts| >= 1
  {
  }

  lemma OpenIsUnrouted(s: Settings, w: World, i: nat)
    requires Flight(s, w) && i < |w.attempts| && !Resolved(w.attempts[i])
    ensures !w.attempts[i].routed
  {
    assert AttemptSound(s, w, w.attempts[i]);
  }

  lemma KeptCounters(w: World, i: nat, delay: nat)
    requires i < |w.attempts| && SettleFailure(w, i, delay).Ok?
    ensures var v := SettleFailure(w, i, delay).value; v.policy == w.policy && v.requeues == w.requeues
  {
  }

  lemma KeptCountersOfHandle(s: Settings, w: World, i: nat, q: Q2Id, exception: Option<string>, delay: nat)
    requires Inv(s, w)
    ensures |Handle(w, i, q, exception, delay).attempts| >= 1
  {
    HandleKeeps(s, w, i, q, exception, delay);
    AtLeastOne(s, Handle(w, i, q, exception, delay));
  }

  lemma RetryRows(v: World, h: World, i: nat)
    requires i == |v.attempts| - 1 && |h.attempts| == |v.attempts| + 1
    requires h.attempts[..|v.attempts|] == v.attempts[i := v.attempts[i].(routed := true)]
    ensures forall j :: 0 <= j < i ==> h.attempts[j] == v.attempts[j]
    ensures h.attempts[i].routed
  {
    assert h.attempts[i] == h.attempts[..|v.attempts|][i];
    forall j | 0 <= j < i
      ensures h.attempts[j] == v.attempts[j]
    {
      assert h.attempts[j] == h.attempts[..|v.attempts|][j];
    }
  }

  lemma ReapFalls(s: Settings, w: World, i: nat, delay: nat)
    requires Requeueless(s, w)
    ensures |Reap(s, w, i, delay).attempts| >= 1 && Falls(w, Reap(s, w, i, delay))
  {
    hide Flight, Counted, SettleFailure, Falls, AllResolved, Behind, AttemptSound;
    var h := Reap(s, w, i, delay);
    AtLeastOne(s, w);
    if Orphaned(s, w, i) {
      var a := w.attempts[i];
      OpenIsLast(s, w, i);
      OpenIsUnrouted(s, w, i);
      if a.committed {
        RewriteFalls(s, w, h, i);
      } else {
        var v := w.(attempts := w.attempts[i := a.(
        success := Some(false), completedAt := w.now,
        exception := Some(if a.returned then "ResultLost" else "OrphanedTask"))]);
        ResolvingKeeps(s, w, v, i);
        FailureKeeps(s, v, i, delay);
        KeptCounters(v, i, delay);
        if Retries(v, i) {
          RetryKeeps(s, v, i, delay);
          RetryRows(v, h, i);
          RetryFalls(s, w, h, i);
        } else {
          GiveUpKeeps(s, v, i, delay);
          RewriteFalls(s, w, h, i);
        }
      }
    } else {
      SameAttemptsFall(w, w);
    }
  }

  /** No step but a requeue raises the measure, and every step that moves an attempt lowers it. */
  lemma MeasureFalls(s: Settings, w: World, e: Event)
    requires Requeueless(s, w) && !e.RequeueDead?
    ensures Requeueless(s, Step(s, w, e))
    ensures |w.attempts| >= 1 && |Step(s, w, e).attempts| >= 1 && Falls(w, Step(s, w, e))
  {
    hide Flight, Counted, Handle, Reap, Falls, AttemptSound, Behind;
    AtLeastOne(s, w);
    StepKeeps(s, w, e);
    var v := Step(s, w, e);
    match e {
      case HandleResult(i, q, exception, delay) => HandleFalls(s, w, i, q, exception, delay);
      case ReconcileResult(i, q, exception, delay) =>
        if Reconcilable(s, w, i, q) { HandleFalls(s, w, i, q, exception, delay); } else { SameAttemptsFall(w, w); }
      case ReapOrphan(i, delay) => ReapFalls(s, w, i, delay);
      case ClaimDue(i, cutoff) =>
        if v != w { ClaimFalls(s, w, i, cutoff); } else { SameAttemptsFall(w, w); }
      case RouteAttempt(i, reach) =>
        if v.attempts != w.attempts { RewriteFalls(s, w, v, i); } else { SameAttemptsFall(w, v); }
      case DeliverMessage(i, q) =>
        if v.attempts != w.attempts { RewriteFalls(s, w, v, i); } else { SameAttemptsFall(w, v); }
      case Beat(i, q) => if v.attempts != w.attempts { RewriteFalls(s, w, v, i); } else { SameAttemptsFall(w, v); }
      case CommitOutput(i, q) => if v.attempts != w.attempts { RewriteFalls(s, w, v, i); } else { SameAttemptsFall(w, v); }
      case ReturnFromBody(i, q) => if v.attempts != w.attempts { RewriteFalls(s, w, v, i); } else { SameAttemptsFall(w, v); }
      case _ => SameAttemptsFall(w, v);
    }
    FallsBehind(w, v);
  }

  lemma FallsBehind(w: World, v: World)
    requires |w.attempts| >= 1 && |v.attempts| >= 1 && Falls(w, v)
    ensures Behind(v) && v.requeues == w.requeues
  {
  }

  lemma ClaimFalls(s: Settings, w: World, i: nat, cutoff: Time)
    requires Requeueless(s, w) && Claim(w, i, cutoff) != w
    ensures |w.attempts| >= 1 && Falls(w, Claim(w, i, cutoff))
  {
    assert AttemptSound(s, w, w.attempts[i]);
    RewriteFalls(s, w, Claim(w, i, cutoff), i);
  }

  // ---------------------------------------------------------------------------
  // Runs
  // ---------------------------------------------------------------------------

  ghost predicate RequeueFree(run: seq<Event>) {
    forall i :: 0 <= i < |run| ==> !run[i].RequeueDead?
  }

  /** The steps of the run that moved an attempt along. */
  ghost function Moves(s: Settings, w: World, run: seq<Event>): nat {
    if run == [] then 0
    else
      var front := run[..|run| - 1];
      Moves(s, w, front) + if Moved(Play(s, w, front), Play(s, w, run)) then 1 else 0
  }

  /** Whatever the interleaving, a requeue-free run moves at most as often as its measure allows. */
  lemma {:induction false} MovesAreBounded(s: Settings, w: World, run: seq<Event>)
    requires Requeueless(s, w) && RequeueFree(run)
    ensures Requeueless(s, Play(s, w, run)) && |w.attempts| >= 1 && |Play(s, w, run).attempts| >= 1
    ensures Moves(s, w, run) + Measure(Play(s, w, run)) <= Measure(w)
    ensures 0 <= Measure(Play(s, w, run))
  {
    hide Requeueless, Step, Moved;
    if run == [] {
      AtLeastOneMeasured(s, w);
    } else {
      var front := run[..|run| - 1];
      MovesAreBounded(s, w, front);
      MeasureFalls(s, Play(s, w, front), run[|run| - 1]);
      AtLeastOneMeasured(s, Play(s, w, run));
    }
  }

  lemma AtLeastOneMeasured(s: Settings, w: World)
    requires Requeueless(s, w)
    ensures |w.attempts| >= 1 && 0 <= Measure(w)
  {
  }

  // ---------------------------------------------------------------------------
  // Something is always enabled
  // ---------------------------------------------------------------------------

  predicate IsSweepOrDelivery(e: Event) {
    e.ClaimDue? || e.DeliverMessage? || e.ReconcileResult? || e.ReapOrphan? || e.RouteAttempt?
  }

  /** The time from which `NextMove` is effective, read off the last attempt. */
  function DueAt(s: Settings, w: World): Time
    requires |w.attempts| >= 1
  {
    var a := Last(w);
    if Resolved(a) then a.completedAt + s.grace + 1
    else if a.state == Scheduled then (if a.notBefore.Some? then a.notBefore.value else w.now)
    else if a.q2.None? then w.now
    else if a.q2.value in w.saved then w.saved[a.q2.value].stopped + s.grace + 1
    else if a.heartbeat.Some? then a.heartbeat.value + s.grace + 1
    else if a.q2.value in w.queue then w.now
    else (if a.claimedAt.Some? then a.claimedAt.value else a.created) + s.staleAfter + 1
  }

  /** The sweep, claim or delivery whose turn it is. */
  function NextMove(w: World, now: Time): Event
    requires |w.attempts| >= 1
  {
    var i, a := |w.attempts| - 1, Last(w);
    if Resolved(a) then RouteAttempt(i, Reach.Flagged)
    else if a.state == Scheduled then ClaimDue(i, now)
    else if a.q2.Some? && a.q2.value in w.saved then ReconcileResult(i, a.q2.value, None, 0)
    else if a.heartbeat.None? && a.q2.Some? && a.q2.value in w.queue then DeliverMessage(i, a.q2.value)
    else ReapOrphan(i, 0)
  }

  /**
   In every unfinished state the next move is effective from its due time on, at every later
   clock until it is taken: each but a first delivery lowers the measure, and after that
   delivery the reaper can.
   */
  lemma SomethingIsEnabled(s: Settings, w: World, wait: nat)
    requires Requeueless(s, w) && !Flagged(w)
    requires |w.attempts| >= 1 && w.now + wait >= DueAt(s, w)
    ensures var e := NextMove(w, w.now + wait);
            var v := Step(s, Step(s, w, Tick(wait)), e);
            && IsSweepOrDelivery(e) && |v.attempts| >= 1
            && (!e.DeliverMessage? ==> Measure(v) < Measure(w))
            && (e.DeliverMessage? ==>
                  && Last(w).heartbeat.None?
                  && Measure(v) == Measure(w) && Last(v).heartbeat.Some?)
  {
    hide Requeueless, Step, Measure;
    var a := Last(w);
    LastIsSound(s, w);
    if Resolved(a) {
      RouteIsEnabled(s, w, wait);
    } else if a.state == Scheduled {
      ClaimIsEnabled(s, w, wait);
    } else if a.q2.value in w.saved {
      ReconcileIsEnabled(s, w, wait);
    } else if a.heartbeat.None? && a.q2.value in w.queue {
      DeliveryIsEnabled(s, w, wait);
    } else {
      ReapIsEnabled(s, w, wait);
    }
  }

  lemma LastIsSound(s: Settings, w: World)
    requires Requeueless(s, w)
    ensures |w.attempts| >= 1
    ensures Last(w).state == Scheduled ==> Last(w).notBefore.Some? && !Last(w).started && Last(w).success.None?
    ensures Last(w).state == Queued ==> Last(w).q2.Some?
    ensures Last(w).started ==> Last(w).heartbeat.Some?
    ensures (Last(w).started <==> Last(w).executions > 0) && s.limit >= 1
  {
    assert AttemptSound(s, w, Last(w));
  }

  lemma ClaimIsEnabled(s: Settings, w: World, wait: nat)
    requires Requeueless(s, w) && |w.attempts| >= 1 && Last(w).state == Scheduled && Last(w).notBefore.Some?
    requires !Resolved(Last(w)) && w.now + wait >= Last(w).notBefore.value
    ensures var v := Step(s, Step(s, w, Tick(wait)), ClaimDue(|w.attempts| - 1, w.now + wait));
            |v.attempts| >= 1 && Measure(v) < Measure(w)
  {
    hide Inv, Behind;
  }

  lemma DeliveryIsEnabled(s: Settings, w: World, wait: nat)
    requires Requeueless(s, w) && |w.attempts| >= 1 && !Resolved(Last(w)) && Last(w).state == Queued
    requires Last(w).q2.Some? && Last(w).q2.value in w.queue && Last(w).heartbeat.None?
    ensures var v := Step(s, Step(s, w, Tick(wait)), DeliverMessage(|w.attempts| - 1, Last(w).q2.value));
            |v.attempts| >= 1 && Measure(v) == Measure(w) && Last(v).heartbeat.Some?
  {
    LastIsSound(s, w);
    hide Inv, Behind;
  }

  lemma TickKeepsMeasure(s: Settings, w: World, wait: nat)
    requires Requeueless(s, w)
    ensures Requeueless(s, Step(s, w, Tick(wait))) && |w.attempts| >= 1
    ensures Measure(Step(s, w, Tick(wait))) == Measure(w)
  {
    hide Flight, Counted;
    MeasureFalls(s, w, Tick(wait));
    assert !Moved(w, Step(s, w, Tick(wait)));
  }

  lemma RouteIsEnabled(s: Settings, w: World, wait: nat)
    requires Requeueless(s, w) && !Flagged(w) && |w.attempts| >= 1 && Resolved(Last(w))
    requires w.now + wait > Last(w).completedAt + s.grace
    ensures var v := Step(s, Step(s, w, Tick(wait)), RouteAttempt(|w.attempts| - 1, Reach.Flagged));
            |v.attempts| >= 1 && Measure(v) < Measure(w)
  {
    hide Inv;
  }

  lemma ReconcileIsEnabled(s: Settings, w: World, wait: nat)
    requires Requeueless(s, w) && |w.attempts| >= 1
    requires !Resolved(Last(w)) && Last(w).state == Queued && Last(w).q2.Some? && Last(w).q2.value in w.saved
    requires w.now + wait > w.saved[Last(w).q2.value].stopped + s.grace
    ensures var v := Step(s, Step(s, w, Tick(wait)), ReconcileResult(|w.attempts| - 1, Last(w).q2.value, None, 0));
            |v.attempts| >= 1 && Measure(v) < Measure(w)
  {
    var i, q := |w.attempts| - 1, Last(w).q2.value;
    TickKeepsMeasure(s, w, wait);
    var t := Step(s, w, Tick(wait));
    StatusFollowsLast(s, w);
    MeasureFalls(s, t, ReconcileResult(i, q, None, 0));
    HandlingMoves(s, t, i, q);
  }

  lemma StatusFollowsLast(s: Settings, w: World)
    requires Inv(s, w)
    ensures |w.attempts| >= 1 && StatusFollows(w.status, Last(w))
  {
  }

  lemma HandlingMoves(s: Settings, w: World, i: nat, q: Q2Id)
    requires Inv(s, w) && Owns(w, i, q) && q in w.saved && !Resolved(w.attempts[i])
    ensures Moved(w, Handle(w, i, q, None, 0))
  {
    hide Flight, Counted, SettleFailure, AllResolved, AttemptSound;
    QueuedWhenOwned(s, w, i, q);
    var h := Handle(w, i, q, None, 0);
    if !w.saved[q].success {
      var v := w.(
      attempts := w.attempts[i := w.attempts[i].(
      success := Some(false), completedAt := w.saved[q].stopped, exception := None)],
      status := Failed);
      ResolvingKeeps(s, w, v, i);
      FailureKeeps(s, v, i, 0);
      FailureOnlyRoutes(v, i, 0, i);
      assert h == SettleFailure(v, i, 0).value;
      assert h.attempts[i].success == Some(false);
    }
    assert |h.attempts| == |w.attempts| ==> Show(h.attempts[i]) != Show(w.attempts[i]);
  }

  lemma ReapIsEnabled(s: Settings, w: World, wait: nat)
    requires Requeueless(s, w) && |w.attempts| >= 1
    requires !Resolved(Last(w)) && Last(w).state == Queued && Last(w).q2.Some? && Last(w).q2.value !in w.saved
    requires Last(w).heartbeat.Some? || Last(w).q2.value !in w.queue
    requires w.now + wait >= DueAt(s, w)
    ensures var v := Step(s, Step(s, w, Tick(wait)), ReapOrphan(|w.attempts| - 1, 0));
            |v.attempts| >= 1 && Measure(v) < Measure(w)
  {
    hide Flight, Counted, Reap, Behind, Moved;
    var i, a := |w.attempts| - 1, Last(w);
    TickKeepsMeasure(s, w, wait);
    var t := Step(s, w, Tick(wait));
    StatusFollowsLast(s, w);
    assert Orphaned(s, t, i);
    MeasureFalls(s, t, ReapOrphan(i, 0));
    ReapingMoves(s, t, i);
  }

  lemma ReapingMoves(s: Settings, w: World, i: nat)
    requires Inv(s, w) && Orphaned(s, w, i)
    ensures Moved(w, Reap(s, w, i, 0))
  {
    hide Flight, Counted, SettleFailure, AllResolved, AttemptSound;
    var h, a := Reap(s, w, i, 0), w.attempts[i];
    if !a.committed {
      var v := w.(attempts := w.attempts[i := a.(
      success := Some(false), completedAt := w.now,
      exception := Some(if a.returned then "ResultLost" else "OrphanedTask"))]);
      ResolvingKeeps(s, w, v, i);
      FailureKeeps(s, v, i, 0);
      FailureOnlyRoutes(v, i, 0, i);
    }
    assert |h.attempts| == |w.attempts| ==> Show(h.attempts[i]) != Show(w.attempts[i]);
  }

  ghost predicate Sweeping(run: seq<Event>) {
    forall i :: 0 <= i < |run| ==> run[i].Tick? || IsSweepOrDelivery(run[i])
  }

  /**
   Recovery: from every state in which no routing has been lost, whatever else crashed, the
   clock, deliveries and sweeps alone bring the task to a terminal status with its last
   resolution routed.
   */
  lemma {:induction false} SweepsFinish(s: Settings, w: World) returns (run: seq<Event>)
    requires Requeueless(s, w) && Heard(w) && Recoverable(w)
    ensures Sweeping(run) && Done(Play(s, w, run)) && Terminal(Play(s, w, run).status)
    decreases if |w.attempts| >= 1 then Measure(w) else 0,
              if |w.attempts| >= 1 && Last(w).heartbeat.None? then 1 else 0
  {
    hide Inv, Behind, Step, Heard, Recoverable, Done, DueAt, NextMove;
    AtLeastOneMeasured(s, w);
    if Flagged(w) {
      run := FlaggedFinishes(s, w);
    } else {
      var wait := if DueAt(s, w) > w.now then DueAt(s, w) - w.now else 0;
      var e := NextMove(w, w.now + wait);
      SomethingIsEnabled(s, w, wait);
      var t := Step(s, w, Tick(wait));
      SweepingKeeps(s, w, Tick(wait));
      SweepingKeeps(s, t, e);
      AtLeastOneMeasured(s, Step(s, t, e));
      var rest := SweepsFinish(s, Step(s, t, e));
      PlayTwo(s, w, Tick(wait), e, rest);
      run := [Tick(wait), e] + rest;
    }
  }

  lemma SweepingKeeps(s: Settings, w: World, e: Event)
    requires Requeueless(s, w) && Heard(w) && Recoverable(w) && (e.Tick? || IsSweepOrDelivery(e))
    ensures Requeueless(s, Step(s, w, e)) && Heard(Step(s, w, e)) && Recoverable(Step(s, w, e))
  {
    hide Inv, Behind, Step, Heard, Falls;
    MeasureFalls(s, w, e);
    assert Inv(s, w);
    StepIsHeard(s, w, e);
  }

  /** Flagged but untold, the routing is still in the resolving process's hands. */
  lemma FlaggedFinishes(s: Settings, w: World) returns (run: seq<Event>)
    requires Inv(s, w) && Recoverable(w) && Flagged(w)
    ensures Sweeping(run) && Done(Play(s, w, run)) && Terminal(Play(s, w, run).status)
  {
    hide Counted;
    var i := |w.attempts| - 1;
    if Last(w).number in w.told {
      run := [];
    } else {
      assert !Lost(w, i);
      var e := RouteAttempt(i, Reach.Flagged);
      run := [e];
      PlayOne(s, w, e);
    }
  }

  lemma PlayOne(s: Settings, w: World, e: Event)
    ensures Play(s, w, [e]) == Step(s, w, e)
  {
    assert [e][..0] == [];
    assert Play(s, w, []) == w;
  }

  lemma {:induction false} PlayTwo(s: Settings, w: World, d: Event, e: Event, rest: seq<Event>)
    ensures Play(s, w, [d, e] + rest) == Play(s, Step(s, Step(s, w, d), e), rest)
  {
    hide Step;
    if rest == [] {
      assert [d, e] + rest == [d, e];
      assert [d, e][..1] == [d] && [d][..0] == [];
      assert Play(s, w, [d]) == Step(s, w, d);
    } else {
      var front, last := rest[..|rest| - 1], rest[|rest| - 1];
      PlayTwo(s, w, d, e, front);
      assert ([d, e] + rest)[..|rest| + 1] == [d, e] + front;
    }
  }

  // ---------------------------------------------------------------------------
  // Published work and lost routing
  // ---------------------------------------------------------------------------

  /** An attempt that committed its output is resolved as a success by the sweep, never retried. */
  lemma PublishedIsNeverRetried(s: Settings, w: World, i: nat, delay: nat)
    requires Inv(s, w) && Orphaned(s, w, i)
    ensures var v := Reap(s, w, i, delay);
            && i < |v.attempts|
            && (w.attempts[i].committed ==>
                  && v.status == Succeeded && |v.attempts| == |w.attempts|
                  && v.attempts[i].success == Some(true) && v.attempts[i].exception.None?)
            && (!w.attempts[i].committed ==>
                  && v.status != Succeeded && v.attempts[i].success == Some(false)
                  && v.attempts[i].exception == Some(if w.attempts[i].returned then "ResultLost" else "OrphanedTask"))
  {
    hide Flight, Counted, SettleFailure, AllResolved, AttemptSound;
    var a := w.attempts[i];
    if !a.committed {
      var v := w.(attempts := w.attempts[i := a.(
      success := Some(false), completedAt := w.now,
      exception := Some(if a.returned then "ResultLost" else "OrphanedTask"))]);
      ResolvingKeeps(s, w, v, i);
      FailureKeeps(s, v, i, delay);
      FailureOnlyRoutes(v, i, delay, i);
      if Retries(v, i) { RetryKeeps(s, v, i, delay); } else { GiveUpKeeps(s, v, i, delay); }
    }
  }

  /** The attempts whose outcome must be routed: a success, and whatever ended the task. */
  predicate Owed(w: World, i: nat) {
    i < |w.attempts| && Resolved(w.attempts[i]) && (w.attempts[i].success == Some(true) || i == |w.attempts| - 1)
  }

  /** Flagged as routed, told to nobody, and about to be told by nobody. */
  predicate Lost(w: World, i: nat) {
    Owed(w, i) && w.attempts[i].routed && w.attempts[i].number !in w.told && w.attempts[i].number !in w.routing
  }

  /** A routing in the resolving process's hands whose flag is already set. */
  predicate FlaggedAhead(w: World, i: nat) {
    Owed(w, i) && w.attempts[i].routed && w.attempts[i].number !in w.told && w.attempts[i].number in w.routing
  }

  /** Every routing owed is done, in flight, or will be found by the sweep. */
  ghost predicate Recoverable(w: World) {
    forall i :: 0 <= i < |w.attempts| ==> !Lost(w, i)
  }

  /** Only resolutions are routed, and a failure that ended the task is flagged by its own routing. */
  ghost predicate Heard(w: World) {
    && (forall n :: n in w.told || n in w.routing ==> 1 <= n <= |w.attempts| && Resolved(w.attempts[n - 1]))
    && (|w.attempts| >= 1 && Last(w).success == Some(false) && Last(w).routed ==> Last(w).number in w.told)
  }

  /** `_resolve_committed`: the sweep resolves an attempt that had published. */
  predicate ReapsCommitted(s: Settings, w: World, e: Event, i: nat) {
    e.ReapOrphan? && e.index == i && Orphaned(s, w, i) && w.attempts[i].committed
  }

  /** How one step moves routings: lost only by a crash, ahead of themselves only by a committed reap. */
  ghost predicate Carries(s: Settings, w: World, e: Event, v: World) {
    && |w.attempts| <= |v.attempts| && Heard(v)
    && (forall i :: 0 <= i < |v.attempts| ==>
                      (Lost(v, i) <==> Lost(w, i) || (e.CrashMonitor? && FlaggedAhead(w, i))))
    && (forall i :: 0 <= i < |v.attempts| && FlaggedAhead(v, i) ==> FlaggedAhead(w, i) || ReapsCommitted(s, w, e, i))
    && (forall i :: ReapsCommitted(s, w, e, i) ==> FlaggedAhead(v, i))
  }

  /** Steps that touch neither outcomes nor routings. */
  lemma SameOutcomesCarry(s: Settings, w: World, e: Event, v: World)
    requires Heard(w) && |v.attempts| == |w.attempts| && v.told == w.told && v.routing == w.routing
    requires forall i :: 0 <= i < |w.attempts| ==>
                           && v.attempts[i].number == w.attempts[i].number
                           && v.attempts[i].success == w.attempts[i].success
                           && v.attempts[i].routed == w.attempts[i].routed
    requires !e.CrashMonitor? && forall i :: !ReapsCommitted(s, w, e, i)
    ensures Carries(s, w, e, v)
  {
    hide ReapsCommitted;
    assert forall i :: 0 <= i < |w.attempts| ==> (Lost(v, i) <==> Lost(w, i)) && (FlaggedAhead(v, i) <==> FlaggedAhead(w, i));
  }

  /** Resolving the open attempt: retried, left for routing, or flagged ahead of it. */
  lemma ResolvingCarries(s: Settings, w: World, e: Event, v: World, i: nat)
    requires Heard(w) && i == |w.attempts| - 1 && !Resolved(w.attempts[i])
    requires forall j :: 0 <= j < |w.attempts| ==> w.attempts[j].number == j + 1
    requires |w.attempts| <= |v.attempts| <= |w.attempts| + 1 && v.told == w.told
    requires forall j :: 0 <= j < i ==> v.attempts[j] == w.attempts[j]
    requires Resolved(v.attempts[i]) && v.attempts[i].number == i + 1
    requires |v.attempts| == |w.attempts| + 1 ==>
               v.attempts[i].success == Some(false) && !Resolved(v.attempts[i + 1]) && v.routing == w.routing
    requires |v.attempts| == |w.attempts| ==> v.routing == w.routing + {i + 1}
    requires !e.CrashMonitor? && forall j :: ReapsCommitted(s, w, e, j) ==> j == i
    requires ReapsCommitted(s, w, e, i) <==> |v.attempts| == |w.attempts| && v.attempts[i].routed
    requires ReapsCommitted(s, w, e, i) ==> v.attempts[i].success == Some(true)
    ensures Carries(s, w, e, v)
  {
    hide ReapsCommitted;
    assert i + 1 !in w.told && i + 1 !in w.routing;
    forall j | 0 <= j < |v.attempts|
      ensures Lost(v, j) <==> Lost(w, j)
      ensures FlaggedAhead(v, j) <==> FlaggedAhead(w, j) || ReapsCommitted(s, w, e, j)
    {
    }
  }

  /** A routing as the other attempts see it: one number told, and at most its own flag set. */
  ghost predicate RoutedFrom(w: World, v: World, i: nat, reach: Reach) {
    && |v.attempts| == |w.attempts|
    && (forall j :: 0 <= j < |w.attempts| ==>
                      && w.attempts[j].number == j + 1
                      && (j != i ==> v.attempts[j] == w.attempts[j])
                      && (w.attempts[j].routed ==> v.attempts[j].routed)
                      && v.attempts[j] == w.attempts[j].(routed := v.attempts[j].routed))
    && (v != w ==>
          && i < |w.attempts| && Resolved(w.attempts[i]) && (i + 1 in w.routing || !w.attempts[i].routed)
          && v.told == w.told + {i + 1} && v.routing == w.routing - {i + 1} && v.nodeOnly == w.nodeOnly
          && v.offered == (if i + 1 in w.nodeOnly || reach == Told then w.offered else w.offered + {i + 1})
          && (v.attempts[i].routed ==> w.attempts[i].routed || reach == Reach.Flagged))
  }

  lemma RouteRoutes(s: Settings, w: World, i: nat, reach: Reach)
    requires Inv(s, w)
    ensures RoutedFrom(w, Route(s, w, i, reach), i, reach)
  {
    hide Counted, AttemptSound;
  }

  lemma RoutingCarries(s: Settings, w: World, i: nat, reach: Reach)
    requires Inv(s, w) && Heard(w)
    ensures Carries(s, w, RouteAttempt(i, reach), Route(s, w, i, reach))
  {
    hide Inv, Route, Heard, Lost, FlaggedAhead;
    var v := Route(s, w, i, reach);
    RouteRoutes(s, w, i, reach);
    RoutedIsHeard(w, v, i, reach);
    forall j | 0 <= j < |v.attempts|
      ensures (Lost(v, j) <==> Lost(w, j)) && (FlaggedAhead(v, j) ==> FlaggedAhead(w, j))
    {
      RoutedLosesNothing(w, v, i, reach, j);
    }
  }

  lemma RoutedIsHeard(w: World, v: World, i: nat, reach: Reach)
    requires RoutedFrom(w, v, i, reach) && Heard(w)
    ensures Heard(v)
  {
    if v != w {
      forall n | n in v.told || n in v.routing
        ensures 1 <= n <= |v.attempts| && Resolved(v.attempts[n - 1])
      {
        assert n == i + 1 || n in w.told || n in w.routing;
      }
    }
  }

  lemma RoutedLosesNothing(w: World, v: World, i: nat, reach: Reach, j: nat)
    requires RoutedFrom(w, v, i, reach) && j < |w.attempts|
    ensures (Lost(v, j) <==> Lost(w, j)) && (FlaggedAhead(v, j) ==> FlaggedAhead(w, j))
  {
    assert v.attempts[j] == w.attempts[j].(routed := v.attempts[j].routed);
  }

  lemma RequeueCarries(s: Settings, w: World, e: Event)
    requires Inv(s, w) && Heard(w) && e.RequeueDead? && RequeuesTerminal(w, e)
    ensures Carries(s, w, e, Step(s, w, e))
  {
    hide Counted, AttemptSound;
    var v := Step(s, w, e);
    NumbersAreTaken(s, w, e.seenLatest + 1);
    if v != w {
      assert Terminal(w.status) && |v.attempts| == |w.attempts| + 1;
      forall j | 0 <= j < |w.attempts|
        ensures v.attempts[j] == w.attempts[j] && (Lost(v, j) <==> Lost(w, j)) && (FlaggedAhead(v, j) ==> FlaggedAhead(w, j))
      {
        if j == |w.attempts| - 1 && w.attempts[j].success == Some(false) && w.attempts[j].routed {
          assert w.attempts[j].number in w.told;
        }
      }
      assert !Resolved(v.attempts[|w.attempts|]);
    } else {
      SameOutcomesCarry(s, w, e, v);
    }
  }

  lemma HandleCarries(s: Settings, w: World, e: Event, i: nat, q: Q2Id, exception: Option<string>, delay: nat)
    requires Inv(s, w) && Heard(w) && (e.HandleResult? || e.ReconcileResult?)
    ensures Carries(s, w, e, Handle(w, i, q, exception, delay))
  {
    hide Counted, SettleFailure, AllResolved, AttemptSound, Carries, Heard;
    var h := Handle(w, i, q, exception, delay);
    if !Owns(w, i, q) || q !in w.saved || Resolved(w.attempts[i]) {
      SameOutcomesCarry(s, w, e, w);
    } else {
      QueuedWhenOwned(s, w, i, q);
      OpenIsLast(s, w, i);
      OpenIsUnrouted(s, w, i);
      var r := w.saved[q];
      var v := w.(
      attempts := w.attempts[i := w.attempts[i].(
      success := Some(r.success), completedAt := r.stopped, exception := if r.success then None else exception)],
      status := if r.success then Succeeded else Failed);
      if !r.success {
        ResolvingKeeps(s, w, v, i);
        FailureKeeps(s, v, i, delay);
        FailureOutcome(s, v, i, delay);
      }
      ResolvingCarries(s, w, e, h, i);
    }
  }

  /** The failure path, as the routings see it. */
  lemma FailureOutcome(s: Settings, w: World, i: nat, delay: nat)
    requires AllResolved(s, w) && Counted(s, w) && i == |w.attempts| - 1
    requires w.attempts[i].success == Some(false) && w.attempts[i].state == Queued && !w.attempts[i].routed
    requires w.attempts[i].number == i + 1
    ensures SettleFailure(w, i, delay).Ok?
    ensures var v := SettleFailure(w, i, delay).value;
            && |w.attempts| <= |v.attempts| <= |w.attempts| + 1 && v.told == w.told
            && (forall j :: 0 <= j < i ==> v.attempts[j] == w.attempts[j])
            && v.attempts[i].success == Some(false) && v.attempts[i].number == i + 1
            && (|v.attempts| == |w.attempts| + 1 ==> !Resolved(v.attempts[i + 1]) && v.routing == w.routing)
            && (|v.attempts| == |w.attempts| ==> v.routing == w.routing + {i + 1} && !v.attempts[i].routed)
  {
    hide AllResolved, Counted;
    if Retries(w, i) {
      RetryKeeps(s, w, i, delay);
      RetryRows(w, SettleFailure(w, i, delay).value, i);
    } else {
      GiveUpKeeps(s, w, i, delay);
    }
  }

  lemma ReapCarries(s: Settings, w: World, i: nat, delay: nat)
    requires Inv(s, w) && Heard(w)
    ensures Carries(s, w, ReapOrphan(i, delay), Reap(s, w, i, delay))
  {
    hide Counted, SettleFailure, AllResolved, AttemptSound, Carries, Heard;
    var h, e := Reap(s, w, i, delay), ReapOrphan(i, delay);
    if !Orphaned(s, w, i) {
      SameOutcomesCarry(s, w, e, w);
    } else {
      var a := w.attempts[i];
      OpenIsLast(s, w, i);
      OpenIsUnrouted(s, w, i);
      if !a.committed {
        var v := w.(attempts := w.attempts[i := a.(
        success := Some(false), completedAt := w.now,
        exception := Some(if a.returned then "ResultLost" else "OrphanedTask"))]);
        ResolvingKeeps(s, w, v, i);
        FailureKeeps(s, v, i, delay);
        FailureOutcome(s, v, i, delay);
      }
      ResolvingCarries(s, w, e, h, i);
    }
  }

  /** Claims, deliveries, stamps, results, clocks and worker crashes leave routings alone. */
  predicate IsInert(e: Event) {
    || e.ClaimDue? || e.DeliverMessage? || e.Beat? || e.CommitOutput? || e.ReturnFromBody? || e.SaveResult?
    || e.LoseMessage? || e.CancelWorkflow? || e.CrashWorker? || e.Tick?
  }

  lemma InertStepsCarry(s: Settings, w: World, e: Event)
    requires Heard(w) && IsInert(e)
    ensures Carries(s, w, e, Step(s, w, e))
  {
    hide Heard, Carries, Handle, Reconcile, Reap, Route, Requeue;
    SameOutcomesCarry(s, w, e, Step(s, w, e));
  }

  lemma StepIsHeard(s: Settings, w: World, e: Event)
    requires Inv(s, w) && RequeuesTerminal(w, e) && Heard(w)
    ensures Carries(s, w, e, Step(s, w, e))
  {
    hide Inv, Handle, Reap, Route, Carries, Heard, Requeue, Claim, Deliver, Heartbeat, Commit, Return, Save;
    match e {
      case HandleResult(i, q, exception, delay) => HandleCarries(s, w, e, i, q, exception, delay);
      case ReconcileResult(i, q, exception, delay) =>
        if Reconcilable(s, w, i, q) { HandleCarries(s, w, e, i, q, exception, delay); } else { SameOutcomesCarry(s, w, e, w); }
      case ReapOrphan(i, delay) => ReapCarries(s, w, i, delay);
      case RouteAttempt(i, reach) => RoutingCarries(s, w, i, reach);
      case RequeueDead(status, latest) => RequeueCarries(s, w, e);
      case CrashMonitor => CrashCarries(s, w);
      case _ => InertStepsCarry(s, w, e);
    }
  }

  lemma CrashCarries(s: Settings, w: World)
    requires Heard(w)
    ensures Carries(s, w, CrashMonitor, Step(s, w, CrashMonitor))
  {
  }

  /**
   The exact condition, for every event: a routing is newly lost if and only if the event is
   a crash of the process that holds it while its flag is already set.
   */
  lemma RoutingIsLostIff(s: Settings, w: World, e: Event, i: nat)
    requires Inv(s, w) && RequeuesTerminal(w, e) && Heard(w) && !Lost(w, i)
    ensures Lost(Step(s, w, e), i) <==> e.CrashMonitor? && FlaggedAhead(w, i)
    ensures Heard(Step(s, w, e))
  {
    hide Step, Inv, Heard, RequeuesTerminal;
    StepIsHeard(s, w, e);
    assert Lost(w, i) || FlaggedAhead(w, i) ==> i < |w.attempts|;
  }

  /** The flag gets ahead of a routing exactly when a sweep resolves an attempt that had published. */
  lemma FlagRunsAheadIff(s: Settings, w: World, e: Event, i: nat)
    requires Inv(s, w) && RequeuesTerminal(w, e) && Heard(w) && !FlaggedAhead(w, i)
    ensures FlaggedAhead(Step(s, w, e), i) <==> ReapsCommitted(s, w, e, i)
  {
    hide Step, Inv, Heard, RequeuesTerminal, ReapsCommitted;
    StepIsHeard(s, w, e);
    assert FlaggedAhead(Step(s, w, e), i) ==> i < |Step(s, w, e).attempts|;
  }

  /** What is lost stays lost: no sweep, result, delivery or requeue ever routes it. */
  lemma LostStaysLost(s: Settings, w: World, e: Event, i: nat)
    requires Inv(s, w) && RequeuesTerminal(w, e) && Heard(w) && Lost(w, i)
    ensures Lost(Step(s, w, e), i)
  {
    hide Step, Inv, Heard, RequeuesTerminal;
    StepIsHeard(s, w, e);
    assert i < |w.attempts|;
  }

  /**
   Over whole runs, from any state that has lost nothing: the routing of attempt i is lost if and only if some
   crash of the monitor met it with its flag already set.
   */
  lemma {:induction false} RoutingIsLostByACrashIff(s: Settings, w: World, run: seq<Event>, i: nat)
    requires Inv(s, w) && TerminalRequeues(s, w, run) && Heard(w) && Recoverable(w)
    ensures Inv(s, Play(s, w, run)) && Heard(Play(s, w, run))
    ensures Lost(Play(s, w, run), i) <==>
            exists k :: 0 <= k < |run| && run[k].CrashMonitor? && FlaggedAhead(Play(s, w, run[..k]), i)
  {
    hide Step, Inv, Heard, Lost, FlaggedAhead;
    RunKeeps(s, w, run);
    if run == [] {
      NothingLostYet(w, i);
    } else {
      var n := |run| - 1;
      var front, last := run[..n], run[n];
      RoutingIsLostByACrashIff(s, w, front, i);
      forall k | 0 <= k < n
        ensures front[..k] == run[..k] && front[k] == run[k]
      {
      }
      var v := Play(s, w, front);
      if Lost(v, i) {
        LostStaysLost(s, v, last, i);
        StepIsHeard(s, v, last);
      } else {
        RoutingIsLostIff(s, v, last, i);
      }
    }
  }

  lemma NothingLostYet(w: World, i: nat)
    requires Recoverable(w)
    ensures !Lost(w, i)
  {
  }

  /** And that flag was set by an earlier sweep over an attempt that had published. */
  lemma {:induction false} FlagWasSetByACommittedReap(s: Settings, w: World, run: seq<Event>, i: nat)
    requires Inv(s, w) && TerminalRequeues(s, w, run) && Heard(w) && Recoverable(w) && !FlaggedAhead(w, i)
    requires FlaggedAhead(Play(s, w, run), i)
    ensures exists k :: 0 <= k < |run| && ReapsCommitted(s, Play(s, w, run[..k]), run[k], i)
  {
    hide Step, Inv, Heard, Lost, FlaggedAhead, ReapsCommitted;
    if run != [] {
      var n := |run| - 1;
      var front, last := run[..n], run[n];
      RoutingIsLostByACrashIff(s, w, front, i);
      if FlaggedAhead(Play(s, w, front), i) {
        FlagWasSetByACommittedReap(s, w, front, i);
        var k :| 0 <= k < n && ReapsCommitted(s, Play(s, w, front[..k]), front[k], i);
        assert front[..k] == run[..k] && front[k] == run[k];
      } else {
        FlagRunsAheadIff(s, Play(s, w, front), last, i);
      }
    }
  }

  /** A new task owes nothing and has lost nothing. */
  lemma NewTasksAreRecoverable(s: Settings, policy: Option<Policy>, notBefore: Time, now: Time)
    ensures Heard(Enqueued(policy, now)) && Recoverable(Enqueued(policy, now))
    ensures Heard(Deferred(policy, notBefore, now)) && Recoverable(Deferred(policy, notBefore, now))
    ensures forall i :: !FlaggedAhead(Enqueued(policy, now), i) && !FlaggedAhead(Deferred(policy, notBefore, now), i)
  {
  }

  /** The losing sequence: a published orphan is reaped, and the monitor dies before it routes it. */
  lemma CommittedReapThenCrashLoses(s: Settings, w: World, i: nat, delay: nat)
    requires Inv(s, w) && Heard(w) && Orphaned(s, w, i) && w.attempts[i].committed
    ensures Lost(Step(s, Step(s, w, ReapOrphan(i, delay)), CrashMonitor), i)
  {
    hide Inv, Heard, Carries, Step;
    assert Inv(s, w);
    var e := ReapOrphan(i, delay);
    assert ReapsCommitted(s, w, e, i);
    StepKeeps(s, w, e);
    StepIsHeard(s, w, e);
    var v := Step(s, w, e);
    CarriesTheFlag(s, w, e, v, i);
    StepIsHeard(s, v, CrashMonitor);
    CarriesTheLoss(s, v, Step(s, v, CrashMonitor), i);
  }

  lemma CarriesTheFlag(s: Settings, w: World, e: Event, v: World, i: nat)
    requires Carries(s, w, e, v) && ReapsCommitted(s, w, e, i)
    ensures Heard(v) && FlaggedAhead(v, i)
  {
  }

  lemma CarriesTheLoss(s: Settings, w: World, v: World, i: nat)
    requires Carries(s, w, CrashMonitor, v) && FlaggedAhead(w, i)
    ensures Lost(v, i)
  {
  }
}
