/**
 What a task's attempts end up showing: which result, sweep or retry wrote each outcome,
 what a failure leads to, and, over whole runs, what an outcome proves about the past.
 */
module Outcomes {
  import opened Common
  import opened Backoff
  import opened Attempts
  import opened SingleFlight

  // ---------------------------------------------------------------------------
  // What a failure leads to
  // ---------------------------------------------------------------------------

  /** The attempt a failure schedules: the next number, due after the policy's delay, untouched. */
  predicate FreshRetry(w: World, a: Attempt, number: nat, delay: nat) {
    && a.number == number && a.state == Scheduled && a.notBefore == Some(w.now + delay) && a.created == w.now
    && a.q2.None? && a.claimedAt.None? && a.executions == 0 && !a.started && a.heartbeat.None?
    && !a.returned && !a.committed && a.success.None? && a.exception.None? && !a.routed
  }

  /**
   From `w` to `v` attempt `i` failed with `exception`: a cancelled workflow or a task without
   a policy is FAILED, a policy that allows it retries, and one that does not is EXHAUSTED.
   Only a retry leaves nothing to route.
   */
  ghost predicate FailureTaken(w: World, v: World, i: nat, exception: Option<string>, delay: nat) {
    && i < |w.attempts| && i < |v.attempts|
    && var retries := !w.workflowCancelled && w.policy.Some? && ShouldRetry(w.policy.value, i + 1, exception);
    && (retries ==>
          && v.status == Pending && |v.attempts| == |w.attempts| + 1
          && FreshRetry(w, v.attempts[|w.attempts|], i + 2, delay)
          && v.attempts[i].routed && v.routing == w.routing)
    && (!retries ==>
          && v.status == (if w.workflowCancelled || w.policy.None? then Failed else Exhausted)
          && |v.attempts| == |w.attempts|
          && !v.attempts[i].routed && v.routing == w.routing + {i + 1})
  }

  /** Nothing but the attempts, the status and the routings a process holds has changed. */
  predicate SameElsewhere(w: World, v: World) {
    && v.policy == w.policy && v.workflowCancelled == w.workflowCancelled
    && v.queue == w.queue && v.saved == w.saved && v.nextQ2 == w.nextQ2 && v.now == w.now
    && v.executing == w.executing && v.reporting == w.reporting
    && v.entries == w.entries && v.requeues == w.requeues && v.told == w.told && v.offered == w.offered
  }

  /** The outcome on attempt `i`; its history and the attempts before it are as they were. */
  ghost predicate Records(
    w: World, v: World, i: nat, success: bool, completedAt: Time, exception: Option<string>)
  {
    && i < |w.attempts| && i < |v.attempts|
    && v.attempts[i].success == Some(success)
    && v.attempts[i].completedAt == completedAt
    && v.attempts[i].exception == (if success then None else exception)
    && v.attempts[i] == w.attempts[i].(
       success := v.attempts[i].success, completedAt := v.attempts[i].completedAt,
       exception := v.attempts[i].exception, routed := v.attempts[i].routed)
    && (forall j :: 0 <= j < |w.attempts| && j != i ==> j < |v.attempts| && v.attempts[j] == w.attempts[j])
    && (v.status == Succeeded <==> success)
    && SameElsewhere(w, v)
  }

  /** A success: no attempt follows, and a process is left to route it. */
  ghost predicate Settled(w: World, v: World, i: nat, routed: bool) {
    && |v.attempts| == |w.attempts| && i < |v.attempts|
    && v.attempts[i].routed == routed && v.routing == w.routing + {i + 1}
  }

  lemma OpenRow(s: Settings, w: World, i: nat)
    requires Flight(s, w) && i < |w.attempts| && !Resolved(w.attempts[i])
    ensures i == |w.attempts| - 1 && w.attempts[i].number == i + 1 && !w.attempts[i].routed
    ensures w.status == if w.attempts[i].state == Scheduled then Pending else Running
  {
    assert AttemptSound(s, w, w.attempts[i]);
  }

  /** `x` is `w` with a failure written on its last attempt. */
  ghost predicate FailureWritten(s: Settings, w: World, x: World, i: nat, exception: Option<string>) {
    && AllResolved(s, x) && i == |x.attempts| - 1 && |w.attempts| == |x.attempts|
    && x.attempts == w.attempts[i := x.attempts[i]] && !x.attempts[i].routed
    && x.attempts[i] == w.attempts[i].(
       success := Some(false), completedAt := x.attempts[i].completedAt, exception := exception)
    && x == w.(attempts := x.attempts, status := x.status) && (x.status == Running || x.status == Failed)
  }

  lemma FailurePath(s: Settings, w: World, x: World, i: nat, exception: Option<string>, delay: nat)
    requires FailureWritten(s, w, x, i, exception)
    ensures SettleFailure(x, i, delay).Ok?
    ensures var v := SettleFailure(x, i, delay).value;
            var f := if v.status == Running then v.(status := Failed) else v;
            && (x.status == Failed ==> v.status != Running) && f.nodeOnly == w.nodeOnly
            && Records(w, f, i, false, x.attempts[i].completedAt, exception)
            && FailureTaken(w, f, i, exception, delay)
  {
    hide AttemptSound;
    if Retries(x, i) {
      RetryPath(s, w, x, i, exception, delay);
    }
  }

  lemma RetryPath(s: Settings, w: World, x: World, i: nat, exception: Option<string>, delay: nat)
    requires FailureWritten(s, w, x, i, exception) && Retries(x, i)
    ensures SettleFailure(x, i, delay).Ok?
    ensures var v := SettleFailure(x, i, delay).value;
            && v.status == Pending && v.nodeOnly == w.nodeOnly
            && Records(w, v, i, false, x.attempts[i].completedAt, exception)
            && FailureTaken(w, v, i, exception, delay)
  {
    hide AttemptSound, ShouldRetry;
    assert !NumberTaken(x, i + 2);
  }

  // ---------------------------------------------------------------------------
  // The handler, reconciliation, the reaper
  // ---------------------------------------------------------------------------

  /** The handler records the saved result, whatever it is, and takes a failure's consequence. */
  lemma HandlingRecords(s: Settings, w: World, i: nat, q: Q2Id, exception: Option<string>, delay: nat)
    requires Inv(s, w) && Owns(w, i, q) && q in w.saved && !Resolved(w.attempts[i])
    ensures var v := Step(s, w, HandleResult(i, q, exception, delay));
            && Records(w, v, i, w.saved[q].success, w.saved[q].stopped, exception)
            && v.nodeOnly == w.nodeOnly
            && (w.saved[q].success ==> Settled(w, v, i, false))
            && (!w.saved[q].success ==> FailureTaken(w, v, i, exception, delay))
  {
    hide Flight, Counted, SettleFailure, AllResolved, FailureTaken;
    QueuedWhenOwned(s, w, i, q);
    OpenRow(s, w, i);
    var r := w.saved[q];
    var x := w.(
    attempts := w.attempts[i := w.attempts[i].(
    success := Some(r.success), completedAt := r.stopped, exception := if r.success then None else exception)],
    status := if r.success then Succeeded else Failed);
    ResolvingKeeps(s, w, x, i);
    if !r.success {
      FailurePath(s, w, x, i, exception, delay);
    }
  }

  /** A late result is recorded the same way, and only once the handler's grace has passed. */
  lemma ReconcilingRecords(s: Settings, w: World, i: nat, q: Q2Id, exception: Option<string>, delay: nat)
    requires Inv(s, w) && Owns(w, i, q) && q in w.saved && !Resolved(w.attempts[i])
    ensures var v := Step(s, w, ReconcileResult(i, q, exception, delay));
            && (w.saved[q].stopped + s.grace >= w.now ==> v == w)
            && (w.saved[q].stopped + s.grace < w.now ==>
                  && Records(w, v, i, w.saved[q].success, w.saved[q].stopped, exception)
                  && v.nodeOnly == w.nodeOnly
                  && (w.saved[q].success ==> Settled(w, v, i, false))
                  && (!w.saved[q].success ==> FailureTaken(w, v, i, exception, delay)))
  {
    hide Inv, Records, Settled, FailureTaken, Handle;
    FlightOf(s, w);
    OpenRow(s, w, i);
    QueuedWhenOwned(s, w, i, q);
    HandlingRecords(s, w, i, q, exception, delay);
  }

  /** Neither does anything to an attempt that is not theirs, unsaved, or already resolved. */
  lemma OutcomesAreWrittenOnce(s: Settings, w: World, i: nat, q: Q2Id, exception: Option<string>, delay: nat)
    requires i < |w.attempts| && (Resolved(w.attempts[i]) || q !in w.saved || w.attempts[i].q2 != Some(q))
    ensures Step(s, w, HandleResult(i, q, exception, delay)) == w
    ensures Step(s, w, ReconcileResult(i, q, exception, delay)) == w
    ensures Resolved(w.attempts[i]) ==> Step(s, w, ReapOrphan(i, delay)) == w
  {
  }

  /** Alive as far as the reaper can tell: beating within the grace, or never started and not yet overdue. */
  predicate Alive(s: Settings, w: World, a: Attempt) {
    match a.heartbeat
    case Some(t) => w.now <= t + s.grace
    case None =>
      || (a.q2.Some? && a.q2.value in w.queue)
      || w.now <= (if a.claimedAt.Some? then a.claimedAt.value else a.created) + s.staleAfter
  }

  /**
   The reaper takes an attempt if and only if it was handed to a broker, has no outcome, no
   saved result and no sign of life. What it had committed stands; anything else failed, as
   a lost result if the body had returned and as an orphan if not.
   */
  lemma ReapingDecides(s: Settings, w: World, i: nat, delay: nat)
    requires Inv(s, w) && i < |w.attempts|
    ensures var v, a := Step(s, w, ReapOrphan(i, delay)), w.attempts[i];
            var orphan := a.state == Queued && a.success.None? && (a.q2.Some? ==> a.q2.value !in w.saved) && !Alive(s, w, a);
            && (v != w <==> orphan)
            && (orphan ==> Records(w, v, i, a.committed, w.now, Some(if a.returned then "ResultLost" else "OrphanedTask")))
            && (orphan && a.committed ==> Settled(w, v, i, true) && v.nodeOnly == w.nodeOnly + {i + 1})
            && (orphan && !a.committed ==>
                  && v.nodeOnly == w.nodeOnly
                  && FailureTaken(w, v, i, Some(if a.returned then "ResultLost" else "OrphanedTask"), delay))
  {
    hide Counted, SettleFailure, AllResolved, FailureTaken, AttemptSound;
    var a := w.attempts[i];
    assert AttemptSound(s, w, a);
    QueuedHasAnId(s, w, a);
    if Orphaned(s, w, i) {
      OpenRow(s, w, i);
      if !a.committed {
        var exception := Some(if a.returned then "ResultLost" else "OrphanedTask");
        var x := w.(attempts := w.attempts[i := a.(success := Some(false), completedAt := w.now, exception := exception)]);
        ResolvingKeeps(s, w, x, i);
        FailurePath(s, w, x, i, exception, delay);
      }
    } else if a.success.None? {
      OpenRow(s, w, i);
    }
  }

  lemma QueuedHasAnId(s: Settings, w: World, a: Attempt)
    requires AttemptSound(s, w, a)
    ensures a.state == Queued ==> a.q2.Some?
  {
  }

  // ---------------------------------------------------------------------------
  // Over whole runs: what an outcome proves about the past
  // ---------------------------------------------------------------------------

  /** Event `e` at `w` gave attempt `i` the outcome `b` shows: a saved result, or the reaper's verdict. */
  ghost predicate Caused(s: Settings, w: World, e: Event, i: nat, b: Attempt) {
    && i < |w.attempts| && !Resolved(w.attempts[i])
    && var a := w.attempts[i];
    || (&& (e.HandleResult? || e.ReconcileResult?) && e.index == i
        && a.q2 == Some(e.q) && b.q2 == Some(e.q) && e.q in w.saved
        && b.success == Some(w.saved[e.q].success) && b.completedAt == w.saved[e.q].stopped
        && b.exception == if w.saved[e.q].success then None else e.exception)
    || (&& e.ReapOrphan? && e.index == i && a.state == Queued && !Alive(s, w, a)
        && (a.q2.Some? ==> a.q2.value !in w.saved)
        && b.success == Some(a.committed) && b.completedAt == w.now
        && b.exception == if a.committed then None else Some(if a.returned then "ResultLost" else "OrphanedTask"))
  }

  /** An attempt's number, message and outcome, once they are there. */
  predicate Keeps(a: Attempt, b: Attempt) {
    && b.number == a.number && (a.q2.Some? ==> b.q2 == a.q2)
    && (Resolved(a) ==> b.success == a.success && b.completedAt == a.completedAt && b.exception == a.exception)
  }

  /** What one step does to the outcomes: those written stand, and each new one has its cause. */
  ghost predicate Explains(s: Settings, w: World, e: Event, v: World) {
    && |v.attempts| >= |w.attempts|
    && (forall i :: 0 <= i < |w.attempts| ==> Keeps(w.attempts[i], v.attempts[i]))
    && (forall i :: 0 <= i < |v.attempts| && Resolved(v.attempts[i]) && (i < |w.attempts| ==> !Resolved(w.attempts[i])) ==>
                      Caused(s, w, e, i, v.attempts[i]))
  }

  lemma HandlingExplains(s: Settings, w: World, e: Event)
    requires Inv(s, w) && (e.HandleResult? || e.ReconcileResult?)
    ensures Explains(s, w, e, Step(s, w, e))
  {
    hide Inv, Handle, Reconcile, FailureTaken;
    if Owns(w, e.index, e.q) && e.q in w.saved && !Resolved(w.attempts[e.index]) {
      HandlingRecords(s, w, e.index, e.q, e.exception, e.delay);
      ReconcilingRecords(s, w, e.index, e.q, e.exception, e.delay);
      if !w.saved[e.q].success && Step(s, w, e) != w {
        NoOutcomeFollows(w, Step(s, w, e), e.index, e.exception, e.delay);
      }
    } else {
      NothingHandled(s, w, e);
    }
  }

  lemma NothingHandled(s: Settings, w: World, e: Event)
    requires e.HandleResult? || e.ReconcileResult?
    requires !Owns(w, e.index, e.q) || e.q !in w.saved || Resolved(w.attempts[e.index])
    ensures Step(s, w, e) == w
  {
  }

  lemma NoOutcomeFollows(w: World, v: World, i: nat, exception: Option<string>, delay: nat)
    requires FailureTaken(w, v, i, exception, delay)
    ensures |w.attempts| <= |v.attempts| <= |w.attempts| + 1
    ensures |v.attempts| > |w.attempts| ==> !Resolved(v.attempts[|w.attempts|])
  {
  }

  lemma ReapingExplains(s: Settings, w: World, i: nat, delay: nat)
    requires Inv(s, w)
    ensures Explains(s, w, ReapOrphan(i, delay), Step(s, w, ReapOrphan(i, delay)))
  {
    hide Inv, Reap, FailureTaken, Alive;
    var v := Step(s, w, ReapOrphan(i, delay));
    if i < |w.attempts| {
      ReapingDecides(s, w, i, delay);
      if v != w && !w.attempts[i].committed {
        NoOutcomeFollows(w, v, i, Some(if w.attempts[i].returned then "ResultLost" else "OrphanedTask"), delay);
      }
    } else {
      NothingReaped(s, w, i, delay);
    }
  }

  lemma NothingReaped(s: Settings, w: World, i: nat, delay: nat)
    requires i >= |w.attempts|
    ensures Step(s, w, ReapOrphan(i, delay)) == w
  {
  }

  lemma StepExplains(s: Settings, w: World, e: Event)
    requires Inv(s, w)
    ensures Explains(s, w, e, Step(s, w, e))
  {
    hide Inv, Step, Explains;
    match e
    case HandleResult(_, _, _, _) => HandlingExplains(s, w, e);
    case ReconcileResult(_, _, _, _) => HandlingExplains(s, w, e);
    case ReapOrphan(i, delay) => ReapingExplains(s, w, i, delay);
    case _ => OthersExplain(s, w, e);
  }

  lemma OthersExplain(s: Settings, w: World, e: Event)
    requires Inv(s, w) && !e.HandleResult? && !e.ReconcileResult? && !e.ReapOrphan?
    ensures Explains(s, w, e, Step(s, w, e))
  {
    hide Inv, Handle, Reap, Reconcile, Caused, Explains;
    var v := Step(s, w, e);
    if e.ClaimDue? && Claim(w, e.index, e.cutoff) != w {
      ScheduledHasNoId(s, w, e.index);
      OneRowExplains(s, w, e, v, e.index);
    } else if e.RequeueDead? {
      RequeueExplains(s, w, e);
    } else if v.attempts != w.attempts {
      OneRowExplains(s, w, e, v, e.index);
    } else {
      SameRowsExplain(s, w, e, v);
    }
  }

  lemma OneRowExplains(s: Settings, w: World, e: Event, v: World, i: nat)
    requires |v.attempts| == |w.attempts| && i < |w.attempts| && v.attempts == w.attempts[i := v.attempts[i]]
    requires Keeps(w.attempts[i], v.attempts[i]) && v.attempts[i].success == w.attempts[i].success
    ensures Explains(s, w, e, v)
  {
  }

  lemma SameRowsExplain(s: Settings, w: World, e: Event, v: World)
    requires v.attempts == w.attempts
    ensures Explains(s, w, e, v)
  {
  }

  lemma RequeueExplains(s: Settings, w: World, e: Event)
    requires e.RequeueDead?
    ensures Explains(s, w, e, Step(s, w, e))
  {
    hide Caused;
  }

  lemma ScheduledHasNoId(s: Settings, w: World, i: nat)
    requires Inv(s, w) && i < |w.attempts| && w.attempts[i].state == Scheduled
    ensures w.attempts[i].q2.None?
  {
    assert AttemptSound(s, w, w.attempts[i]);
  }

  /** The step of the run that gave attempt `i` the outcome `b` shows. */
  ghost predicate CausedAt(s: Settings, w: World, run: seq<Event>, k: nat, i: nat, b: Attempt) {
    k < |run| && Caused(s, Play(s, w, run[..k]), run[k], i, b)
  }

  /**
   Over whole runs, every outcome has one cause in the past: the saved result its handler read,
   or the reaper's verdict on an attempt that showed no sign of life.
   */
  lemma {:induction false} OutcomesHaveCauses(s: Settings, w: World, run: seq<Event>, i: nat)
    requires Inv(s, w) && TerminalRequeues(s, w, run) && forall j :: 0 <= j < |w.attempts| ==> !Resolved(w.attempts[j])
    requires i < |Play(s, w, run).attempts| && Resolved(Play(s, w, run).attempts[i])
    ensures exists k :: CausedAt(s, w, run, k, i, Play(s, w, run).attempts[i])
  {
    hide Step, Inv, Caused;
    if run != [] {
      var n := |run| - 1;
      var front, last := run[..n], run[n];
      var u := Play(s, w, front);
      RunKeeps(s, w, front);
      StepExplains(s, u, last);
      if i < |u.attempts| && Resolved(u.attempts[i]) {
        OutcomesHaveCauses(s, w, front, i);
        var k: nat :| CausedAt(s, w, front, k, i, u.attempts[i]);
        assert front[..k] == run[..k] && front[k] == run[k];
        SameOutcomeSameCause(s, Play(s, w, run[..k]), run[k], i, u.attempts[i], Play(s, w, run).attempts[i]);
        assert CausedAt(s, w, run, k, i, Play(s, w, run).attempts[i]);
      } else {
        assert CausedAt(s, w, run, n, i, Play(s, w, run).attempts[i]);
      }
    }
  }

  lemma SameOutcomeSameCause(s: Settings, w: World, e: Event, i: nat, a: Attempt, b: Attempt)
    requires Caused(s, w, e, i, a) && Resolved(a) && Keeps(a, b)
    ensures Caused(s, w, e, i, b)
  {
  }

  /** The wait of the attempt a step adds: the policy's delay for a retry, none for a requeue. */
  function AddedDelay(e: Event): nat {
    match e
    case HandleResult(_, _, _, delay) => delay
    case ReconcileResult(_, _, _, delay) => delay
    case ReapOrphan(_, delay) => delay
    case _ => 0
  }

  /** An attempt is added by a retry or a requeue alone, one at a time, with the next number and its wait. */
  lemma AttemptsAreAddedBy(s: Settings, w: World, e: Event)
    requires Inv(s, w) && RequeuesTerminal(w, e)
    ensures var v := Step(s, w, e);
            && |w.attempts| <= |v.attempts| <= |w.attempts| + 1
            && (|v.attempts| == |w.attempts| + 1 ==>
                  && FreshRetry(w, v.attempts[|w.attempts|], |w.attempts| + 1, AddedDelay(e)) && v.status == Pending
                  && (e.HandleResult? || e.ReconcileResult? || e.ReapOrphan? || (e.RequeueDead? && Dead(e.seenStatus))))
  {
    hide Inv, Step;
    match e
    case HandleResult(_, _, _, _) => HandlingAdds(s, w, e);
    case ReconcileResult(_, _, _, _) => HandlingAdds(s, w, e);
    case ReapOrphan(i, delay) => ReapingAdds(s, w, i, delay);
    case _ => OthersAdd(s, w, e);
  }

  lemma HandlingAdds(s: Settings, w: World, e: Event)
    requires Inv(s, w) && (e.HandleResult? || e.ReconcileResult?)
    ensures var v := Step(s, w, e);
            && |w.attempts| <= |v.attempts| <= |w.attempts| + 1
            && (|v.attempts| == |w.attempts| + 1 ==>
                  FreshRetry(w, v.attempts[|w.attempts|], |w.attempts| + 1, AddedDelay(e)) && v.status == Pending)
  {
    hide Inv, Step;
    if Owns(w, e.index, e.q) && e.q in w.saved && !Resolved(w.attempts[e.index]) {
      IndexIsLast(s, w, e.index);
      HandlingRecords(s, w, e.index, e.q, e.exception, e.delay);
      ReconcilingRecords(s, w, e.index, e.q, e.exception, e.delay);
    } else {
      NothingHandled(s, w, e);
    }
  }

  lemma ReapingAdds(s: Settings, w: World, i: nat, delay: nat)
    requires Inv(s, w)
    ensures var v := Step(s, w, ReapOrphan(i, delay));
            && |w.attempts| <= |v.attempts| <= |w.attempts| + 1
            && (|v.attempts| == |w.attempts| + 1 ==>
                  FreshRetry(w, v.attempts[|w.attempts|], |w.attempts| + 1, delay) && v.status == Pending)
  {
    hide Inv, Step, Alive;
    if i < |w.attempts| {
      ReapingDecides(s, w, i, delay);
      if Step(s, w, ReapOrphan(i, delay)) != w {
        IndexIsLast(s, w, i);
      }
    } else {
      NothingReaped(s, w, i, delay);
    }
  }

  lemma IndexIsLast(s: Settings, w: World, i: nat)
    requires Inv(s, w) && i < |w.attempts| && !Resolved(w.attempts[i])
    ensures i == |w.attempts| - 1
  {
  }

  lemma NumbersRequeued(s: Settings, w: World, seenLatest: nat)
    requires Inv(s, w)
    ensures NumberTaken(w, seenLatest + 1) <==> seenLatest + 1 <= |w.attempts|
  {
    NumbersAreTaken(s, w, seenLatest + 1);
  }

  lemma OthersAdd(s: Settings, w: World, e: Event)
    requires Inv(s, w) && RequeuesTerminal(w, e) && !e.HandleResult? && !e.ReconcileResult? && !e.ReapOrphan?
    ensures var v := Step(s, w, e);
            && |w.attempts| <= |v.attempts| <= |w.attempts| + 1
            && (|v.attempts| == |w.attempts| + 1 ==>
                  && FreshRetry(w, v.attempts[|w.attempts|], |w.attempts| + 1, 0) && v.status == Pending
                  && e.RequeueDead? && Dead(e.seenStatus))
  {
    hide Inv, Handle, Reap, Reconcile;
    if e.RequeueDead? {
      NumbersRequeued(s, w, e.seenLatest);
    }
  }

  /** The step of the run at which the monitor saved this result for message q. */
  ghost predicate SavedAt(s: Settings, w: World, run: seq<Event>, k: nat, q: Q2Id, r: Saved) {
    k < |run| && run[k] == SaveResult(q, r.success)
    && q in Play(s, w, run[..k]).reporting && r.stopped == Play(s, w, run[..k]).now
  }

  /** The step at which a body running for attempt i committed its output. */
  ghost predicate CommittedAt(s: Settings, w: World, run: seq<Event>, k: nat, i: nat) {
    && k < |run| && run[k].CommitOutput? && run[k].index == i
    && Owns(Play(s, w, run[..k]), i, run[k].q) && run[k].q in Play(s, w, run[..k]).executing
  }

  /** A result is saved by the monitor's report alone, stamped with its time, and a saved success stands. */
  lemma SavedChanges(s: Settings, w: World, e: Event, q: Q2Id)
    ensures var v := Step(s, w, e);
            && (q in w.saved ==> q in v.saved)
            && (q in w.saved && w.saved[q].success ==> v.saved[q] == w.saved[q])
            && (e.SaveResult? && e.q == q && q in w.reporting ==>
                  q in v.saved && (v.saved[q] == Saved(e.success, w.now) || (q in w.saved && w.saved[q].success)))
            && (q in v.saved && (q in w.saved ==> v.saved[q] != w.saved[q]) ==>
                  e == SaveResult(q, v.saved[q].success) && q in w.reporting && v.saved[q].stopped == w.now)
  {
    hide SettleFailure, Reconcilable, Orphaned, Claim, Deliver, Route, Requeue;
    SavedStays(s, w, e);
  }

  lemma SavedStays(s: Settings, w: World, e: Event)
    ensures !e.SaveResult? ==> Step(s, w, e).saved == w.saved
  {
    hide Orphaned, VerdictOf, ClaimRow, Requeue, Route, Claim, Handle, Reap;
    match e
    case HandleResult(j, q, exception, delay) => HandleKeepsProcesses(w, j, q, exception, delay);
    case ReconcileResult(j, q, exception, delay) => HandleKeepsProcesses(w, j, q, exception, delay);
    case ReapOrphan(j, delay) => ReapKeepsProcesses(s, w, j, delay);
    case _ => if !e.SaveResult? { OthersKeepSaved(s, w, e); }
  }

  lemma OthersKeepSaved(s: Settings, w: World, e: Event)
    requires !e.HandleResult? && !e.ReconcileResult? && !e.ReapOrphan? && !e.SaveResult?
    ensures Step(s, w, e).saved == w.saved
  {
  }

  /** A commit stamp is set by a body of that attempt that is running, and is never taken away. */
  lemma CommitChanges(s: Settings, w: World, e: Event, i: nat)
    requires i < |w.attempts|
    ensures var v := Step(s, w, e);
            && i < |v.attempts|
            && (v.attempts[i].committed <==>
                  w.attempts[i].committed || (e.CommitOutput? && e.index == i && Owns(w, i, e.q) && e.q in w.executing))
  {
    hide SettleFailure, Reconcilable, Orphaned, Handle, Reap, Claim, Requeue, Route, MarkRouted;
    match e
    case HandleResult(j, q, exception, delay) => HandleKeepsStamps(w, j, q, exception, delay, i);
    case ReconcileResult(j, q, exception, delay) => HandleKeepsStamps(w, j, q, exception, delay, i);
    case ReapOrphan(j, delay) => ReapKeepsStamps(s, w, j, delay, i);
    case ClaimDue(j, cutoff) => ClaimKeepsStamps(w, j, cutoff, i);
    case RequeueDead(status, latest) => if Requeue(w, status, latest).Ok? { RequeueKeepsRows(w, status, latest, i); }
    case RouteAttempt(j, reach) => RouteKeepsStamps(s, w, j, reach, i);
    case _ =>
  }

  /** A claim hands a scheduled attempt over, and touches nothing else. */
  lemma ClaimKeepsStamps(w: World, j: nat, cutoff: Time, i: nat)
    requires i < |w.attempts|
    ensures i < |Claim(w, j, cutoff).attempts|
    ensures var a, b := w.attempts[i], Claim(w, j, cutoff).attempts[i];
            && b == a.(state := b.state, q2 := b.q2, claimedAt := b.claimedAt)
            && (b != a ==> j == i && a.state == Scheduled)
  {
  }

  lemma RouteKeepsStamps(s: Settings, w: World, j: nat, reach: Reach, i: nat)
    requires i < |w.attempts|
    ensures i < |Route(s, w, j, reach).attempts|
    ensures var a, b := w.attempts[i], Route(s, w, j, reach).attempts[i]; b == a.(routed := b.routed)
  {
  }

  lemma RequeueKeepsRows(w: World, status: TaskStatus, latest: nat, i: nat)
    requires i < |w.attempts| && Requeue(w, status, latest).Ok?
    ensures var v := Requeue(w, status, latest).value; i < |v.attempts| && v.attempts[i] == w.attempts[i]
  {
  }

  /** The handler writes the outcome and nothing of the attempt's history. */
  lemma HandleKeepsStamps(w: World, j: nat, q: Q2Id, exception: Option<string>, delay: nat, i: nat)
    requires i < |w.attempts|
    ensures var v := Handle(w, j, q, exception, delay);
            i < |v.attempts| && SameStamps(w.attempts[i], v.attempts[i])
  {
    hide SettleFailure;
    if Owns(w, j, q) && q in w.saved && !Resolved(w.attempts[j]) && !w.saved[q].success {
      var v := w.(
      attempts := w.attempts[j := w.attempts[j].(
      success := Some(false), completedAt := w.saved[q].stopped, exception := exception)],
      status := Failed);
      if SettleFailure(v, j, delay).Ok? {
        FailureOnlyRoutes(v, j, delay, i);
      }
    }
  }

  lemma ReapKeepsStamps(s: Settings, w: World, j: nat, delay: nat, i: nat)
    requires i < |w.attempts|
    ensures var v := Reap(s, w, j, delay);
            i < |v.attempts| && SameStamps(w.attempts[i], v.attempts[i])
  {
    hide SettleFailure;
    if Orphaned(s, w, j) && !w.attempts[j].committed {
      var a := w.attempts[j];
      var v := w.(attempts := w.attempts[j := a.(
      success := Some(false), completedAt := w.now,
      exception := Some(if a.returned then "ResultLost" else "OrphanedTask"))]);
      if SettleFailure(v, j, delay).Ok? {
        FailureOnlyRoutes(v, j, delay, i);
      }
    }
  }

  predicate SameStamps(a: Attempt, b: Attempt) {
    b == a.(success := b.success, completedAt := b.completedAt, exception := b.exception, routed := b.routed)
  }

  lemma {:induction false} SavedHasAReport(s: Settings, w: World, run: seq<Event>, q: Q2Id)
    requires w.saved == map[] && q in Play(s, w, run).saved
    ensures exists k :: SavedAt(s, w, run, k, q, Play(s, w, run).saved[q])
  {
    hide Step;
    if run != [] {
      var n := |run| - 1;
      var front, last := run[..n], run[n];
      var u, r := Play(s, w, front), Play(s, w, run).saved[q];
      SavedChanges(s, u, last, q);
      if q in u.saved && u.saved[q] == r {
        SavedHasAReport(s, w, front, q);
        var k: nat :| SavedAt(s, w, front, k, q, r);
        assert front[..k] == run[..k] && front[k] == run[k];
        assert SavedAt(s, w, run, k, q, r);
      } else {
        assert SavedAt(s, w, run, n, q, r);
      }
    }
  }

  lemma {:induction false} CommittedHasACommit(s: Settings, w: World, run: seq<Event>, i: nat)
    requires Inv(s, w) && TerminalRequeues(s, w, run) && forall j :: 0 <= j < |w.attempts| ==> !w.attempts[j].committed
    requires i < |Play(s, w, run).attempts| && Play(s, w, run).attempts[i].committed
    ensures exists k :: CommittedAt(s, w, run, k, i)
  {
    hide Step, Inv;
    if run != [] {
      var n := |run| - 1;
      var front, last := run[..n], run[n];
      var u := Play(s, w, front);
      RunKeeps(s, w, front);
      if i < |u.attempts| && u.attempts[i].committed {
        CommittedHasACommit(s, w, front, i);
        var k: nat :| CommittedAt(s, w, front, k, i);
        assert front[..k] == run[..k] && front[k] == run[k];
        assert CommittedAt(s, w, run, k, i);
      } else {
        if i < |u.attempts| { CommitChanges(s, u, last, i); } else { AttemptsAreAddedBy(s, u, last); }
        assert CommittedAt(s, w, run, n, i);
      }
    }
  }

  /** The step at which the reaper found attempt i without a sign of life and without a commit. */
  ghost predicate GivenUpAt(s: Settings, w: World, run: seq<Event>, k: nat, i: nat) {
    && k < |run| && run[k].ReapOrphan? && run[k].index == i
    && var u := Play(s, w, run[..k]);
    i < |u.attempts| && u.attempts[i].state == Queued && !u.attempts[i].committed && !Alive(s, u, u.attempts[i])
  }

  /**
   What an outcome means, over every run of a new task: an attempt shows a success only if the
   monitor saved one for its own message at the time it shows, or its body committed its output;
   a failure only if a failure was saved for it, or it had gone silent with nothing committed.
   */
  lemma OutcomesAreEarned(
    s: Settings, policy: Option<Policy>, deferred: bool, notBefore: Time, start: Time, run: seq<Event>, i: nat)
    requires s.limit >= 1 && (policy.Some? ==> ValidPolicy(policy.value))
    requires TerminalRequeues(s, NewTask(policy, deferred, notBefore, start), run)
    requires i < |Play(s, NewTask(policy, deferred, notBefore, start), run).attempts|
    ensures var w0 := NewTask(policy, deferred, notBefore, start);
            var a := Play(s, w0, run).attempts[i];
            && (a.success == Some(true) ==>
                  || (a.q2.Some? && exists k :: SavedAt(s, w0, run, k, a.q2.value, Saved(true, a.completedAt)))
                  || exists k :: CommittedAt(s, w0, run, k, i))
            && (a.success == Some(false) ==>
                  || (a.q2.Some? && exists k :: SavedAt(s, w0, run, k, a.q2.value, Saved(false, a.completedAt)))
                  || exists k :: GivenUpAt(s, w0, run, k, i))
  {
    hide Play, TerminalRequeues, Caused;
    var w0 := NewTask(policy, deferred, notBefore, start);
    NewTasksAreSound(s, policy, notBefore, start);
    var a := Play(s, w0, run).attempts[i];
    if Resolved(a) {
      OutcomesHaveCauses(s, w0, run, i);
      var k: nat :| CausedAt(s, w0, run, k, i, a);
      PrefixIsTerminal(s, w0, run, k);
      CauseIsEarned(s, w0, run, k, i, a);
    }
  }

  lemma {:induction false} PrefixIsTerminal(s: Settings, w: World, run: seq<Event>, k: nat)
    requires TerminalRequeues(s, w, run) && k <= |run|
    ensures TerminalRequeues(s, w, run[..k])
  {
    if k < |run| {
      PrefixIsTerminal(s, w, run[..|run| - 1], k);
      assert run[..|run| - 1][..k] == run[..k];
    } else {
      assert run[..k] == run;
    }
  }

  lemma CauseIsEarned(s: Settings, w: World, run: seq<Event>, k: nat, i: nat, a: Attempt)
    requires Inv(s, w) && w.saved == map[] && forall j :: 0 <= j < |w.attempts| ==> !w.attempts[j].committed
    requires CausedAt(s, w, run, k, i, a) && TerminalRequeues(s, w, run[..k]) && Resolved(a)
    ensures || (a.q2.Some? && exists m :: SavedAt(s, w, run, m, a.q2.value, Saved(a.success.value, a.completedAt)))
            || (a.success == Some(true) && exists m :: CommittedAt(s, w, run, m, i))
            || (a.success == Some(false) && exists m :: GivenUpAt(s, w, run, m, i))
  {
    hide Inv, Alive, TerminalRequeues, Play;
    var front := run[..k];
    var u := Play(s, w, front);
    if run[k].ReapOrphan? {
      if a.success == Some(true) {
        CommittedHasACommit(s, w, front, i);
        var m: nat :| CommittedAt(s, w, front, m, i);
        assert front[..m] == run[..m] && front[m] == run[m];
        assert CommittedAt(s, w, run, m, i);
      } else {
        assert GivenUpAt(s, w, run, k, i);
      }
    } else {
      var q := run[k].q;
      SavedHasAReport(s, w, front, q);
      var m: nat :| SavedAt(s, w, front, m, q, u.saved[q]);
      assert front[..m] == run[..m] && front[m] == run[m];
      assert SavedAt(s, w, run, m, q, Saved(a.success.value, a.completedAt));
    }
  }

  // ---------------------------------------------------------------------------
  // Which step writes which column
  // ---------------------------------------------------------------------------

  /** The delivery is of this attempt's message, and it is open with executions left. */
  predicate Admits(s: Settings, w: World, e: Event, i: nat) {
    && e.DeliverMessage? && e.index == i && Owns(w, i, e.q) && e.q in w.queue
    && w.attempts[i].success.None? && w.attempts[i].executions < s.limit
  }

  /** The step belongs to a body of this attempt that is running. */
  predicate FromBody(w: World, e: Event, i: nat) {
    (e.Beat? || e.ReturnFromBody? || e.CommitOutput?) && e.index == i && Owns(w, i, e.q) && e.q in w.executing
  }

  /** One attempt's row over one step: each column has the event that writes it, with what it writes. */
  ghost predicate Columns(s: Settings, w: World, e: Event, v: World, i: nat) {
    && i < |w.attempts| && i < |v.attempts|
    && var a, b := w.attempts[i], v.attempts[i];
    && b.number == a.number && b.notBefore == a.notBefore && b.created == a.created
    && b.executions == a.executions + (if Admits(s, w, e, i) then 1 else 0)
    && (b.started <==> a.started || Admits(s, w, e, i))
    && b.heartbeat == (if Admits(s, w, e, i) || (FromBody(w, e, i) && e.Beat? && !Resolved(a)) then Some(w.now) else a.heartbeat)
    && (b.returned <==> a.returned || (FromBody(w, e, i) && e.ReturnFromBody? && !Resolved(a)))
    && (b.state != a.state || b.q2 != a.q2 || b.claimedAt != a.claimedAt ==>
          e.ClaimDue? && e.index == i && a.state == Scheduled)
  }

  lemma ColumnsHaveTheirEvents(s: Settings, w: World, e: Event, i: nat)
    requires i < |w.attempts|
    ensures Columns(s, w, e, Step(s, w, e), i)
  {
    hide Columns, Step;
    match e
    case HandleResult(_, _, _, _) => ResolverColumns(s, w, e, i);
    case ReconcileResult(_, _, _, _) => ResolverColumns(s, w, e, i);
    case ReapOrphan(_, _) => ResolverColumns(s, w, e, i);
    case RouteAttempt(_, _) => ResolverColumns(s, w, e, i);
    case ClaimDue(_, _) => ScheduleColumns(s, w, e, i);
    case RequeueDead(_, _) => ScheduleColumns(s, w, e, i);
    case DeliverMessage(_, _) => DeliverColumns(s, w, e, i);
    case Beat(_, _) => BodyColumns(s, w, e, i);
    case CommitOutput(_, _) => BodyColumns(s, w, e, i);
    case ReturnFromBody(_, _) => BodyColumns(s, w, e, i);
    case _ => OtherColumns(s, w, e, i);
  }

  lemma ResolverColumns(s: Settings, w: World, e: Event, i: nat)
    requires i < |w.attempts| && (e.HandleResult? || e.ReconcileResult? || e.ReapOrphan? || e.RouteAttempt?)
    ensures Columns(s, w, e, Step(s, w, e), i)
  {
    hide Columns, Reconcilable, Orphaned, Handle, Reap, Route;
    OutcomeColumns(s, w, e, w, i);
    match e
    case HandleResult(j, q, exception, delay) =>
      HandleKeepsStamps(w, j, q, exception, delay, i);
      OutcomeColumns(s, w, e, Handle(w, j, q, exception, delay), i);
    case ReconcileResult(j, q, exception, delay) =>
      HandleKeepsStamps(w, j, q, exception, delay, i);
      OutcomeColumns(s, w, e, Handle(w, j, q, exception, delay), i);
    case ReapOrphan(j, delay) =>
      ReapKeepsStamps(s, w, j, delay, i);
      OutcomeColumns(s, w, e, Reap(s, w, j, delay), i);
    case RouteAttempt(j, reach) =>
      RouteKeepsStamps(s, w, j, reach, i);
      OutcomeColumns(s, w, e, Route(s, w, j, reach), i);
  }

  /** Resolving and routing write none of them. */
  lemma OutcomeColumns(s: Settings, w: World, e: Event, v: World, i: nat)
    requires i < |w.attempts| && i < |v.attempts| && SameStamps(w.attempts[i], v.attempts[i])
    requires !e.DeliverMessage? && !e.Beat? && !e.ReturnFromBody?
    ensures Columns(s, w, e, v, i)
  {
  }

  lemma ScheduleColumns(s: Settings, w: World, e: Event, i: nat)
    requires i < |w.attempts| && (e.ClaimDue? || e.RequeueDead?)
    ensures Columns(s, w, e, Step(s, w, e), i)
  {
    hide Claim, Requeue;
    match e
    case ClaimDue(j, cutoff) => ClaimKeepsStamps(w, j, cutoff, i);
    case RequeueDead(status, latest) =>
      if Requeue(w, status, latest).Ok? {
        RequeueKeepsRows(w, status, latest, i);
      }
  }

  lemma DeliverColumns(s: Settings, w: World, e: Event, i: nat)
    requires i < |w.attempts| && e.DeliverMessage?
    ensures Columns(s, w, e, Step(s, w, e), i)
  {
  }

  lemma OtherColumns(s: Settings, w: World, e: Event, i: nat)
    requires i < |w.attempts|
    requires e.SaveResult? || e.LoseMessage? || e.CancelWorkflow? || e.CrashWorker? || e.CrashMonitor? || e.Tick?
    ensures Columns(s, w, e, Step(s, w, e), i)
  {
  }

  lemma BodyColumns(s: Settings, w: World, e: Event, i: nat)
    requires i < |w.attempts| && (e.Beat? || e.CommitOutput? || e.ReturnFromBody?)
    ensures Columns(s, w, e, Step(s, w, e), i)
  {
  }

  /**
   A claim takes a scheduled attempt exactly when it was due as the pass began, never early,
   and hands it to the broker under an id no other attempt has.
   */
  lemma ClaimsTakeTheDue(s: Settings, w: World, i: nat, cutoff: Time)
    requires Inv(s, w) && i < |w.attempts|
    ensures var v, a := Step(s, w, ClaimDue(i, cutoff)), w.attempts[i];
            && (v != w <==> a.state == Scheduled && cutoff <= w.now && a.notBefore.Some? && a.notBefore.value <= cutoff)
            && (v != w ==>
                  && v.status == Running && |v.attempts| == |w.attempts|
                  && v.attempts[i].state == Queued && v.attempts[i].claimedAt == Some(w.now)
                  && v.attempts[i].q2.Some? && v.queue == w.queue + {v.attempts[i].q2.value}
                  && (forall j :: 0 <= j < |w.attempts| ==> w.attempts[j].q2 != v.attempts[i].q2)
                  && (forall j :: 0 <= j < |w.attempts| && j != i ==> v.attempts[j] == w.attempts[j])
                  && v == w.(attempts := v.attempts, queue := v.queue, nextQ2 := v.nextQ2, status := v.status))
  {
    hide Counted;
    forall j | 0 <= j < |w.attempts|
      ensures w.attempts[j].q2.Some? ==> w.attempts[j].q2.value < w.nextQ2
    {
      assert AttemptSound(s, w, w.attempts[j]);
    }
    if w.attempts[i].state == Scheduled {
      assert AttemptSound(s, w, w.attempts[i]);
      OpenIsLast(s, w, i);
    }
  }

  /** Process memory over one step: who is running, who has something to report, who still routes. */
  lemma ProcessesFollowTheirEvents(s: Settings, w: World, e: Event, q: Q2Id)
    ensures var v := Step(s, w, e);
            && (q in v.executing <==>
                  || (e.DeliverMessage? && e.q == q && Admits(s, w, e, e.index))
                  || (q in w.executing && e != CrashWorker(q)
                      && !(e.ReturnFromBody? && e.q == q && FromBody(w, e, e.index))))
            && (q in v.reporting <==>
                  || (e.ReturnFromBody? && e.q == q && FromBody(w, e, e.index))
                  || (e.DeliverMessage? && e.q == q && Owns(w, e.index, q) && q in w.queue && !Admits(s, w, e, e.index))
                  || (q in w.reporting && e != CrashWorker(q) && !(e.SaveResult? && e.q == q)))
            && (q in v.queue && q !in w.queue ==> e.ClaimDue?) && (q in w.queue ==> (q !in v.queue <==> e == LoseMessage(q)))
            && v.entries == w.entries + (if e.DeliverMessage? && Admits(s, w, e, e.index) then 1 else 0)
  {
    hide SettleFailure;
    match e
    case HandleResult(j, q', exception, delay) => HandleKeepsProcesses(w, j, q', exception, delay);
    case ReconcileResult(j, q', exception, delay) => HandleKeepsProcesses(w, j, q', exception, delay);
    case ReapOrphan(j, delay) => ReapKeepsProcesses(s, w, j, delay);
    case _ =>
  }

  predicate SameProcesses(w: World, v: World) {
    v.executing == w.executing && v.reporting == w.reporting && v.queue == w.queue && v.entries == w.entries
    && v.saved == w.saved
  }

  lemma HandleKeepsProcesses(w: World, j: nat, q: Q2Id, exception: Option<string>, delay: nat)
    ensures SameProcesses(w, Handle(w, j, q, exception, delay))
  {
  }

  lemma ReapKeepsProcesses(s: Settings, w: World, j: nat, delay: nat)
    ensures SameProcesses(w, Reap(s, w, j, delay))
  {
  }

  /** The clock moves with a tick alone, the workflow is cancelled by its cancel alone, the policy never changes. */
  lemma SurroundingsFollowTheirEvents(s: Settings, w: World, e: Event)
    ensures var v := Step(s, w, e);
            && v.policy == w.policy
            && v.now == w.now + (if e.Tick? then e.seconds else 0)
            && (v.workflowCancelled <==> w.workflowCancelled || e.CancelWorkflow?)
  {
    hide SettleFailure, Handle, Reap, Reconcilable;
    match e
    case HandleResult(j, q, exception, delay) => HandleKeepsSurroundings(w, j, q, exception, delay);
    case ReconcileResult(j, q, exception, delay) => HandleKeepsSurroundings(w, j, q, exception, delay);
    case ReapOrphan(j, delay) => ReapKeepsSurroundings(s, w, j, delay);
    case _ =>
  }

  predicate SameSurroundings(w: World, v: World) {
    v.policy == w.policy && v.now == w.now && v.workflowCancelled == w.workflowCancelled
  }

  lemma HandleKeepsSurroundings(w: World, j: nat, q: Q2Id, exception: Option<string>, delay: nat)
    ensures SameSurroundings(w, Handle(w, j, q, exception, delay))
  {
  }

  lemma ReapKeepsSurroundings(s: Settings, w: World, j: nat, delay: nat)
    ensures SameSurroundings(w, Reap(s, w, j, delay))
  {
  }

  /**
   A routing runs exactly for an outcome some process still holds, or that is unflagged past the
   grace. It tells the node or workflow, offers the task's hook unless it is the node's alone or
   the process got no further, and sets the flag if it got to the end.
   */
  lemma RoutingTells(s: Settings, w: World, i: nat, reach: Reach)
    requires Inv(s, w) && i < |w.attempts|
    ensures var v, a := Step(s, w, RouteAttempt(i, reach)), w.attempts[i];
            var runs := Resolved(a) && (i + 1 in w.routing || (!a.routed && a.completedAt + s.grace < w.now));
            && |v.attempts| == |w.attempts| && v.status == w.status
            && (forall j :: 0 <= j < |w.attempts| ==>
                              v.attempts[j] == w.attempts[j].(routed := w.attempts[j].routed || (runs && j == i && reach == Reach.Flagged)))
            && v.told == (if runs then w.told + {i + 1} else w.told)
            && v.routing == (if runs then w.routing - {i + 1} else w.routing)
            && (forall n :: n in v.offered <==> n in w.offered || (runs && n == i + 1 && reach != Told && n !in w.nodeOnly))
  {
    hide Counted, AttemptSound;
  }

  /** A deferred task is claimed from its time on and not before; an enqueued one can be delivered at once. */
  lemma NewTasksStart(s: Settings, policy: Option<Policy>, notBefore: Time, now: Time, wait: nat)
    requires s.limit >= 1 && (policy.Some? ==> ValidPolicy(policy.value))
    ensures var d := Step(s, Deferred(policy, notBefore, now), Tick(wait));
            (Step(s, d, ClaimDue(0, d.now)) != d <==> notBefore <= now + wait)
    ensures var v := Step(s, Enqueued(policy, now), DeliverMessage(0, 0));
            |v.attempts| == 1 && v.attempts[0].started && 0 in v.executing && v.status == Running
  {
    hide Inv, Claim;
    NewTasksAreSound(s, policy, notBefore, now);
    StepKeeps(s, Deferred(policy, notBefore, now), Tick(wait));
    var d := Step(s, Deferred(policy, notBefore, now), Tick(wait));
    ClaimsTakeTheDue(s, d, 0, d.now);
  }
}
