/**
 The task and attempt rows as the source updates them in place: the dispatch pass, the
 two conditional updates of a delivery, the hook handler with its rollback, the reaper
 and the replay sweep. Each is proved to be the step, or the steps, of the model.
 */
module TaskStore {
  import opened Common
  import opened Backoff
  import opened Attempts

  class TaskRow {
    const settings: Settings
    const policy: Option<Policy>
    var status: TaskStatus
    var attempts: seq<Attempt>
    var workflowCancelled: bool
    var queue: set<Q2Id>
    var saved: map<Q2Id, Saved>
    var nextQ2: Q2Id
    var now: Time
    var executing: set<Q2Id>
    var reporting: set<Q2Id>
    var routing: set<nat>
    ghost var entries: nat
    ghost var requeues: nat
    ghost var told: set<nat>
    ghost var nodeOnly: set<nat>
    ghost var offered: set<nat>

    ghost function State(): World
      reads this
    {
      World(status, policy, attempts, workflowCancelled, queue, saved, nextQ2, now,
            executing, reporting, routing, entries, requeues, told, nodeOnly, offered)
    }

    /** The unique constraint on (task, number) refuses; the status follows in the same transaction. */
    method ScheduleAttemptRow(number: nat, notBefore: Time) returns (ok: bool)
      modifies this`attempts, this`status
      ensures ok <==> ScheduleAttempt(old(State()), number, notBefore).Ok?
      ensures State() == if ok then ScheduleAttempt(old(State()), number, notBefore).value else old(State())
    {
      for i := 0 to |attempts|
        invariant forall j :: 0 <= j < i ==> attempts[j].number != number
      {
        if attempts[i].number == number {
          return false;
        }
      }
      attempts := attempts + [NewAttempt(number, notBefore, now)];
      status := Pending;
      return true;
    }

    // -------------------------------------------------------------------------
    // Dispatch
    // -------------------------------------------------------------------------

    /** The due attempt with the earliest not_before, or none. */
    method MostOverdue(cutoff: Time) returns (found: Option<nat>)
      ensures found.None? <==> forall i :: 0 <= i < |attempts| ==> !Due(State(), i, cutoff)
      ensures found.Some? ==>
                && Due(State(), found.value, cutoff)
                && forall i :: 0 <= i < |attempts| && Due(State(), i, cutoff) ==>
                                 attempts[found.value].notBefore.value <= attempts[i].notBefore.value
    {
      found := None;
      for i := 0 to |attempts|
        invariant found.None? <==> forall j :: 0 <= j < i ==> !Due(State(), j, cutoff)
        invariant found.Some? ==>
                    && found.value < i && Due(State(), found.value, cutoff)
                    && forall j :: 0 <= j < i && Due(State(), j, cutoff) ==>
                                     attempts[found.value].notBefore.value <= attempts[j].notBefore.value
      {
        var a := attempts[i];
        if a.state == Scheduled && a.notBefore.Some? && a.notBefore.value <= cutoff {
          assert Due(State(), i, cutoff);
          if found.None? || a.notBefore.value < attempts[found.value].notBefore.value {
            found := Some(i);
          }
        }
      }
    }

    /** Compare-and-swap on the state, enqueue, and stamp the broker's id. */
    method ClaimAndEnqueue(cutoff: Time) returns (claimed: Option<nat>)
      requires cutoff <= now
      modifies this`attempts, this`queue, this`nextQ2, this`status
      ensures claimed.None? <==> forall i :: 0 <= i < old(|attempts|) ==> !Due(old(State()), i, cutoff)
      ensures claimed.None? ==> State() == old(State())
      ensures claimed.Some? ==>
                && Due(old(State()), claimed.value, cutoff)
                && State() == Claim(old(State()), claimed.value, cutoff)
                && forall i :: 0 <= i < old(|attempts|) && Due(old(State()), i, cutoff) ==>
                                 old(attempts[claimed.value].notBefore.value) <= old(attempts[i].notBefore.value)
    {
      claimed := MostOverdue(cutoff);
      assert State() == old(State());
      if claimed.None? {
        return;
      }
      var i := claimed.value;
      var q := nextQ2;
      queue, nextQ2 := queue + {q}, nextQ2 + 1;
      attempts := attempts[i := attempts[i].(state := Queued, claimedAt := Some(now), q2 := Some(q))];
      if status == Pending {
        status := Running;
      }
    }

    /** One pass: at most `limit` attempts, none early, and none left that was due if the limit allowed. */
    method DispatchDue(limit: nat) returns (dispatched: nat)
      modifies this`attempts, this`queue, this`nextQ2, this`status
      ensures dispatched <= limit
      ensures dispatched < limit ==> forall i :: 0 <= i < |attempts| ==> !Due(State(), i, now)
      ensures |attempts| == old(|attempts|)
      ensures forall i :: 0 <= i < |attempts| ==>
                            || attempts[i] == old(attempts[i])
                            || (Due(old(State()), i, now) && attempts[i].state == Queued && attempts[i].claimedAt == Some(now) &&
                                attempts[i].q2.Some? && attempts[i].q2.value in queue)
      ensures nextQ2 == old(nextQ2) + dispatched
    {
      dispatched := 0;
      ghost var start := State();
      for pass := 0 to 2 * limit
        invariant dispatched <= limit && dispatched == pass
        invariant |attempts| == old(|attempts|) && nextQ2 == old(nextQ2) + dispatched
        invariant forall i :: 0 <= i < |attempts| ==>
                                || attempts[i] == start.attempts[i]
                                || (Due(start, i, now) && attempts[i].state == Queued && attempts[i].claimedAt == Some(now) &&
                                    attempts[i].q2.Some? && attempts[i].q2.value in queue)
      {
        if dispatched >= limit {
          return;
        }
        var claimed := ClaimAndEnqueue(now);
        if claimed.None? {
          return;
        }
        dispatched := dispatched + 1;
      }
    }

    // -------------------------------------------------------------------------
    // Delivery
    // -------------------------------------------------------------------------

    /** The two conditional updates, tried in order; neither matching refuses the delivery. */
    method ClaimDelivery(i: nat, q: Q2Id) returns (verdict: Verdict)
      requires Owns(State(), i, q) && q in queue
      modifies this`attempts, this`executing, this`reporting, this`entries
      ensures verdict == VerdictOf(settings, old(attempts[i]))
      ensures State() == Deliver(settings, old(State()), i, q)
    {
      var a := attempts[i];
      if !a.started && a.success.None? && a.executions < settings.limit {
        attempts := attempts[i := a.(started := true, heartbeat := Some(now), executions := a.executions + 1)];
        executing, entries := executing + {q}, entries + 1;
        return First;
      }
      if a.success.None? && a.executions < settings.limit {
        attempts := attempts[i := a.(heartbeat := Some(now), executions := a.executions + 1)];
        executing, entries := executing + {q}, entries + 1;
        return Repeat;
      }
      reporting := reporting + {q};
      return Refused;
    }

    // -------------------------------------------------------------------------
    // Resolution
    // -------------------------------------------------------------------------

    /** Returns whether a retry was scheduled, or None if the unique constraint raised. */
    method HandleTaskRetry(i: nat, delay: nat) returns (scheduled: Option<bool>)
      requires i < |attempts|
      modifies this`attempts, this`status
      ensures scheduled.None? <==> HandleRetry(old(State()), i, delay).Err?
      ensures scheduled.Some? ==> HandleRetry(old(State()), i, delay) == Ok((State(), scheduled.value))
      ensures scheduled.None? ==> State() == old(State())
    {
      if policy.None? {
        return Some(false);
      }
      var a := attempts[i];
      if ShouldRetry(policy.value, a.number, a.exception) {
        var ok := ScheduleAttemptRow(a.number + 1, now + delay);
        return if ok then Some(true) else None;
      }
      status := Exhausted;
      return Some(false);
    }

    /** The failure path of both resolvers: retried and flagged, or left for routing. */
    method SettleFailureRow(i: nat, delay: nat) returns (ok: bool)
      requires i < |attempts|
      modifies this`attempts, this`status, this`routing
      ensures ok <==> SettleFailure(old(State()), i, delay).Ok?
      ensures ok ==> State() == SettleFailure(old(State()), i, delay).value
    {
      var number := attempts[i].number;
      if !workflowCancelled {
        var retried := HandleTaskRetry(i, delay);
        if retried.None? {
          return false;
        }
        if retried.value {
          attempts := attempts[i := attempts[i].(routed := true)];
          return true;
        }
      }
      routing := routing + {number};
      return true;
    }

    /** Resolve by compare-and-set, decide the retry, and roll all of it back if an insert raises. */
    method HookHandler(i: nat, q: Q2Id, exception: Option<string>, delay: nat)
      requires Owns(State(), i, q) && q in saved
      modifies this`attempts, this`status, this`routing
      ensures State() == Handle(old(State()), i, q, exception, delay)
    {
      var rowsBefore, statusBefore := attempts, status;
      var result := saved[q];
      if attempts[i].success.Some? {
        return;
      }
      attempts := attempts[i := attempts[i].(
        success := Some(result.success),
        completedAt := result.stopped,
        exception := if result.success then None else exception)];
      status := if result.success then Succeeded else Failed;
      if result.success {
        routing := routing + {attempts[i].number};
        return;
      }
      var routingBefore := routing;
      var ok := SettleFailureRow(i, delay);
      if !ok {
        attempts, status, routing := rowsBefore, statusBefore, routingBefore;
      }
    }

    /** Re-check under the lock, then resolve as success, as failure with a retry, or as failure. */
    method ReapOne(i: nat, delay: nat) returns (reaped: bool)
      requires i < |attempts|
      modifies this`attempts, this`status, this`routing, this`nodeOnly
      ensures State() == Reap(settings, old(State()), i, delay)
    {
      var a := attempts[i];
      if a.success.Some? || status != Running || a.state != Queued || a.q2.None? {
        return false;
      }
      if a.q2.value in saved {
        return false;
      }
      if a.heartbeat.Some? {
        if a.heartbeat.value >= now - settings.grace {
          return false;
        }
      } else {
        var since := if a.claimedAt.Some? then a.claimedAt.value else a.created;
        if since >= now - settings.staleAfter || a.q2.value in queue {
          return false;
        }
      }
      if a.committed {
        attempts := attempts[i := a.(success := Some(true), completedAt := now, exception := None, routed := true)];
        status, routing := Succeeded, routing + {a.number};
        nodeOnly := nodeOnly + {a.number};
        return true;
      }
      var rowsBefore, statusBefore, routingBefore := attempts, status, routing;
      var exception := if a.returned then "ResultLost" else "OrphanedTask";
      attempts := attempts[i := a.(success := Some(false), completedAt := now, exception := Some(exception))];
      var ok := SettleFailureRow(i, delay);
      if !ok {
        attempts, status, routing := rowsBefore, statusBefore, routingBefore;
        return false;
      }
      if status == Running {
        status := Failed;
      }
      return true;
    }

    // -------------------------------------------------------------------------
    // Replay
    // -------------------------------------------------------------------------

    /** After the sweep no resolution older than the grace is left unrouted. */
    method ReplayUnrouted() returns (replayed: nat)
      modifies this`attempts, this`routing, this`told, this`offered
      ensures |attempts| == old(|attempts|) && status == old(status)
      ensures forall i :: 0 <= i < |attempts| && attempts[i].success.Some? && attempts[i].completedAt < now - settings.grace ==>
                            attempts[i].routed
      ensures forall i :: 0 <= i < |attempts| ==>
                            attempts[i] == old(attempts[i]).(routed := attempts[i].routed)
      ensures forall i :: 0 <= i < |attempts| && attempts[i].routed && !old(attempts[i].routed) ==> attempts[i].number in told
      ensures old(told) <= told
    {
      replayed := 0;
      ghost var rows := attempts;
      for i := 0 to |attempts|
        invariant |attempts| == |rows|
        invariant forall j :: 0 <= j < i && rows[j].success.Some? && rows[j].completedAt < now - settings.grace ==>
                                attempts[j].routed
        invariant forall j :: 0 <= j < |rows| ==> attempts[j] == rows[j].(routed := attempts[j].routed)
        invariant forall j :: i <= j < |rows| ==> attempts[j] == rows[j]
        invariant forall j :: 0 <= j < i && attempts[j].routed && !rows[j].routed ==> rows[j].number in told
        invariant old(told) <= told
      {
        var a := attempts[i];
        if a.success.Some? && !a.routed && a.completedAt < now - settings.grace {
          RouteRow(i, Flagged);
          replayed := replayed + 1;
        }
      }
    }

    method RouteRow(i: nat, reach: Reach)
      requires Routable(settings, State(), i)
      modifies this`attempts, this`routing, this`told, this`offered
      ensures State() == Route(settings, old(State()), i, reach)
    {
      told, routing := told + {attempts[i].number}, routing - {attempts[i].number};
      if reach == Told {
        return;
      }
      offered := if attempts[i].number in nodeOnly then offered else offered + {attempts[i].number};
      if reach == Flagged {
        attempts := attempts[i := attempts[i].(routed := true)];
      }
    }

    /** `dlq.requeue`: the status test is on the caller's instance, not on the row. */
    method RequeueRow(seenStatus: TaskStatus, seenLatest: nat) returns (ok: bool)
      modifies this`attempts, this`status, this`requeues
      ensures ok <==> Requeue(old(State()), seenStatus, seenLatest).Ok?
      ensures State() == if ok then Requeue(old(State()), seenStatus, seenLatest).value else old(State())
    {
      if seenStatus != Failed && seenStatus != Exhausted {
        return false;
      }
      ok := ScheduleAttemptRow(seenLatest + 1, now);
      if ok {
        requeues := requeues + 1;
      }
    }
  }
}
