/**
 One task and its attempts: scheduling, claiming, delivery, the result, the sweeps and
 the dead-letter requeue. Each transaction is one step; the broker queue, the saved
 results and what running processes hold in memory are part of the world, so a crash
 is a step like any other.
 */
module Attempts {
  import opened Common
  import opened Backoff

  type Time = int
  type Q2Id = nat

  datatype TaskStatus = Pending | Running | Succeeded | Failed | Exhausted

  datatype AttemptState = Scheduled | Queued

  datatype Attempt = Attempt(
    number: nat,
    state: AttemptState,
    notBefore: Option<Time>,
    created: Time,
    q2: Option<Q2Id>,
    claimedAt: Option<Time>,
    executions: nat,
    started: bool,
    heartbeat: Option<Time>,
    returned: bool,
    committed: bool,
    success: Option<bool>,
    completedAt: Time,
    exception: Option<string>,
    routed: bool)

  datatype Saved = Saved(success: bool, stopped: Time)

  /** The settings the protocol reads: the execution limit, the heartbeat grace, reap_stale_after. */
  datatype Settings = Settings(limit: nat, grace: nat, staleAfter: nat)

  /**
   Rows first, then the broker and Django-Q2, then process memory, then history: attempts
   whose routing ran, those whose routing is the node's alone, and those whose own hook was
   offered to the hook dispatcher.
   */
  datatype World = World(
    status: TaskStatus,
    policy: Option<Policy>,
    attempts: seq<Attempt>,
    workflowCancelled: bool,
    queue: set<Q2Id>,
    saved: map<Q2Id, Saved>,
    nextQ2: Q2Id,
    now: Time,
    executing: set<Q2Id>,
    reporting: set<Q2Id>,
    routing: set<nat>,
    entries: nat,
    requeues: nat,
    told: set<nat>,
    nodeOnly: set<nat>,
    offered: set<nat>)

  predicate Dead(status: TaskStatus) {
    status == Failed || status == Exhausted
  }

  predicate Resolved(a: Attempt) {
    a.success.Some?
  }

  function NewAttempt(number: nat, notBefore: Time, created: Time): Attempt {
    Attempt(number, Scheduled, Some(notBefore), created, None, None,
            0, false, None, false, false, None, created, None, false)
  }

  /** `_create_and_enqueue`: attempt 1 is queued as the row is created. */
  function Enqueued(policy: Option<Policy>, now: Time): World {
    World(Running, policy,
          [NewAttempt(1, now, now).(state := Queued, notBefore := None, q2 := Some(0))],
          false, {0}, map[], 1, now, {}, {}, {}, 0, 0, {}, {}, {})
  }

  /** A task whose first attempt is scheduled instead: a graph node's, or a deferred one. */
  function Deferred(policy: Option<Policy>, notBefore: Time, now: Time): World {
    World(Pending, policy, [NewAttempt(1, notBefore, now)], false, {}, map[], 0, now, {}, {}, {}, 0, 0, {}, {}, {})
  }

  /** A new task's world, whichever way it starts. */
  function NewTask(policy: Option<Policy>, deferred: bool, notBefore: Time, start: Time): World {
    if deferred then Deferred(policy, notBefore, start) else Enqueued(policy, start)
  }

  // ---------------------------------------------------------------------------
  // Scheduling
  // ---------------------------------------------------------------------------

  predicate NumberTaken(w: World, number: nat) {
    exists i :: 0 <= i < |w.attempts| && w.attempts[i].number == number
  }

  /** The unique constraint refuses a second attempt of one number. */
  function ScheduleAttempt(w: World, number: nat, notBefore: Time): Result<World, ()> {
    if NumberTaken(w, number) then Err(())
    else Ok(w.(attempts := w.attempts + [NewAttempt(number, notBefore, w.now)], status := Pending))
  }

  predicate Due(w: World, i: nat, cutoff: Time) {
    && i < |w.attempts|
    && w.attempts[i].state == Scheduled
    && w.attempts[i].notBefore.Some?
    && w.attempts[i].notBefore.value <= cutoff
  }

  /** The claim and the enqueue, one transaction; `cutoff` is when the dispatch pass began. */
  function Claim(w: World, i: nat, cutoff: Time): World {
    if !Due(w, i, cutoff) || cutoff > w.now then w
    else
      w.(attempts := w.attempts[i := w.attempts[i].(state := Queued, claimedAt := Some(w.now), q2 := Some(w.nextQ2))],
      queue := w.queue + {w.nextQ2},
      nextQ2 := w.nextQ2 + 1,
      status := if w.status == Pending then Running else w.status)
  }

  // ---------------------------------------------------------------------------
  // Delivery
  // ---------------------------------------------------------------------------

  datatype Verdict = First | Repeat | Refused

  predicate Owns(w: World, i: nat, q: Q2Id) {
    i < |w.attempts| && w.attempts[i].q2 == Some(q)
  }

  function VerdictOf(s: Settings, a: Attempt): Verdict {
    if !a.started && !Resolved(a) && a.executions < s.limit then First
    else if !Resolved(a) && a.executions < s.limit then Repeat
    else Refused
  }

  function ClaimRow(s: Settings, a: Attempt, now: Time): Attempt {
    if VerdictOf(s, a) == Refused then a
    else a.(started := true, heartbeat := Some(now), executions := a.executions + 1)
  }

  /** A delivery is admitted and the body entered, or refused and its failure reported. */
  function Deliver(s: Settings, w: World, i: nat, q: Q2Id): World {
    if !Owns(w, i, q) || q !in w.queue then w
    else if VerdictOf(s, w.attempts[i]) == Refused then w.(reporting := w.reporting + {q})
    else
      w.(attempts := w.attempts[i := ClaimRow(s, w.attempts[i], w.now)],
      executing := w.executing + {q}, entries := w.entries + 1)
  }

  function Heartbeat(w: World, i: nat, q: Q2Id): World {
    if !Owns(w, i, q) || q !in w.executing || Resolved(w.attempts[i]) then w
    else w.(attempts := w.attempts[i := w.attempts[i].(heartbeat := Some(w.now))])
  }

  /** The application's writes, the receipt and the commit stamp, in one transaction. */
  function Commit(w: World, i: nat, q: Q2Id): World {
    if !Owns(w, i, q) || q !in w.executing then w
    else w.(attempts := w.attempts[i := w.attempts[i].(committed := true)])
  }

  /** `close_lease`: the body returned; its result is still to be reported. */
  function Return(w: World, i: nat, q: Q2Id): World {
    if !Owns(w, i, q) || q !in w.executing then w
    else
      var done := w.(executing := w.executing - {q}, reporting := w.reporting + {q});
      if Resolved(w.attempts[i]) then done
      else done.(attempts := w.attempts[i := w.attempts[i].(returned := true)])
  }

  /** The monitor saves a result; a saved success is never overwritten. */
  function Save(w: World, q: Q2Id, success: bool): World {
    if q !in w.reporting then w
    else
      w.(reporting := w.reporting - {q},
      saved := if q in w.saved && w.saved[q].success then w.saved else w.saved[q := Saved(success, w.now)])
  }

  // ---------------------------------------------------------------------------
  // Resolution
  // ---------------------------------------------------------------------------

  /** `handle_task_retry`: the next attempt, or EXHAUSTED, or nothing without a policy. */
  function HandleRetry(w: World, i: nat, delay: nat): Result<(World, bool), ()>
    requires i < |w.attempts|
  {
    var a := w.attempts[i];
    if w.policy.None? then Ok((w, false))
    else if ShouldRetry(w.policy.value, a.number, a.exception) then
      match ScheduleAttempt(w, a.number + 1, w.now + delay)
      case Ok(x) => Ok((x, true))
      case Err(e) => Err(e)
    else Ok((w.(status := Exhausted), false))
  }

  function MarkRouted(w: World, i: nat): World
    requires i < |w.attempts|
  {
    w.(attempts := w.attempts[i := w.attempts[i].(routed := true)])
  }

  /** The failure path the handler and the reaper share once the attempt row is written. */
  function SettleFailure(w: World, i: nat, delay: nat): Result<World, ()>
    requires i < |w.attempts|
  {
    if w.workflowCancelled then Ok(w.(routing := w.routing + {w.attempts[i].number}))
    else
      match HandleRetry(w, i, delay)
      case Err(e) => Err(e)
      case Ok(pair) =>
        if pair.1 && i < |pair.0.attempts| then Ok(MarkRouted(pair.0, i))
        else Ok(pair.0.(routing := w.routing + {w.attempts[i].number}))
  }

  /** `qraft_hook_handler` on a saved row; an error rolls the transaction back. */
  function Handle(w: World, i: nat, q: Q2Id, exception: Option<string>, delay: nat): World {
    if !Owns(w, i, q) || q !in w.saved || Resolved(w.attempts[i]) then w
    else
      var r := w.saved[q];
      var resolved := w.(
      attempts := w.attempts[i := w.attempts[i].(
      success := Some(r.success), completedAt := r.stopped, exception := if r.success then None else exception)],
      status := if r.success then Succeeded else Failed);
      if r.success then resolved.(routing := w.routing + {w.attempts[i].number})
      else
        match SettleFailure(resolved, i, delay)
        case Ok(x) => x
        case Err(_) => w
  }

  /** A completion whose handler had its chance and did not take it. */
  predicate Reconcilable(s: Settings, w: World, i: nat, q: Q2Id) {
    && Owns(w, i, q) && q in w.saved
    && !Resolved(w.attempts[i]) && w.status == Running && w.attempts[i].state == Queued
    && w.saved[q].stopped < w.now - s.grace
  }

  function Reconcile(s: Settings, w: World, i: nat, q: Q2Id, exception: Option<string>, delay: nat): World {
    if Reconcilable(s, w, i, q) then Handle(w, i, q, exception, delay) else w
  }

  /** Handed to a broker, no result, and either silent or never started and lost. */
  predicate Orphaned(s: Settings, w: World, i: nat) {
    && i < |w.attempts|
    && var a := w.attempts[i];
    && !Resolved(a) && w.status == Running && a.state == Queued && a.q2.Some?
    && a.q2.value !in w.saved
    && if a.heartbeat.Some? then a.heartbeat.value < w.now - s.grace
       else
         && (if a.claimedAt.Some? then a.claimedAt.value else a.created) < w.now - s.staleAfter
         && a.q2.value !in w.queue
  }

  /** `_reap_one`: what was published stands; anything else failed, and may be retried. */
  function Reap(s: Settings, w: World, i: nat, delay: nat): World {
    if !Orphaned(s, w, i) then w
    else
      var a := w.attempts[i];
      if a.committed then
        w.(attempts := w.attempts[i := a.(success := Some(true), completedAt := w.now, exception := None, routed := true)],
        status := Succeeded,
        routing := w.routing + {a.number},
        nodeOnly := w.nodeOnly + {a.number})
      else
        var exception := if a.returned then "ResultLost" else "OrphanedTask";
        var failed := w.(attempts := w.attempts[i := a.(
        success := Some(false), completedAt := w.now, exception := Some(exception))]);
        match SettleFailure(failed, i, delay)
        case Ok(x) => if x.status == Running then x.(status := Failed) else x
        case Err(_) => w
  }

  // ---------------------------------------------------------------------------
  // After resolution
  // ---------------------------------------------------------------------------

  /** The last thing a routing process did. */
  datatype Reach = Told | Offered | Flagged

  predicate Routable(s: Settings, w: World, i: nat) {
    && i < |w.attempts| && Resolved(w.attempts[i])
    && (w.attempts[i].number in w.routing || (!w.attempts[i].routed && w.attempts[i].completedAt < w.now - s.grace))
  }

  /**
   Routing by the live process or by `replay_unrouted`: the node or workflow is told, then the
   task's own hook is offered, except by `_resolve_committed`, then the flag is set. `reach`
   says how far the process gets.
   */
  function Route(s: Settings, w: World, i: nat, reach: Reach): World {
    if !Routable(s, w, i) then w
    else
      var n := w.attempts[i].number;
      var routed := w.(
      told := w.told + {n}, routing := w.routing - {n},
      offered := if n in w.nodeOnly || reach == Told then w.offered else w.offered + {n});
      if reach == Flagged then MarkRouted(routed, i) else routed
  }

  /** `dlq.requeue` on an instance read earlier: its status, and the latest attempt it then looked up. */
  function Requeue(w: World, seenStatus: TaskStatus, seenLatest: nat): Result<World, ()> {
    if !Dead(seenStatus) then Err(())
    else
      match ScheduleAttempt(w, seenLatest + 1, w.now)
      case Ok(x) => Ok(x.(requeues := x.requeues + 1))
      case Err(e) => Err(e)
  }

  // ---------------------------------------------------------------------------
  // Runs
  // ---------------------------------------------------------------------------

  datatype Event =
    | ClaimDue(index: nat, cutoff: Time)
    | DeliverMessage(index: nat, q: Q2Id)
    | Beat(index: nat, q: Q2Id)
    | CommitOutput(index: nat, q: Q2Id)
    | ReturnFromBody(index: nat, q: Q2Id)
    | SaveResult(q: Q2Id, success: bool)
    | LoseMessage(q: Q2Id)
    | HandleResult(index: nat, q: Q2Id, exception: Option<string>, delay: nat)
    | ReconcileResult(index: nat, q: Q2Id, exception: Option<string>, delay: nat)
    | ReapOrphan(index: nat, delay: nat)
    | RouteAttempt(index: nat, reach: Reach)
    | RequeueDead(seenStatus: TaskStatus, seenLatest: nat)
    | CancelWorkflow
    | CrashWorker(q: Q2Id)
    | CrashMonitor
    | Tick(seconds: nat)

  function Step(s: Settings, w: World, e: Event): World {
    match e
    case ClaimDue(i, cutoff) => Claim(w, i, cutoff)
    case DeliverMessage(i, q) => Deliver(s, w, i, q)
    case Beat(i, q) => Heartbeat(w, i, q)
    case CommitOutput(i, q) => Commit(w, i, q)
    case ReturnFromBody(i, q) => Return(w, i, q)
    case SaveResult(q, success) => Save(w, q, success)
    case LoseMessage(q) => w.(queue := w.queue - {q})
    case HandleResult(i, q, exception, delay) => Handle(w, i, q, exception, delay)
    case ReconcileResult(i, q, exception, delay) => Reconcile(s, w, i, q, exception, delay)
    case ReapOrphan(i, delay) => Reap(s, w, i, delay)
    case RouteAttempt(i, reach) => Route(s, w, i, reach)
    case RequeueDead(status, latest) => (match Requeue(w, status, latest) case Ok(x) => x case Err(_) => w)
    case CancelWorkflow => w.(workflowCancelled := true)
    case CrashWorker(q) => w.(executing := w.executing - {q}, reporting := w.reporting - {q})
    case CrashMonitor => w.(routing := {})
    case Tick(seconds) => w.(now := w.now + seconds)
  }

  function Play(s: Settings, w: World, run: seq<Event>): World {
    if run == [] then w else Step(s, Play(s, w, run[..|run| - 1]), run[|run| - 1])
  }
}
