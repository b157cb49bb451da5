/**
 A task's own success and failure hooks: one dispatch row per task and type, for as long
 as the task lives, whichever attempt, replay or requeue asks for it.
 */
module TaskHooks {
  import opened Common

  datatype Kind = OnSuccess | OnFailure

  /** The hooks configured, their dispatch rows, and what was queued. */
  datatype World = World(configured: set<Kind>, rows: set<Kind>, sent: seq<Kind>)

  /** The hook of one routed attempt offered, and whether the broker takes the message. */
  datatype Offer = Offer(success: bool, enqueued: bool)

  function KindOf(r: Offer): Kind {
    if r.success then OnSuccess else OnFailure
  }

  function Dispatch(w: World, r: Offer): World {
    var kind := KindOf(r);
    if kind !in w.configured || kind in w.rows || !r.enqueued then w
    else w.(rows := w.rows + {kind}, sent := w.sent + [kind])
  }

  function Play(configured: set<Kind>, run: seq<Offer>): World {
    if run == [] then World(configured, {}, [])
    else Dispatch(Play(configured, run[..|run| - 1]), run[|run| - 1])
  }

  /** A success calls for the success hook, a failure for the other. */
  predicate CallsFor(r: Offer, kind: Kind) {
    r.success <==> kind == OnSuccess
  }

  /** The broker took a message of this kind at some routing. */
  ghost predicate Taken(run: seq<Offer>, kind: Kind) {
    exists i :: 0 <= i < |run| && CallsFor(run[i], kind) && run[i].enqueued
  }

  lemma TakenGrows(run: seq<Offer>, kind: Kind)
    requires run != []
    ensures var last := run[|run| - 1];
            Taken(run, kind) <==> Taken(run[..|run| - 1], kind) || (CallsFor(last, kind) && last.enqueued)
  {
    var front, last := run[..|run| - 1], run[|run| - 1];
    assert run == front + [last];
    if Taken(front, kind) {
      var i :| 0 <= i < |front| && CallsFor(front[i], kind) && front[i].enqueued;
      assert run[i] == front[i];
    }
  }

  /**
   Whatever the routings, live, replayed or after a requeue: a hook is queued at most once,
   and exactly when it is configured and some routing found the broker willing. A refused
   hook is lost unless the task finishes that way again, since the attempt is routed anyway.
   */
  lemma {:induction false} QueuedOnceIff(configured: set<Kind>, run: seq<Offer>)
    ensures var w := Play(configured, run);
            && w.configured == configured && Distinct(w.sent) && Elements(w.sent) == w.rows
            && forall kind :: kind in w.sent <==> kind in configured && Taken(run, kind)
  {
    if run != [] {
      var front, last := run[..|run| - 1], run[|run| - 1];
      QueuedOnceIff(configured, front);
      TakenGrows(run, OnSuccess);
      TakenGrows(run, OnFailure);
      ElementsAppend(Play(configured, front).sent, KindOf(last));
      assert forall kind :: kind in Play(configured, front).sent <==> kind in Elements(Play(configured, front).sent);
    }
  }

  /** A second failure, of a task revived by a requeue, is not announced. */
  lemma {:induction false} SecondOutcomeIsSilent(configured: set<Kind>, run: seq<Offer>, r: Offer)
    requires Taken(run, KindOf(r))
    ensures Dispatch(Play(configured, run), r) == Play(configured, run)
  {
    QueuedOnceIff(configured, run);
    var w := Play(configured, run);
    if KindOf(r) in configured {
      assert KindOf(r) in w.sent && KindOf(r) in Elements(w.sent);
    }
  }

  class HookTable {
    var configured: set<Kind>
    var rows: set<Kind>
    var sent: seq<Kind>

    function State(): World
      reads this
    {
      World(configured, rows, sent)
    }

    /** Claim the row, enqueue, and give the row back if the broker refuses. */
    method DispatchHook(r: Offer)
      modifies this`rows, this`sent
      ensures State() == Dispatch(old(State()), r)
    {
      var kind := KindOf(r);
      if kind !in configured {
        return;
      }
      var created := kind !in rows;
      if !created {
        return;
      }
      rows := rows + {kind};
      if r.enqueued {
        sent := sent + [kind];
      } else {
        rows := rows - {kind};
      }
    }
  }
}
