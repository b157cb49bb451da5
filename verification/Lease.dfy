/**
 One delivery of a message: the lease receiver claims it, the runner asks again, and a
 memo on the worker makes the two share one claim. The threaded worker clears the memo
 when a task ends; the standard worker does not.
 */
module Lease {
  import opened Common
  import opened Attempts

  datatype Memo = Memo(q: Q2Id, verdict: Verdict)

  /** One attempt's row, the memo of each worker process, and how often the body was entered. */
  datatype Delivering = Delivering(row: Attempt, memos: map<nat, Memo>, entries: nat)

  datatype Occurrence =
    | DeliverTo(worker: nat, clears: bool)
    | OtherTask(worker: nat, q: Q2Id, verdict: Verdict, clears: bool)
    | Resolution(success: bool)

  /** `claim_delivery`: the memoised verdict, or a claim that is then memoised. */
  function ClaimDelivery(s: Settings, d: Delivering, q: Q2Id, worker: nat, now: Time): (Delivering, Verdict) {
    if worker in d.memos && d.memos[worker].q == q then (d, d.memos[worker].verdict)
    else
      var verdict := VerdictOf(s, d.row);
      (d.(row := ClaimRow(s, d.row, now), memos := d.memos[worker := Memo(q, verdict)]), verdict)
  }

  /** The lease receiver's claim, the runner's, the body unless refused, and the end of the task. */
  function RunDelivery(s: Settings, d: Delivering, q: Q2Id, worker: nat, clears: bool, now: Time): Delivering {
    var leased := ClaimDelivery(s, d, q, worker, now).0;
    var (guarded, verdict) := ClaimDelivery(s, leased, q, worker, now);
    var entered := if verdict == Refused then guarded else guarded.(entries := guarded.entries + 1);
    if clears then entered.(memos := entered.memos - {worker}) else entered
  }

  function Happen(s: Settings, d: Delivering, q: Q2Id, o: Occurrence, now: Time): Delivering {
    match o
    case DeliverTo(worker, clears) => RunDelivery(s, d, q, worker, clears, now)
    case OtherTask(worker, other, verdict, clears) =>
      if other == q then d
      else if clears then d.(memos := d.memos - {worker})
      else d.(memos := d.memos[worker := Memo(other, verdict)])
    case Resolution(success) => if Resolved(d.row) then d else d.(row := d.row.(success := Some(success)))
  }

  function Play(s: Settings, d: Delivering, q: Q2Id, run: seq<Occurrence>, now: Time): Delivering {
    if run == [] then d else Happen(s, Play(s, d, q, run[..|run| - 1], now), q, run[|run| - 1], now)
  }

  /** A memo of an earlier, admitted delivery of this very message is still on the worker. */
  predicate StaleMemo(d: Delivering, q: Q2Id, o: Occurrence) {
    o.DeliverTo? && o.worker in d.memos && d.memos[o.worker].q == q && d.memos[o.worker].verdict != Refused
  }

  /** The attempt row and the memos, as the receiver and the runner update them in place. */
  class DeliveredAttempt {
    const settings: Settings
    const q: Q2Id
    var row: Attempt
    var memos: map<nat, Memo>
    ghost var entries: nat

    ghost function State(): Delivering
      reads this
    {
      Delivering(row, memos, entries)
    }

    method Claim(worker: nat, now: Time) returns (verdict: Verdict)
      modifies this`row, this`memos
      ensures (State(), verdict) == ClaimDelivery(settings, old(State()), q, worker, now)
    {
      if worker in memos && memos[worker].q == q {
        return memos[worker].verdict;
      }
      if !row.started && row.success.None? && row.executions < settings.limit {
        row := row.(started := true, heartbeat := Some(now), executions := row.executions + 1);
        verdict := First;
      } else if row.success.None? && row.executions < settings.limit {
        row := row.(heartbeat := Some(now), executions := row.executions + 1);
        verdict := Repeat;
      } else {
        verdict := Refused;
      }
      memos := memos[worker := Memo(q, verdict)];
    }

    /** The pre_execute receiver, then `run_task`: guard, body, and the end of the delivery. */
    method RunTask(worker: nat, clears: bool, now: Time) returns (entered: bool)
      modifies this
      ensures State() == RunDelivery(settings, old(State()), q, worker, clears, now)
      ensures entered <==> entries == old(entries) + 1
    {
      var _ := Claim(worker, now);
      var verdict := Claim(worker, now);
      entered := verdict != Refused;
      if entered {
        entries := entries + 1;
      }
      if clears {
        memos := memos - {worker};
      }
    }
  }

  /** Both receivers see one claim: the row is charged at most once, and then iff the body runs. */
  lemma OneClaimPerDelivery(s: Settings, d: Delivering, q: Q2Id, worker: nat, clears: bool, now: Time)
    requires !(worker in d.memos && d.memos[worker].q == q)
    ensures var r := RunDelivery(s, d, q, worker, clears, now);
            && (VerdictOf(s, d.row) == Refused ==> r.row == d.row && r.entries == d.entries)
            && (VerdictOf(s, d.row) != Refused ==>
                  r.row.executions == d.row.executions + 1 && r.row.started && r.entries == d.entries + 1)
  {
  }

  /** The exact condition: entries and executions keep pace iff no stale memo answers the delivery. */
  lemma EntriesAreChargedIff(s: Settings, d: Delivering, q: Q2Id, o: Occurrence, now: Time)
    requires d.entries == d.row.executions
    ensures var r := Happen(s, d, q, o, now);
            r.entries == r.row.executions <==> !StaleMemo(d, q, o)
  {
  }

  ghost predicate NoStaleMemo(s: Settings, d: Delivering, q: Q2Id, run: seq<Occurrence>, now: Time) {
    run == [] ||
    var front, last := run[..|run| - 1], run[|run| - 1];
    NoStaleMemo(s, d, q, front, now) && !StaleMemo(Play(s, d, q, front, now), q, last)
  }

  /** Where every worker clears its memo, no memo of this message is ever met again. */
  lemma {:induction false} ClearingWorkersMeetNoMemo(s: Settings, d: Delivering, q: Q2Id, run: seq<Occurrence>, now: Time)
    requires forall w :: w in d.memos ==> d.memos[w].q != q
    requires forall i :: 0 <= i < |run| && run[i].DeliverTo? ==> run[i].clears
    ensures NoStaleMemo(s, d, q, run, now)
    ensures forall w :: w in Play(s, d, q, run, now).memos ==> Play(s, d, q, run, now).memos[w].q != q
  {
    if run != [] {
      ClearingWorkersMeetNoMemo(s, d, q, run[..|run| - 1], now);
      assert run[|run| - 1].DeliverTo? ==> run[|run| - 1].clears;
    }
  }

  /** The budget over whole runs of deliveries, redeliveries and resolutions. */
  lemma {:induction false} BudgetHolds(s: Settings, d: Delivering, q: Q2Id, run: seq<Occurrence>, now: Time)
    requires d.entries == d.row.executions <= s.limit && NoStaleMemo(s, d, q, run, now)
    ensures var r := Play(s, d, q, run, now); r.entries == r.row.executions <= s.limit
  {
    if run != [] {
      BudgetHolds(s, d, q, run[..|run| - 1], now);
      EntriesAreChargedIff(s, Play(s, d, q, run[..|run| - 1], now), q, run[|run| - 1], now);
    }
  }

  /** Redelivered to the same standard worker, a message runs past its limit, resolved or not. */
  lemma StandardWorkerOverruns(s: Settings, d: Delivering, q: Q2Id, worker: nat, now: Time)
    requires s.limit >= 1 && d.entries == d.row.executions == 0 && !d.row.started && !Resolved(d.row)
    requires d.memos == map[]
    ensures var once := RunDelivery(s, d, q, worker, false, now);
            var settled := Happen(s, once, q, Resolution(true), now);
            var twice := RunDelivery(s, settled, q, worker, false, now);
            && once.entries == 1 && once.row.executions == 1
            && Resolved(settled.row) && VerdictOf(s, settled.row) == Refused
            && twice.entries == 2 && twice.row.executions == 1
  {
    var once := RunDelivery(s, d, q, worker, false, now);
    assert once.memos[worker] == Memo(q, First);
  }
}
