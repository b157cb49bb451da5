/** The token bucket that callers of one key share, its stamps included. */
module TokenBucket {
  import opened Reals

  datatype Bucket = Bucket(tokens: real, updatedAt: real)

  /** One call: the clock read for the refill, and the later stamp of the saved row. */
  datatype Call = Call(cost: real, readAt: real, savedAt: real)

  function Refill(b: Bucket, rate: real, capacity: real, at: real): real {
    Min(capacity, b.tokens + Times(Max(0.0, at - b.updatedAt), rate))
  }

  predicate Grants(b: Bucket, rate: real, capacity: real, c: Call) {
    Refill(b, rate, capacity, c.readAt) >= c.cost
  }

  function After(b: Bucket, rate: real, capacity: real, c: Call): Bucket {
    var tokens := Refill(b, rate, capacity, c.readAt);
    Bucket(if tokens >= c.cost then tokens - c.cost else tokens, c.savedAt)
  }

  /** The buckets, keyed as callers name them. */
  class RateBuckets {
    var rows: map<string, Bucket>

    /** A new key is seeded full; then refill, and withdraw if there is enough. */
    method Acquire(key: string, rate: real, capacity: real, createdAt: real, c: Call) returns (granted: bool)
      modifies this
      ensures var b := if key in old(rows) then old(rows[key]) else Bucket(capacity, createdAt);
              && rows == old(rows)[key := After(b, rate, capacity, c)]
              && (granted <==> Grants(b, rate, capacity, c))
    {
      if key !in rows {
        rows := rows[key := Bucket(capacity, createdAt)];
      }
      var bucket := rows[key];
      var elapsed := Max(0.0, c.readAt - bucket.updatedAt);
      var tokens := Min(capacity, bucket.tokens + Times(elapsed, rate));
      if tokens >= c.cost {
        tokens := tokens - c.cost;
        rows := rows[key := Bucket(tokens, c.savedAt)];
        return true;
      }
      rows := rows[key := Bucket(tokens, c.savedAt)];
      return false;
    }
  }

  // ---------------------------------------------------------------------------
  // Runs of callers on one key
  // ---------------------------------------------------------------------------

  function Serve(b: Bucket, rate: real, capacity: real, calls: seq<Call>): Bucket {
    if calls == [] then b
    else After(Serve(b, rate, capacity, calls[..|calls| - 1]), rate, capacity, calls[|calls| - 1])
  }

  /** The cost granted to the calls from the i-th on. */
  function GrantedFrom(b: Bucket, rate: real, capacity: real, calls: seq<Call>, i: nat): real
    requires i <= |calls|
    decreases |calls|
  {
    if i == |calls| then 0.0
    else
      var front, last := calls[..|calls| - 1], calls[|calls| - 1];
      GrantedFrom(b, rate, capacity, front, i) +
      if Grants(Serve(b, rate, capacity, front), rate, capacity, last) then last.cost else 0.0
  }

  /** The stamp the next call finds in the row. */
  function LastStamp(b: Bucket, calls: seq<Call>): real {
    if calls == [] then b.updatedAt else calls[|calls| - 1].savedAt
  }

  /** A clock that never runs backwards, under a row lock that serialises the calls. */
  ghost predicate Clocked(b: Bucket, calls: seq<Call>) {
    calls == [] ||
    var front, last := calls[..|calls| - 1], calls[|calls| - 1];
    Clocked(b, front) && LastStamp(b, front) <= last.readAt <= last.savedAt && last.cost >= 0.0
  }

  lemma {:induction false} TokensStayInRange(b: Bucket, rate: real, capacity: real, calls: seq<Call>)
    requires rate >= 0.0 && 0.0 <= b.tokens <= capacity && Clocked(b, calls)
    ensures 0.0 <= Serve(b, rate, capacity, calls).tokens <= capacity
  {
    hide Times;
    if calls != [] {
      var before := Serve(b, rate, capacity, calls[..|calls| - 1]);
      TokensStayInRange(b, rate, capacity, calls[..|calls| - 1]);
      TimesNonNegative(Max(0.0, calls[|calls| - 1].readAt - before.updatedAt), rate);
    }
  }

  /**
   No window is granted more than a full bucket and the refill over its length,
   whichever calls came before it and however its own interleave.
   */
  lemma {:induction false} WindowBound(b: Bucket, rate: real, capacity: real, calls: seq<Call>, i: nat)
    requires rate >= 0.0 && 0.0 <= b.tokens <= capacity && Clocked(b, calls) && i < |calls|
    ensures Serve(b, rate, capacity, calls).tokens + GrantedFrom(b, rate, capacity, calls, i) <=
            capacity + Times(calls[|calls| - 1].readAt - calls[i].readAt, rate)
    ensures GrantedFrom(b, rate, capacity, calls, i) <=
            capacity + Times(calls[|calls| - 1].readAt - calls[i].readAt, rate)
    decreases |calls|
  {
    hide Times;
    var n := |calls|;
    var front, last := calls[..n - 1], calls[n - 1];
    var before := Serve(b, rate, capacity, front);
    TokensStayInRange(b, rate, capacity, calls);
    if i == n - 1 {
      TimesOne(rate);
      TimesZero(rate);
    } else {
      WindowBound(b, rate, capacity, front, i);
      assert before.updatedAt == front[n - 2].savedAt;
      var waited, missed := last.readAt - front[n - 2].savedAt, front[n - 2].savedAt - front[n - 2].readAt;
      TimesNonNegative(missed, rate);
      TimesSum(rate, waited, missed);
      TimesSum(rate, front[n - 2].readAt - calls[i].readAt, waited + missed);
      assert waited + missed == last.readAt - front[n - 2].readAt;
      assert (front[n - 2].readAt - calls[i].readAt) + (waited + missed) == last.readAt - calls[i].readAt;
    }
  }

  /** A clock that steps back refills nothing, and takes nothing either; one that moves on never takes. */
  lemma NoClockTakesTokens(b: Bucket, rate: real, capacity: real, at: real)
    requires rate >= 0.0
    ensures Refill(b, rate, capacity, at) >= Min(capacity, b.tokens)
    ensures at <= b.updatedAt ==> Refill(b, rate, capacity, at) == Min(capacity, b.tokens)
    ensures at > b.updatedAt ==>
              Refill(b, rate, capacity, at) == Min(capacity, b.tokens + Times(at - b.updatedAt, rate))
  {
    hide Times;
    TimesNonNegative(Max(0.0, at - b.updatedAt), rate);
    TimesZero(rate);
  }

  // ---------------------------------------------------------------------------
  // Polling
  // ---------------------------------------------------------------------------

  ghost predicate AllDenied(b: Bucket, rate: real, capacity: real, calls: seq<Call>) {
    calls == [] ||
    var front, last := calls[..|calls| - 1], calls[|calls| - 1];
    AllDenied(b, rate, capacity, front) && !Grants(Serve(b, rate, capacity, front), rate, capacity, last)
  }

  /** The time that refills: from each stamp to the next read, but not from a read to its stamp. */
  function Waited(b: Bucket, calls: seq<Call>): real {
    if calls == [] then 0.0
    else
      var front, last := calls[..|calls| - 1], calls[|calls| - 1];
      Waited(b, front) + (last.readAt - LastStamp(b, front))
  }

  /** The time that does not: between each call's read and the stamp of its save. */
  function Skew(calls: seq<Call>): real {
    if calls == [] then 0.0
    else Skew(calls[..|calls| - 1]) + (calls[|calls| - 1].savedAt - calls[|calls| - 1].readAt)
  }

  /** Together they are all the time there is. */
  lemma {:induction false} TimeIsWaitedOrSkewed(b: Bucket, calls: seq<Call>)
    requires Clocked(b, calls)
    ensures b.updatedAt + Waited(b, calls) + Skew(calls) == LastStamp(b, calls)
    ensures Waited(b, calls) >= 0.0 && Skew(calls) >= 0.0
  {
    if calls != [] {
      TimeIsWaitedOrSkewed(b, calls[..|calls| - 1]);
    }
  }

  lemma TimesZero(x: real)
    ensures Times(0.0, x) == 0.0
  {
  }

  /** Denied polls leave in the bucket what the waited time refilled, whatever the stamps. */
  lemma {:induction false} DeniedPollsRefill(b: Bucket, rate: real, capacity: real, calls: seq<Call>)
    requires rate >= 0.0 && b.tokens <= capacity && Clocked(b, calls) && AllDenied(b, rate, capacity, calls)
    ensures var v := Serve(b, rate, capacity, calls);
            && v.tokens == Min(capacity, b.tokens + Times(Waited(b, calls), rate))
            && v.updatedAt == LastStamp(b, calls)
  {
    hide Times;
    TimesZero(rate);
    if calls != [] {
      var front, last := calls[..|calls| - 1], calls[|calls| - 1];
      DeniedPollsRefill(b, rate, capacity, front);
      var gap := last.readAt - LastStamp(b, front);
      TimesNonNegative(gap, rate);
      TimesSum(rate, Waited(b, front), gap);
    }
  }

  /**
   When a polling caller is served, for every choice of stamps: exactly when its cost fits
   the capacity and the waited time has refilled what the bucket was short of.
   */
  lemma ServedIff(b: Bucket, rate: real, capacity: real, polls: seq<Call>, c: Call)
    requires rate >= 0.0 && b.tokens <= capacity
    requires Clocked(b, polls + [c]) && AllDenied(b, rate, capacity, polls)
    ensures Grants(Serve(b, rate, capacity, polls), rate, capacity, c) <==>
            c.cost <= capacity && c.cost <= b.tokens + Times(Waited(b, polls + [c]), rate)
  {
    hide Times;
    assert (polls + [c])[..|polls|] == polls;
    DeniedPollsRefill(b, rate, capacity, polls);
    var gap := c.readAt - LastStamp(b, polls);
    TimesNonNegative(gap, rate);
    TimesSum(rate, Waited(b, polls), gap);
  }

  /** At the i-th poll the time waited so far has not refilled what the bucket lacks. */
  ghost predicate FallsShort(b: Bucket, rate: real, capacity: real, calls: seq<Call>, i: nat)
    requires i < |calls|
  {
    calls[i].cost > capacity || calls[i].cost > b.tokens + Times(Waited(b, calls[..i + 1]), rate)
  }

  /** A run of polls is denied throughout exactly when each of them falls short. */
  lemma {:induction false} DeniedThroughoutIff(b: Bucket, rate: real, capacity: real, calls: seq<Call>)
    requires rate >= 0.0 && b.tokens <= capacity && Clocked(b, calls)
    ensures AllDenied(b, rate, capacity, calls) <==>
            forall i :: 0 <= i < |calls| ==> FallsShort(b, rate, capacity, calls, i)
  {
    hide Times, Waited, FallsShort, Grants, Serve, Clocked;
    if calls != [] {
      var n := |calls|;
      var front, last := calls[..n - 1], calls[n - 1];
      PollsBefore(b, rate, capacity, calls);
      DeniedThroughoutIff(b, rate, capacity, front);
      if AllDenied(b, rate, capacity, front) {
        LastPollIff(b, rate, capacity, calls);
      }
    }
  }

  lemma PollsBefore(b: Bucket, rate: real, capacity: real, calls: seq<Call>)
    requires calls != [] && Clocked(b, calls)
    ensures var front := calls[..|calls| - 1];
            && Clocked(b, front)
            && forall i :: 0 <= i < |front| ==>
                             (FallsShort(b, rate, capacity, front, i) <==> FallsShort(b, rate, capacity, calls, i))
  {
    hide Times, Waited;
    var front := calls[..|calls| - 1];
    forall i | 0 <= i < |front|
      ensures FallsShort(b, rate, capacity, front, i) <==> FallsShort(b, rate, capacity, calls, i)
    {
      assert front[..i + 1] == calls[..i + 1];
    }
  }

  lemma LastPollIff(b: Bucket, rate: real, capacity: real, calls: seq<Call>)
    requires rate >= 0.0 && b.tokens <= capacity && calls != [] && Clocked(b, calls)
    requires AllDenied(b, rate, capacity, calls[..|calls| - 1])
    ensures !Grants(Serve(b, rate, capacity, calls[..|calls| - 1]), rate, capacity, calls[|calls| - 1]) <==>
            FallsShort(b, rate, capacity, calls, |calls| - 1)
  {
    hide Times, Waited, Grants, Serve, AllDenied, Clocked;
    var front, last := calls[..|calls| - 1], calls[|calls| - 1];
    assert calls == front + [last] && calls[..|calls|] == calls;
    ServedIff(b, rate, capacity, front, last);
  }

  /**
   Many denied polls refill as much as the last of them alone would have, exactly when the
   time before each stamp would have added nothing, or the bucket is full anyway.
   */
  lemma DeniedPollsLoseNothingIff(b: Bucket, rate: real, capacity: real, polls: seq<Call>, c: Call)
    requires rate >= 0.0 && b.tokens <= capacity
    requires Clocked(b, polls + [c]) && AllDenied(b, rate, capacity, polls + [c])
    ensures Serve(b, rate, capacity, polls + [c]).tokens == Refill(b, rate, capacity, c.readAt) <==>
            || Times(Skew(polls), rate) == 0.0
            || capacity <= b.tokens + Times(Waited(b, polls + [c]), rate)
  {
    hide Times;
    var calls := polls + [c];
    assert calls[..|polls|] == polls;
    DeniedPollsRefill(b, rate, capacity, calls);
    TimeIsWaitedOrSkewed(b, polls);
    TimeIsWaitedOrSkewed(b, calls);
    assert Waited(b, calls) + Skew(polls) == c.readAt - b.updatedAt;
    TimesNonNegative(Skew(polls), rate);
    TimesSum(rate, Waited(b, calls), Skew(polls));
  }

  /** The capacity `throttled` uses when none is given. */
  function DefaultCapacity(rate: real, cost: real): real {
    Max(rate, cost)
  }

  /**
   With the default capacity a lone caller is granted exactly when it has waited for what
   the bucket lacks; at the latest cost/rate seconds after it began, plus the time its own
   polls spent between read and stamp.
   */
  lemma LoneCallerIsServed(b: Bucket, rate: real, cost: real, polls: seq<Call>, c: Call)
    requires rate > 0.0 && cost >= 0.0 && c.cost == cost
    requires 0.0 <= b.tokens <= DefaultCapacity(rate, cost)
    requires Clocked(b, polls + [c]) && AllDenied(b, rate, DefaultCapacity(rate, cost), polls)
    ensures Grants(Serve(b, rate, DefaultCapacity(rate, cost), polls), rate, DefaultCapacity(rate, cost), c) <==>
            cost <= b.tokens + Times(Waited(b, polls + [c]), rate)
    ensures c.readAt >= b.updatedAt + cost / rate + Skew(polls) ==>
              Grants(Serve(b, rate, DefaultCapacity(rate, cost), polls), rate, DefaultCapacity(rate, cost), c)
  {
    hide Times;
    ServedIff(b, rate, DefaultCapacity(rate, cost), polls, c);
    assert (polls + [c])[..|polls|] == polls;
    TimeIsWaitedOrSkewed(b, polls);
    var waited := Waited(b, polls + [c]);
    assert waited + Skew(polls) == c.readAt - b.updatedAt;
    if waited >= cost / rate {
      TimesQuotient(cost, rate);
      TimesNonNegative(waited - cost / rate, rate);
      TimesSum(rate, cost / rate, waited - cost / rate);
    }
  }

  lemma TimesQuotient(x: real, y: real)
    requires y > 0.0
    ensures Times(x / y, y) == x
  {
  }

  /** A cost above the capacity is never granted, which is why the default takes the larger. */
  lemma GrantedOnlyWithinCapacity(b: Bucket, rate: real, capacity: real, c: Call)
    ensures Grants(b, rate, capacity, c) ==> c.cost <= capacity
    ensures c.cost <= DefaultCapacity(rate, c.cost)
  {
  }

  /**
   Starvation, however long the calls go on: no poll is ever served while the time they have
   waited in all refills less than the cheapest of them lacks. Callers who read as fast as
   the row is stamped wait not at all.
   */
  lemma {:induction false} SkewedPollsStarve(b: Bucket, rate: real, capacity: real, calls: seq<Call>, short: real)
    requires rate >= 0.0 && b.tokens <= capacity && Clocked(b, calls)
    requires forall i :: 0 <= i < |calls| ==> calls[i].cost >= b.tokens + short
    requires Times(Waited(b, calls), rate) < short
    ensures AllDenied(b, rate, capacity, calls)
  {
    hide Times, Waited;
    forall i | 0 <= i < |calls|
      ensures FallsShort(b, rate, capacity, calls, i)
    {
      WaitingGrows(b, rate, calls, i + 1);
    }
    DeniedThroughoutIff(b, rate, capacity, calls);
  }

  lemma {:induction false} WaitingGrows(b: Bucket, rate: real, calls: seq<Call>, i: nat)
    requires rate >= 0.0 && Clocked(b, calls) && i <= |calls|
    ensures Clocked(b, calls[..i]) && Times(Waited(b, calls[..i]), rate) <= Times(Waited(b, calls), rate)
  {
    hide Times;
    if i == |calls| {
      assert calls[..i] == calls;
    } else {
      var front := calls[..|calls| - 1];
      assert front[..i] == calls[..i];
      WaitingGrows(b, rate, front, i);
      var gap := calls[|calls| - 1].readAt - LastStamp(b, front);
      TimesNonNegative(gap, rate);
      TimesSum(rate, Waited(b, front), gap);
    }
  }
}
