/** The fixed-window rate limiter, its occasional sweep, and the rate it really admits. */
module RateLimiter {
  import opened Basics

  const SWEEP_THRESHOLD := 2_000

  datatype Bucket = Bucket(count: nat, resetAt: int)

  datatype Call = Call(now: int, windowMs: nat)

  datatype RateLimitResult = RateLimitResult(allowed: bool, retryAfterSeconds: int)

  function Counted(existing: Option<Bucket>, call: Call): Bucket {
    var bucket := if existing.None? || existing.value.resetAt <= call.now then Bucket(0, call.now + call.windowMs)
                  else existing.value;
    bucket.(count := bucket.count + 1)
  }

  /** The bucket of a limiter that never forgets, after all calls with one key. */
  function BucketAfter(calls: seq<Call>): Option<Bucket> {
    if calls == [] then None else Some(Counted(BucketAfter(calls[..|calls| - 1]), calls[|calls| - 1]))
  }

  /** Math.ceil of a quotient by 1000 */
  function CeilSeconds(ms: int): int {
    -((-ms) / 1000)
  }

  function RetryAfter(bucket: Bucket, now: int): int {
    Max(1, CeilSeconds(bucket.resetAt - now))
  }

  /* ---------------------------- the real rate ---------------------------- */

  /** Call `k` of one key is admitted. */
  predicate Admitted(calls: seq<Call>, limit: nat, k: nat)
    requires k < |calls|
  {
    BucketAfter(calls[..k + 1]).value.count <= limit
  }

  function AdmittedBetween(calls: seq<Call>, limit: nat, i: nat, j: nat): nat
    requires i <= j <= |calls|
    decreases j - i
  {
    if i == j then 0 else AdmittedBetween(calls, limit, i, j - 1) + (if Admitted(calls, limit, j - 1) then 1 else 0)
  }

  /** Call `k` opens a new window. */
  predicate Opens(calls: seq<Call>, k: nat)
    requires k < |calls|
  {
    var before := BucketAfter(calls[..k]);
    before.None? || before.value.resetAt <= calls[k].now
  }

  predicate Chronological(calls: seq<Call>, windowMs: nat) {
    && (forall k | 0 <= k < |calls| :: calls[k].windowMs == windowMs)
    && (forall j, k | 0 <= j < k < |calls| :: calls[j].now <= calls[k].now)
  }

  lemma NextBucket(calls: seq<Call>, k: nat)
    requires k < |calls|
    ensures BucketAfter(calls[..k + 1]) == Some(Counted(BucketAfter(calls[..k]), calls[k]))
  {
    assert calls[..k + 1][..k] == calls[..k];
  }

  function CountAt(calls: seq<Call>, k: nat): nat
    requires k < |calls|
  {
    BucketAfter(calls[..k + 1]).value.count
  }

  /** While no window opens, the count grows by one per call and only what is left of the
      limit is admitted. */
  lemma {:induction false} OneWindow(calls: seq<Call>, limit: nat, i: nat, j: nat)
    requires i < j <= |calls| && forall k | i < k < j :: !Opens(calls, k)
    ensures CountAt(calls, j - 1) == CountAt(calls, i) + (j - 1 - i)
    ensures AdmittedBetween(calls, limit, i, j) == Min(j - i, Max(0, limit + 1 - CountAt(calls, i)))
    decreases j
  {
    NextBucket(calls, j - 1);
    if i + 1 < j {
      OneWindow(calls, limit, i, j - 1);
      assert !Opens(calls, j - 1);
      assert calls[..j - 1] == calls[..j - 2 + 1];
    } else {
      assert AdmittedBetween(calls, limit, i, i) == 0;
    }
  }

  lemma CountOfFirst(calls: seq<Call>, k: nat)
    requires k < |calls|
    ensures Opens(calls, k) ==> CountAt(calls, k) == 1
    ensures !Opens(calls, k) ==> CountAt(calls, k) >= 2
  {
    NextBucket(calls, k);
    if k > 0 {
      NextBucket(calls, k - 1);
    }
  }

  lemma {:induction false} SplitCount(calls: seq<Call>, limit: nat, i: nat, m: nat, j: nat)
    requires i <= m <= j <= |calls|
    ensures AdmittedBetween(calls, limit, i, j)
      == AdmittedBetween(calls, limit, i, m) + AdmittedBetween(calls, limit, m, j)
    decreases j
  {
    if m < j {
      SplitCount(calls, limit, i, m, j - 1);
    }
  }

  /** In any half-open interval as long as the window fewer than twice the limit are admitted:
      of an interval that reaches into a second window, the first one's opening call lies
      before it. */
  lemma BelowTwiceTheLimit(calls: seq<Call>, windowMs: nat, limit: nat, i: nat, j: nat)
    requires Chronological(calls, windowMs) && i < j <= |calls|
    requires calls[j - 1].now < calls[i].now + windowMs
    ensures AdmittedBetween(calls, limit, i, j) <= Max(0, 2 * limit - 1)
  {
    CountOfFirst(calls, i);
    if m :| i < m < j && Opens(calls, m) && forall k | i < k < m :: !Opens(calls, k) {
      CountOfFirst(calls, m);
      OneWindow(calls, limit, i, m);
      StaysOpen(calls, windowMs, m, j);
      OneWindow(calls, limit, m, j);
      SplitCount(calls, limit, i, m, j);
      if Opens(calls, i) {
        StaysOpen(calls, windowMs, i, j);
      }
    } else {
      NoFirst(calls, i, j);
      OneWindow(calls, limit, i, j);
    }
  }

  /** No window opens within `windowMs` after one has. */
  lemma {:induction false} StaysOpen(calls: seq<Call>, windowMs: nat, m: nat, j: nat)
    requires Chronological(calls, windowMs) && m < j <= |calls| && Opens(calls, m)
    requires calls[j - 1].now < calls[m].now + windowMs
    ensures forall k | m < k < j :: !Opens(calls, k)
    ensures BucketAfter(calls[..j]).value.resetAt == calls[m].now + windowMs
    decreases j
  {
    NextBucket(calls, j - 1);
    if m + 1 < j {
      StaysOpen(calls, windowMs, m, j - 1);
    }
  }

  lemma {:induction false} NoFirst(calls: seq<Call>, i: nat, j: nat)
    requires i < j <= |calls|
    requires forall m | i < m < j && Opens(calls, m) :: exists k :: i < k < m && Opens(calls, k)
    ensures forall k | i < k < j :: !Opens(calls, k)
    decreases j
  {
    if i + 1 < j {
      NoFirst(calls, i, j - 1);
    }
  }

  /** One call opens a window, the rest of the limit follows at its end, and the whole limit
      again when it is over. */
  function Burst(limit: nat, windowMs: nat): seq<Call> {
    seq(2 * limit, k => Call(if k == 0 then 0 else if k < limit then windowMs - 1 else windowMs, windowMs))
  }

  lemma {:induction false} BurstBucket(limit: nat, windowMs: nat, k: nat)
    requires 0 < k <= 2 * limit && 0 < windowMs
    ensures BucketAfter(Burst(limit, windowMs)[..k])
         == Some(if k <= limit then Bucket(k, windowMs) else Bucket(k - limit, 2 * windowMs))
  {
    NextBucket(Burst(limit, windowMs), k - 1);
    if k > 1 {
      BurstBucket(limit, windowMs, k - 1);
    }
  }

  lemma {:induction false} BurstAdmitted(limit: nat, windowMs: nat, j: nat)
    requires 1 <= j <= 2 * limit && 0 < windowMs
    ensures AdmittedBetween(Burst(limit, windowMs), limit, 1, j) == j - 1
  {
    if j > 1 {
      BurstAdmitted(limit, windowMs, j - 1);
      BurstBucket(limit, windowMs, j);
    }
  }

  /** The bound is sharp for every limit and every window longer than a millisecond. */
  lemma BoundIsReached(limit: nat, windowMs: nat) returns (calls: seq<Call>)
    requires 0 < limit && 1 < windowMs
    ensures Chronological(calls, windowMs) && |calls| == 2 * limit
    ensures calls[|calls| - 1].now < calls[1].now + windowMs
    ensures AdmittedBetween(calls, limit, 1, |calls|) == 2 * limit - 1
  {
    calls := Burst(limit, windowMs);
    BurstAdmitted(limit, windowMs, 2 * limit);
  }

  /** A caller that waits as long as it was told meets a new window, and is told no whole second
      too much, but at least one. */
  lemma WaitingReachesNewWindow(calls: seq<Call>, now: int, later: int, windowMs: nat)
    requires BucketAfter(calls).Some?
    requires now + 1000 * RetryAfter(BucketAfter(calls).value, now) <= later
    ensures Opens(calls + [Call(later, windowMs)], |calls|)
    ensures BucketAfter(calls + [Call(later, windowMs)]) == Some(Bucket(1, later + windowMs))
    ensures var seconds := RetryAfter(BucketAfter(calls).value, now);
      seconds == 1 || (1 < seconds && now + 1000 * (seconds - 1) < BucketAfter(calls).value.resetAt)
  {
    var more := calls + [Call(later, windowMs)];
    assert more[..|calls|] == calls && more[..|calls| + 1] == more;
    NextBucket(more, |calls|);
  }

  /* ------------------------------ the limiter ---------------------------- */

  class MemoryRateLimiter {
    var buckets: map<string, Bucket>
    ghost var calls: map<string, seq<Call>>
    ghost var clock: int

    ghost function Calls(key: string): seq<Call>
      reads this
    {
      if key in calls then calls[key] else []
    }

    /** A bucket is what it would be without sweeping, or its window is over. */
    ghost predicate Kept(key: string)
      reads this
    {
      var full := BucketAfter(Calls(key));
      if key in buckets then full == Some(buckets[key]) else full.None? || full.value.resetAt <= clock
    }

    ghost predicate Valid()
      reads this
    {
      forall key :: Kept(key)
    }

    constructor ()
      ensures Valid() && calls == map[]
    {
      buckets, calls, clock := map[], map[], 0;
    }

    /** The answer is that of a limiter that keeps every bucket for ever. */
    method Check(key: string, limit: nat, windowMs: nat, now: int) returns (result: RateLimitResult)
      requires Valid() && clock <= now
      modifies this
      ensures Valid() && clock == now
      ensures calls == old(calls)[key := old(Calls(key)) + [Call(now, windowMs)]]
      ensures result.allowed <==> Admitted(calls[key], limit, |calls[key]| - 1)
      ensures result.retryAfterSeconds == RetryAfter(BucketAfter(calls[key]).value, now)
      ensures var all := old(buckets)[key := BucketAfter(calls[key]).value];
        buckets == if |all| > 2_000 then map k | k in all && all[k].resetAt > now :: all[k] else all
    {
      ghost var earlier := Calls(key);
      assert Kept(key);
      var existing := if key in buckets then Some(buckets[key]) else None;
      var bucket := Counted(existing, Call(now, windowMs));
      Unswept(earlier, existing, Call(now, windowMs), clock);
      buckets := buckets[key := bucket];
      calls := calls[key := earlier + [Call(now, windowMs)]];
      clock := now;
      forall k
        ensures Kept(k)
      {
        assert old(Kept(k));
      }
      assert calls[key][..|calls[key]|] == calls[key];
      if |buckets| > SWEEP_THRESHOLD {
        Sweep(now);
      }
      result := RateLimitResult(bucket.count <= limit, RetryAfter(bucket, now));
    }

    method Sweep(now: int)
      requires Valid() && clock == now
      modifies this`buckets
      ensures Valid() && buckets == map k | k in old(buckets) && old(buckets)[k].resetAt > now :: old(buckets)[k]
    {
      var todo := buckets.Keys;
      while todo != {}
        invariant todo <= buckets.Keys && Valid()
        invariant forall k | k in buckets :: k in old(buckets) && buckets[k] == old(buckets)[k]
        invariant forall k | k in old(buckets) && k !in todo :: k in buckets <==> old(buckets)[k].resetAt > now
        decreases |todo|
      {
        var key :| key in todo;
        todo := todo - {key};
        if buckets[key].resetAt <= now {
          DropBucket(key);
        }
      }
    }

    method DropBucket(key: string)
      requires Valid() && key in buckets && buckets[key].resetAt <= clock
      modifies this`buckets
      ensures Valid() && buckets == old(buckets) - {key}
    {
      assert Kept(key);
      buckets := buckets - {key};
      forall k
        ensures Kept(k)
      {
        assert old(Kept(k));
      }
    }
  }

  lemma Unswept(calls: seq<Call>, existing: Option<Bucket>, call: Call, clock: int)
    requires clock <= call.now
    requires existing == BucketAfter(calls)
             || (existing.None? && BucketAfter(calls).Some? && BucketAfter(calls).value.resetAt <= clock)
    ensures BucketAfter(calls + [call]) == Some(Counted(existing, call))
  {
    var more := calls + [call];
    assert more != [] && more[..|more| - 1] == calls && more[|more| - 1] == call;
  }
}
