/** The bounded pool that hashes source files in worker threads, with its cache. */
module SourceHashPool {
  import opened Basics

  /** The fields of the cache key; that the joined text determines them is
      `Encodings.CacheKeyInjective`. */
  datatype Source = Source(path: string, size: int, modifiedMs: int)

  datatype Task = Task(key: Source, promise: nat)

  datatype Outcome = Pending | Resolved(digest: string) | Rejected

  /** A worker thread delivers exactly one of these. */
  datatype Delivery = Digest(text: string) | Failure

  datatype Ticket = Immediate(digest: string) | Promised(promise: nat) | PoolClosed | Invalid

  predicate IsDigest(text: string) {
    |text| == 64 && forall c | c in text :: '0' <= c <= '9' || 'a' <= c <= 'f'
  }

  /** Sixty-four hexadecimal digits. */
  lemma DigestShape(text: string)
    ensures IsDigest(text) <==> |text| == 64 && forall c | c in text :: c in "0123456789abcdef"
  {
    forall c | c in text
      ensures c in "0123456789abcdef" <==> '0' <= c <= '9' || 'a' <= c <= 'f'
    {
      HexDigit(c);
    }
  }

  lemma HexDigit(c: char)
    ensures c in "0123456789abcdef" <==> '0' <= c <= '9' || 'a' <= c <= 'f'
  {
  }

  /* ---------------------- recency, and what eviction keeps --------------- */

  function Without(keys: seq<Source>, k: Source): seq<Source> {
    if keys == [] then []
    else if keys[0] == k then Without(keys[1..], k)
    else [keys[0]] + Without(keys[1..], k)
  }

  /** `k` becomes the most recently used. */
  function Used(recency: seq<Source>, k: Source): seq<Source> {
    Without(recency, k) + [k]
  }

  predicate Distinct(keys: seq<Source>) {
    forall i, j | 0 <= i < j < |keys| :: keys[i] != keys[j]
  }

  lemma {:induction false} WithoutFacts(keys: seq<Source>, k: Source)
    ensures forall x :: x in Without(keys, k) <==> x in keys && x != k
    ensures k !in keys ==> Without(keys, k) == keys
  {
    if keys != [] {
      WithoutFacts(keys[1..], k);
    }
  }

  lemma {:induction false} WithoutDistinct(keys: seq<Source>, k: Source)
    requires Distinct(keys)
    ensures Distinct(Without(keys, k)) && |Without(keys, k)| == |keys| - (if k in keys then 1 else 0)
  {
    if keys != [] {
      WithoutDistinct(keys[1..], k);
      WithoutFacts(keys[1..], k);
      assert keys[0] !in keys[1..];
    }
  }

  lemma {:induction false} WithoutConcat(a: seq<Source>, b: seq<Source>, k: Source)
    ensures Without(a + b, k) == Without(a, k) + Without(b, k)
  {
    if a == [] {
      assert a + b == b;
    } else {
      assert (a + b)[1..] == a[1..] + b;
      WithoutConcat(a[1..], b, k);
    }
  }

  /** A hit moves the key to the end of the cache; a new key pushes out the oldest one.  In both
      cases the cache goes on holding exactly the most recently used keys. */
  lemma HitKeepsNewest(recency: seq<Source>, limit: nat, k: Source)
    requires Distinct(recency) && k in Newest(recency, limit)
    ensures Distinct(Used(recency, k))
    ensures Newest(Used(recency, k), limit) == Used(Newest(recency, limit), k)
  {
    var older, order := SplitNewest(recency, limit);
    UsedDistinct(recency, k);
    HitMovesWithin(older, order, k);
    HitKeepsLength(older, order, k);
    NewestOfParts(older, Used(order, k), limit);
  }

  lemma SplitNewest(recency: seq<Source>, limit: nat) returns (older: seq<Source>, order: seq<Source>)
    ensures recency == older + order && order == Newest(recency, limit)
    ensures |order| <= limit && (older == [] || |order| == limit)
  {
    order := Newest(recency, limit);
    older := recency[..|recency| - |order|];
  }

  lemma NewestOfParts(older: seq<Source>, order: seq<Source>, limit: nat)
    requires older == [] || limit <= |order|
    ensures Newest(older + order, limit) == Newest(order, limit)
  {
    if older == [] {
      assert older + order == order;
    } else {
      assert (older + order)[|older + order| - limit..] == order[|order| - limit..];
    }
  }

  lemma HitKeepsLength(older: seq<Source>, order: seq<Source>, k: Source)
    requires Distinct(older + order) && k in order
    ensures |Used(order, k)| == |order|
  {
    SuffixDistinct(older + order, |older|);
    assert (older + order)[|older|..] == order;
    WithoutDistinct(order, k);
  }

  lemma HitMovesWithin(older: seq<Source>, order: seq<Source>, k: Source)
    requires Distinct(older + order) && k in order
    ensures Used(older + order, k) == older + Used(order, k)
  {
    assert k !in older by {
      var j :| 0 <= j < |order| && order[j] == k;
      assert (older + order)[|older| + j] == k;
      assert forall i | 0 <= i < |older| :: (older + order)[i] == older[i];
    }
    WithoutConcat(older, order, k);
    WithoutFacts(older, k);
  }

  lemma MissKeepsNewest(recency: seq<Source>, limit: nat, k: Source)
    requires Distinct(recency) && k !in Newest(recency, limit) && 0 < limit
    ensures Distinct(Used(recency, k))
    ensures Newest(Used(recency, k), limit) == Newest(Newest(recency, limit) + [k], limit)
  {
    var older, order := SplitNewest(recency, limit);
    UsedDistinct(recency, k);
    MissComesLast(older, order, k);
    NewestOfParts(Without(older, k), order + [k], limit);
  }

  lemma MissComesLast(older: seq<Source>, order: seq<Source>, k: Source)
    requires k !in order
    ensures Used(older + order, k) == Without(older, k) + (order + [k])
  {
    WithoutConcat(older, order, k);
    WithoutFacts(order, k);
  }

  lemma UsedDistinct(recency: seq<Source>, k: Source)
    requires Distinct(recency)
    ensures Distinct(Used(recency, k))
  {
    WithoutDistinct(recency, k);
    WithoutFacts(recency, k);
  }

  lemma SuffixDistinct(keys: seq<Source>, start: nat)
    requires Distinct(keys) && start <= |keys|
    ensures Distinct(keys[start..])
  {
  }

  /** The map and its insertion order name the same keys. */
  predicate Lists(order: seq<Source>, cache: map<Source, string>) {
    Distinct(order) && (forall k | k in cache :: k in order) && (forall j | 0 <= j < |order| :: order[j] in cache)
  }

  lemma OldestLeaves(order: seq<Source>, cache: map<Source, string>)
    requires Lists(order, cache) && order != []
    ensures Lists(order[1..], cache - {order[0]})
  {
    forall k | k in cache && k != order[0]
      ensures k in order[1..]
    {
      assert k in order;
    }
  }

  lemma NewestOfRest(order: seq<Source>, limit: nat)
    requires |order| > limit
    ensures Newest(order[1..], limit) == Newest(order, limit)
  {
  }

  lemma NewestLeaves(order: seq<Source>, cache: map<Source, string>, k: Source, digest: string)
    requires Lists(order, cache) && k !in cache
    ensures Lists(order + [k], cache[k := digest])
  {
  }

  lemma TouchedListed(order: seq<Source>, cache: map<Source, string>, k: Source)
    requires Lists(order, cache) && k in cache
    ensures Lists(Used(order, k), cache)
  {
    UsedDistinct(order, k);
    WithoutFacts(order, k);
    forall j | 0 <= j < |Used(order, k)|
      ensures Used(order, k)[j] in cache
    {
      assert Used(order, k)[j] in Used(order, k);
    }
  }

  /* ------------------- tasks and the promises they will settle ----------- */

  type InFlight = map<Source, nat>

  predicate Owns(t: Task, inFlight: InFlight, outcomes: seq<Outcome>, cache: map<Source, string>) {
    && t.key in inFlight && inFlight[t.key] == t.promise < |outcomes|
    && outcomes[t.promise].Pending? && t.key !in cache
  }

  ghost predicate Awaited(p: nat, queue: seq<Task>, running: set<Task>) {
    exists k :: Task(k, p) in queue || Task(k, p) in running
  }

  ghost predicate TasksOk(queue: seq<Task>, running: set<Task>, inFlight: InFlight, outcomes: seq<Outcome>,
                          cache: map<Source, string>) {
    && (forall t {:trigger Owns(t, inFlight, outcomes, cache)} | t in queue || t in running ::
          Owns(t, inFlight, outcomes, cache))
    && (forall t | t in queue :: t !in running)
    && (forall i, j | 0 <= i < j < |queue| :: queue[i] != queue[j])
    && SharedOk(inFlight, |outcomes|)
    // no promise is forgotten
    && (forall p {:trigger Awaited(p, queue, running)} | 0 <= p < |outcomes| && outcomes[p].Pending? ::
          Awaited(p, queue, running))
  }

  predicate SharedOk(inFlight: InFlight, promises: nat) {
    && (forall k | k in inFlight :: inFlight[k] < promises)
    && (forall a, b | a in inFlight && b in inFlight && a != b :: inFlight[a] != inFlight[b])
  }

  lemma EnqueueOk(queue: seq<Task>, running: set<Task>, inFlight: InFlight, outcomes: seq<Outcome>,
                  cache: map<Source, string>, key: Source)
    requires TasksOk(queue, running, inFlight, outcomes, cache) && key !in inFlight && key !in cache
    ensures TasksOk(queue + [Task(key, |outcomes|)], running, inFlight[key := |outcomes|], outcomes + [Pending], cache)
  {
    var task := Task(key, |outcomes|);
    var queue' := queue + [task];
    assert task !in queue && task !in running by {
      assert !Owns(task, inFlight, outcomes, cache);
    }
    forall t | t in queue' || t in running
      ensures Owns(t, inFlight[key := |outcomes|], outcomes + [Pending], cache)
    {
      assert t != Task(key, |outcomes|) ==> Owns(t, inFlight, outcomes, cache);
    }
    assert forall t | t in queue || t in running :: Owns(t, inFlight, outcomes, cache);
    forall p | 0 <= p < |outcomes + [Pending]| && (outcomes + [Pending])[p].Pending?
      ensures Awaited(p, queue', running)
    {
      if p < |outcomes| {
        assert Awaited(p, queue, running);
      } else {
        assert Task(key, p) in queue';
      }
    }
  }

  lemma StartOk(queue: seq<Task>, running: set<Task>, inFlight: InFlight, outcomes: seq<Outcome>,
                cache: map<Source, string>)
    requires TasksOk(queue, running, inFlight, outcomes, cache) && queue != []
    ensures TasksOk(queue[1..], running + {queue[0]}, inFlight, outcomes, cache)
    ensures queue[0] !in running
  {
    assert queue == [queue[0]] + queue[1..];
    forall p | 0 <= p < |outcomes| && outcomes[p].Pending?
      ensures Awaited(p, queue[1..], running + {queue[0]})
    {
      assert Awaited(p, queue, running);
    }
  }

  lemma RejectOk(queue: seq<Task>, running: set<Task>, inFlight: InFlight, outcomes: seq<Outcome>,
                 cache: map<Source, string>)
    requires TasksOk(queue, running, inFlight, outcomes, cache) && queue != []
    ensures queue[0].promise < |outcomes| && outcomes[queue[0].promise].Pending?
    ensures TasksOk(queue[1..], running, inFlight, outcomes[queue[0].promise := Rejected], cache)
  {
    StartOk(queue, running, inFlight, outcomes, cache);
    SettleOk(queue[1..], running + {queue[0]}, inFlight, outcomes, cache, queue[0], Rejected);
    assert running + {queue[0]} - {queue[0]} == running;
  }

  lemma SettleOk(queue: seq<Task>, running: set<Task>, inFlight: InFlight, outcomes: seq<Outcome>,
                 cache: map<Source, string>, task: Task, outcome: Outcome)
    requires TasksOk(queue, running, inFlight, outcomes, cache) && task in running && !outcome.Pending?
    ensures Owns(task, inFlight, outcomes, cache)
    ensures TasksOk(queue, running - {task}, inFlight, outcomes[task.promise := outcome], cache)
    ensures forall t | t in queue || t in running - {task} :: t.key != task.key
  {
    assert Owns(task, inFlight, outcomes, cache);
    var outcomes' := outcomes[task.promise := outcome];
    forall t | t in queue || t in running - {task}
      ensures Owns(t, inFlight, outcomes', cache) && t.key != task.key
    {
      assert Owns(t, inFlight, outcomes, cache);
    }
    forall p | 0 <= p < |outcomes'| && outcomes'[p].Pending?
      ensures Awaited(p, queue, running - {task})
    {
      assert Awaited(p, queue, running);
    }
  }

  lemma RecacheOk(queue: seq<Task>, running: set<Task>, inFlight: InFlight, outcomes: seq<Outcome>,
                  cache: map<Source, string>, cache': map<Source, string>)
    requires TasksOk(queue, running, inFlight, outcomes, cache)
    requires forall k | k in cache' && k !in cache :: forall t | t in queue || t in running :: t.key != k
    ensures TasksOk(queue, running, inFlight, outcomes, cache')
  {
    forall t | t in queue || t in running
      ensures Owns(t, inFlight, outcomes, cache')
    {
      assert Owns(t, inFlight, outcomes, cache);
    }
  }

  lemma ForgetOk(queue: seq<Task>, running: set<Task>, inFlight: InFlight, outcomes: seq<Outcome>,
                 cache: map<Source, string>, key: Source)
    requires TasksOk(queue, running, inFlight, outcomes, cache) && key in inFlight && !outcomes[inFlight[key]].Pending?
    ensures TasksOk(queue, running, inFlight - {key}, outcomes, cache)
  {
    forall t | t in queue || t in running
      ensures Owns(t, inFlight - {key}, outcomes, cache)
    {
      assert Owns(t, inFlight, outcomes, cache);
    }
  }

  /* -------------------------------- the pool ----------------------------- */

  class SourceHashPool {
    const maxWorkers: nat
    const maxCacheEntries: nat
    ghost const direct: Source -> string  // the digest of the file itself
    var order: seq<Source>                // insertion order of the cache map
    var cache: map<Source, string>
    var inFlight: InFlight
    var queue: seq<Task>
    var running: set<Task>                // one worker thread each
    var finishing: nat                    // settled, but `active` not yet decremented
    var active: nat
    var started: nat
    var closed: bool
    var outcomes: seq<Outcome>            // the promises handed out
    ghost var recency: seq<Source>

    /** The cache holds the digests of exactly the most recently used keys. */
    ghost predicate CacheOk()
      reads this
    {
      && Distinct(recency) && order == Newest(recency, maxCacheEntries) && 0 < maxCacheEntries
      && Lists(order, cache) && forall k | k in cache :: cache[k] == direct(k) && IsDigest(cache[k])
    }

    ghost predicate WorkOk()
      reads this
    {
      && TasksOk(queue, running, inFlight, outcomes, cache)
      && 0 < maxWorkers && active == |running| + finishing <= maxWorkers
    }

    /** An open pool never leaves work waiting beside an idle worker. */
    predicate Busy()
      reads this
    {
      if closed then queue == [] else queue == [] || active == maxWorkers
    }

    ghost predicate Valid()
      reads this
    {
      WorkOk() && CacheOk() && Busy()
    }

    constructor (maxWorkers: nat, maxCacheEntries: nat, ghost direct: Source -> string)
      requires 0 < maxWorkers && 0 < maxCacheEntries
      ensures Valid() && this.direct == direct && cache == map[] && !closed
    {
      this.maxWorkers, this.maxCacheEntries, this.direct := maxWorkers, maxCacheEntries, direct;
      order, cache, inFlight, queue, running := [], map[], map[], [], {};
      finishing, active, started, closed, outcomes, recency := 0, 0, 0, false, [], [];
    }

    /** A cached digest is answered at once, a request under way is shared, and anything else
        becomes one new task. */
    method Hash(source: Source) returns (ticket: Ticket)
      requires Valid()
      modifies this
      ensures Valid() && closed == old(closed)
      ensures ticket.PoolClosed? <==> old(closed)
      ensures ticket.Invalid? <==> !old(closed) && (source.path == "" || source.size < 0 || source.modifiedMs < 0)
      ensures ticket.Immediate? <==> !ticket.PoolClosed? && !ticket.Invalid? && source in old(cache)
      ensures ticket.Immediate? ==> ticket.digest == direct(source) && recency == Used(old(recency), source)
      ensures cache == old(cache) && (!ticket.Immediate? ==> recency == old(recency))
      ensures !ticket.Promised? ==> outcomes == old(outcomes) && queue == old(queue) && running == old(running)
      ensures ticket.Promised? ==>
        && source in inFlight && inFlight[source] == ticket.promise < |outcomes|
        && (if source in old(inFlight) then
              inFlight == old(inFlight) && outcomes == old(outcomes) && queue == old(queue) && running == old(running)
            else outcomes == old(outcomes) + [Pending] && inFlight == old(inFlight)[source := |old(outcomes)|])
    {
      if closed {
        return PoolClosed;
      }
      if source.path == "" || source.size < 0 || source.modifiedMs < 0 {
        return Invalid;
      }
      if source in cache {
        Touch(source);
        return Immediate(cache[source]);
      }
      if source in inFlight {
        return Promised(inFlight[source]);
      }
      EnqueueOk(queue, running, inFlight, outcomes, cache, source);
      var promise := |outcomes|;
      queue := queue + [Task(source, promise)];
      inFlight := inFlight[source := promise];
      outcomes := outcomes + [Pending];
      Drain();
      return Promised(promise);
    }

    method Touch(key: Source)
      requires CacheOk() && key in cache
      modifies this`order, this`recency
      ensures CacheOk() && recency == Used(old(recency), key)
    {
      HitKeepsNewest(recency, maxCacheEntries, key);
      TouchedListed(order, cache, key);
      order := Used(order, key);
      recency := Used(recency, key);
    }

    method Drain()
      requires WorkOk() && (closed ==> queue == [])
      modifies this`queue, this`running, this`active, this`started
      ensures WorkOk() && Busy()
      ensures exists n :: 0 <= n <= |old(queue)| && queue == old(queue)[n..] && started == old(started) + n
    {
      ghost var n := 0;
      while !closed && active < maxWorkers
        invariant WorkOk() && (closed ==> queue == [])
        invariant 0 <= n <= |old(queue)| && queue == old(queue)[n..] && started == old(started) + n
        decreases |queue|
      {
        if queue == [] {
          return;
        }
        StartOk(queue, running, inFlight, outcomes, cache);
        var task := queue[0];
        queue := queue[1..];
        active := active + 1;
        started := started + 1;
        running := running + {task};
        n := n + 1;
      }
    }

    /** A worker reports, or dies: the promise of its task settles, and it had not before. */
    method Deliver(task: Task, delivery: Delivery)
      requires Valid() && task in running
      requires delivery.Digest? && IsDigest(delivery.text) ==> delivery.text == direct(task.key)
      modifies this
      ensures Valid() && running == old(running) - {task} && finishing == old(finishing) + 1
      ensures task.promise < |old(outcomes)| && old(outcomes)[task.promise].Pending?
      ensures outcomes == old(outcomes)[task.promise :=
        if delivery.Digest? && IsDigest(delivery.text) then Resolved(direct(task.key)) else Rejected]
      ensures recency == if outcomes[task.promise].Resolved? then Used(old(recency), task.key) else old(recency)
      ensures inFlight == old(inFlight) && queue == old(queue) && closed == old(closed)
    {
      var valid := delivery.Digest? && IsDigest(delivery.text);
      var outcome := if valid then Resolved(delivery.text) else Rejected;
      SettleOk(queue, running, inFlight, outcomes, cache, task, outcome);
      if valid {
        Remember(task.key, delivery.text);
        RecacheOk(queue, running - {task}, inFlight, outcomes[task.promise := outcome], old(cache), cache);
      }
      outcomes := outcomes[task.promise := outcome];
      running := running - {task};
      finishing := finishing + 1;
    }

    /** cache.set and trimCache */
    method Remember(key: Source, digest: string)
      requires CacheOk() && digest == direct(key) && IsDigest(digest) && key !in cache
      modifies this`cache, this`order, this`recency
      ensures CacheOk() && recency == Used(old(recency), key)
      ensures forall k | k in cache :: k == key || k in old(cache)
    {
      MissKeepsNewest(recency, maxCacheEntries, key);
      NewestLeaves(order, cache, key, digest);
      recency := Used(recency, key);
      cache := cache[key := digest];
      order := order + [key];
      TrimCache();
    }

    method TrimCache()
      requires Lists(order, cache)
      modifies this`cache, this`order
      ensures Lists(order, cache) && order == Newest(old(order), maxCacheEntries)
      ensures forall k | k in cache :: k in old(cache) && cache[k] == old(cache)[k]
    {
      while |order| > maxCacheEntries
        invariant Lists(order, cache) && Newest(order, maxCacheEntries) == Newest(old(order), maxCacheEntries)
        invariant forall k | k in cache :: k in old(cache) && cache[k] == old(cache)[k]
      {
        OldestLeaves(order, cache);
        NewestOfRest(order, maxCacheEntries);
        cache := cache - {order[0]};
        order := order[1..];
      }
    }

    /** The first `finally`: the worker slot is free again. */
    method Finish()
      requires Valid() && finishing > 0
      modifies this`queue, this`running, this`active, this`started, this`finishing
      ensures Valid() && finishing == old(finishing) - 1
    {
      finishing := finishing - 1;
      active := active - 1;
      Drain();
    }

    /** The second `finally`: the settled promise is no longer shared. */
    method Forget(key: Source)
      requires Valid() && key in inFlight && !outcomes[inFlight[key]].Pending?
      modifies this`inFlight
      ensures Valid() && inFlight == old(inFlight) - {key}
    {
      ForgetOk(queue, running, inFlight, outcomes, cache, key);
      inFlight := inFlight - {key};
    }

    /** The synchronous part of `close`: the promises of the queued tasks are rejected, and no
        others; running tasks are left to their workers. */
    method Close()
      requires Valid()
      modifies this`closed, this`queue, this`outcomes
      ensures Valid() && closed && queue == [] && |outcomes| == |old(outcomes)|
      ensures forall p | 0 <= p < |outcomes| ::
        outcomes[p] == if Promises(old(queue), p) then Rejected else old(outcomes)[p]
    {
      if closed {
        return;
      }
      closed := true;
      forall p | 0 <= p < |outcomes|
        ensures |RejectAll(outcomes, queue)| == |outcomes|
        ensures RejectAll(outcomes, queue)[p] == if Promises(queue, p) then Rejected else outcomes[p]
      {
        RejectAllAt(outcomes, queue, p);
      }
      RejectAllLength(outcomes, queue);
      while queue != []
        invariant WorkOk() && closed
        invariant RejectAll(outcomes, queue) == RejectAll(old(outcomes), old(queue))
      {
        RejectOk(queue, running, inFlight, outcomes, cache);
        var task := queue[0];
        queue := queue[1..];
        outcomes := outcomes[task.promise := Rejected];
      }
    }

    /** The end of `close`, when all workers have gone: nobody is left waiting. */
    method CompleteClose()
      requires Valid() && closed && running == {}
      modifies this`cache, this`order, this`recency
      ensures Valid() && cache == map[]
      ensures forall p | 0 <= p < |outcomes| :: !outcomes[p].Pending?
    {
      RecacheOk(queue, running, inFlight, outcomes, cache, map[]);
      cache, order, recency := map[], [], [];
      forall p | 0 <= p < |outcomes|
        ensures !outcomes[p].Pending?
      {
        assert !Awaited(p, queue, running);
      }
    }

    /** In every state between two steps. */
    lemma Bounds()
      requires Valid()
      ensures |running| <= active <= maxWorkers && |order| <= maxCacheEntries
      ensures forall t | t in queue || t in running ::
        && t.key in inFlight && inFlight[t.key] == t.promise < |outcomes|
        && outcomes[t.promise].Pending? && t.key !in cache
      ensures forall s, t | (s in queue || s in running) && (t in queue || t in running) && s != t :: s.key != t.key
      ensures !closed && queue != [] ==> active == maxWorkers
    {
      forall t | t in queue || t in running
        ensures Owns(t, inFlight, outcomes, cache)
      {
      }
    }
  }

  function RejectAll(outcomes: seq<Outcome>, tasks: seq<Task>): seq<Outcome>
    decreases |tasks|
  {
    if tasks == [] then outcomes
    else RejectAll(if tasks[0].promise < |outcomes| then outcomes[tasks[0].promise := Rejected] else outcomes,
                   tasks[1..])
  }

  /** One of the tasks will settle promise `p`. */
  ghost predicate Promises(tasks: seq<Task>, p: nat) {
    exists t :: t in tasks && t.promise == p
  }

  lemma {:induction false} RejectAllLength(outcomes: seq<Outcome>, tasks: seq<Task>)
    ensures |RejectAll(outcomes, tasks)| == |outcomes|
    decreases |tasks|
  {
    if tasks != [] {
      RejectAllLength(if tasks[0].promise < |outcomes| then outcomes[tasks[0].promise := Rejected] else outcomes,
                      tasks[1..]);
    }
  }

  lemma {:induction false} RejectAllAt(outcomes: seq<Outcome>, tasks: seq<Task>, p: nat)
    requires p < |outcomes|
    ensures |RejectAll(outcomes, tasks)| == |outcomes|
    ensures RejectAll(outcomes, tasks)[p] == if Promises(tasks, p) then Rejected else outcomes[p]
    decreases |tasks|
  {
    if tasks != [] {
      var first := if tasks[0].promise < |outcomes| then outcomes[tasks[0].promise := Rejected] else outcomes;
      RejectAllAt(first, tasks[1..], p);
      assert forall t :: t in tasks <==> t == tasks[0] || t in tasks[1..];
    }
  }
}
