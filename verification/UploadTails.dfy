/** Bytes that a failed checkpoint has left behind the confirmed ones: they block every later
    append until a crash and recovery truncate them, so they never become confirmed. */
module UploadTails {
  import opened Basics
  import opened CommitLedger
  import opened UploadMachine
  import opened UploadInvariant
  import opened UploadBytes
  import opened UploadRuns
  import opened UploadRequests
  import opened UploadRecovery

  predicate HasExcess(item: Item) {
    && Unfinished(item.row) && 0 < item.row.confirmed < item.row.size
    && item.partial.Present? && item.row.confirmed < |item.partial.bytes|
  }

  /** The partial file is longer than the row says, and nobody is past the check that sees it. */
  ghost predicate Stale(s: State, i: ItemId) {
    && s.mode.Serving? && i in s.items && HasExcess(s.items[i])
    && forall r | r in s.requests && s.requests[r].item == i ::
         s.requests[r].job.Upload? && s.requests[r].stage.Admitted?
  }

  /** The steps that end it: a crash, outside damage, or a cancellation. */
  predicate Clears(l: Label, i: ItemId) {
    l.Crash? || Loses(l, i)
  }

  /** Whatever becomes of a request on a stale item, it ends here, unanswered. */
  lemma StaleSegment(i: ItemId, item: Item, dir: Dir, q: Request, e: Event, now: int)
    requires RequestOk(i, item, q) && CanStep(item, dir, q, e) && q.job.Upload? && q.stage.Admitted?
    requires 0 < item.row.confirmed && item.partial.Present? && item.row.confirmed < |item.partial.bytes|
    ensures Step(i, item, dir, q, e, now) == Effect(item, dir, None)
  {
  }

  lemma StaleAdvance(s: State, r: RequestId, e: Event, now: int, i: ItemId)
    requires Inv(s) && Stale(s, i) && Enabled(s, Advance(r, e, now))
    ensures var s' := AfterAdvance(s, r, e, now);
      && Stale(s', i) && s'.items[i] == s.items[i] && !Commits(s, Advance(r, e, now), i)
      && (s.requests[r].item == i ==> r !in s'.requests && Reply(s, Advance(r, e, now)).None?)
  {
    var q := s.requests[r];
    SegmentItems(s, r, e, now);
    if q.item == i {
      StaleSegment(i, s.items[i], s.dir, q, e, now);
    } else {
      StepKeepsRequest(q.item, s.items[q.item], s.dir, q, e, now);
      OthersMove(s, r, Step(q.item, s.items[q.item], s.dir, q, e, now), i);
    }
  }

  lemma OthersMove(s: State, r: RequestId, f: Effect, i: ItemId)
    requires r in s.requests && s.requests[r].item != i && (f.next.Some? ==> f.next.value.item == s.requests[r].item)
    ensures forall t | t in Moved(s, r, f).requests && Moved(s, r, f).requests[t].item == i ::
      t in s.requests && Moved(s, r, f).requests[t] == s.requests[t]
  {
  }

  lemma StaleReceive(s: State, r: RequestId, j: ItemId, c: Checkpoint, i: ItemId)
    requires Stale(s, i) && Enabled(s, Receive(r, j, c))
    ensures var s' := AfterReceive(s, r, j, c);
      Stale(s', i) && s'.items[i].row == s.items[i].row && s'.items[i].partial == s.items[i].partial
  {
  }

  lemma StaleOther(s: State, l: Label, i: ItemId)
    requires Stale(s, i) && Enabled(s, l) && !l.Advance? && !l.Receive? && !Clears(l, i)
    ensures var s' := Apply(s, l);
      Stale(s', i) && s'.items[i].row == s.items[i].row && s'.items[i].partial == s.items[i].partial
  {
  }

  lemma StaleStep(s: State, l: Label, i: ItemId)
    requires Inv(s) && Stale(s, i) && Enabled(s, l) && !Clears(l, i)
    ensures var s' := Apply(s, l);
      && Stale(s', i) && s'.items[i].row == s.items[i].row && s'.items[i].partial == s.items[i].partial
      && !Commits(s, l, i)
  {
    if l.Advance? {
      StaleAdvance(s, l.request, l.event, l.now, i);
    } else if l.Receive? {
      StaleReceive(s, l.request, l.item, l.checkpoint, i);
    } else {
      StaleOther(s, l, i);
    }
  }

  ghost predicate ClearsAt(run: Run, m: nat, i: ItemId)
    requires m < |run.labels|
  {
    Clears(run.labels[m], i)
  }

  /** A tail lasts: from a stale state on, until the service crashes or the item is damaged or
      cancelled, row and partial file stay exactly as they are. */
  lemma {:induction false} TailStays(run: Run, i: ItemId, j: nat, k: nat)
    requires FromStart(run) && j <= k < |run.states| && Stale(run.states[j], i)
    requires forall m {:trigger ClearsAt(run, m, i)} | j <= m < k :: !ClearsAt(run, m, i)
    ensures Stale(run.states[k], i)
    ensures run.states[k].items[i].row == run.states[j].items[i].row
    ensures run.states[k].items[i].partial == run.states[j].items[i].partial
  {
    if j < k {
      assert !ClearsAt(run, k - 1, i);
      TailStays(run, i, j, k - 1);
      assert StepAt(run, k - 1);
      ReachableInv(run, k - 1);
      StaleStep(run.states[k - 1], run.labels[k - 1], i);
    }
  }

  /** And all that time every append is refused: no step commits the item, and any segment of
      one of its requests ends that request without an answer and without a trace. */
  lemma TailRefusesAppends(run: Run, i: ItemId, j: nat, k: nat)
    requires FromStart(run) && j <= k < |run.labels| && Stale(run.states[j], i)
    requires forall m {:trigger ClearsAt(run, m, i)} | j <= m < k :: !ClearsAt(run, m, i)
    ensures StepAt(run, k) && !Commits(run.states[k], run.labels[k], i)
    ensures var s, l := run.states[k], run.labels[k];
      l.Advance? && s.requests[l.request].item == i ==>
        && l.request !in run.states[k + 1].requests && Reply(s, l).None?
        && i in s.items && i in run.states[k + 1].items && run.states[k + 1].items[i] == s.items[i]
  {
    TailStays(run, i, j, k);
    assert StepAt(run, k);
    ReachableInv(run, k);
    var s, l := run.states[k], run.labels[k];
    if l.Advance? {
      StaleAdvance(s, l.request, l.event, l.now, i);
    }
  }

  /** A checkpoint that fails before its commit leaves the item stale exactly when it did not
      start at 0 and the file is now longer than its start. */
  lemma FailureLeavesTail(s: State, r: RequestId, rolledBack: bool, now: int)
    requires Inv(s) && s.mode.Serving? && Enabled(s, Advance(r, Fail(rolledBack), now))
    requires Writes(s, r) && PreCommit(s.requests[r].stage)
    ensures var q := s.requests[r];
      var c, s' := q.job.checkpoint, Apply(s, Advance(r, Fail(rolledBack), now));
      && q.item in s'.items
      && (Stale(s', q.item) <==>
            c.start > 0 && s'.items[q.item].partial.Present? && c.start < |s'.items[q.item].partial.bytes|)
  {
    var q := s.requests[r];
    var i, c := q.item, q.job.checkpoint;
    var l := Advance(r, Fail(rolledBack), now);
    SegmentItems(s, r, Fail(rolledBack), now);
    assert RequestOk(i, s.items[i], q);
    forall t | t in s.requests && t != r && s.requests[t].item == i
      ensures false
    {
      WriterExcludes(s, Advance(t, Fail(false), now), r, i, c);
    }
    OnlyOneGoes(s, r, Step(i, s.items[i], s.dir, q, Fail(rolledBack), now));
  }

  lemma OnlyOneGoes(s: State, r: RequestId, f: Effect)
    requires r in s.requests && f.next.None?
    requires forall t | t in s.requests && t != r :: s.requests[t].item != s.requests[r].item
    ensures forall t | t in Moved(s, r, f).requests :: Moved(s, r, f).requests[t].item != s.requests[r].item
  {
  }

  /** The bytes that the failing checkpoint leaves behind its start: what it has written so far,
      unless a failing stream or commit could truncate them; a failing fsync never tries. */
  function Tail(q: Request, rolledBack: bool): seq<Byte>
    requires q.job.Upload? && PreCommit(q.stage)
  {
    match q.stage
    case Writing(w) => if rolledBack || |q.job.checkpoint.body| < w then [] else q.job.checkpoint.body[..w]
    case Written => q.job.checkpoint.body
    case Synced => if rolledBack then [] else q.job.checkpoint.body
    case Admitted => []
  }

  /** So a failing fsync, a broken stream or a failing commit that could not be rolled back,
      anywhere but in the first checkpoint, makes the item stale if any byte was written. */
  lemma UnrepairedFailureIsStale(s: State, r: RequestId, rolledBack: bool, now: int)
    requires Inv(s) && s.mode.Serving? && Enabled(s, Advance(r, Fail(rolledBack), now))
    requires Writes(s, r) && PreCommit(s.requests[r].stage) && !s.requests[r].stage.Admitted?
    ensures var q := s.requests[r];
      var c, s' := q.job.checkpoint, Apply(s, Advance(r, Fail(rolledBack), now));
      && q.item in s'.items && s'.items[q.item].partial.Present?
      && |s'.items[q.item].partial.bytes| == c.start + |Tail(q, rolledBack)|
      && s'.items[q.item].partial.bytes[c.start..] == Tail(q, rolledBack)
      && (Stale(s', q.item) <==> c.start > 0 && Tail(q, rolledBack) != [])
  {
    var q := s.requests[r];
    assert RequestOk(q.item, s.items[q.item], q);
    FailureLeavesTail(s, r, rolledBack, now);
    SegmentItems(s, r, Fail(rolledBack), now);
    FailedFile(q.item, s.items[q.item], s.dir, q, rolledBack, now);
  }

  lemma FailedFile(i: ItemId, item: Item, dir: Dir, q: Request, rolledBack: bool, now: int)
    requires RequestOk(i, item, q) && CanStep(item, dir, q, Fail(rolledBack))
    requires q.job.Upload? && PreCommit(q.stage) && !q.stage.Admitted?
    ensures HasTail(Step(i, item, dir, q, Fail(rolledBack), now).item.partial, q.job.checkpoint.start,
                    Tail(q, rolledBack))
  {
  }

  lemma FailureKeepsHead(s: State, r: RequestId, rolledBack: bool, now: int)
    requires Inv(s) && Enabled(s, Advance(r, Fail(rolledBack), now))
    requires Writes(s, r) && PreCommit(s.requests[r].stage) && !s.requests[r].stage.Admitted?
    ensures var q, s' := s.requests[r], Apply(s, Advance(r, Fail(rolledBack), now));
      && q.item in s'.items && s'.items[q.item].row == s.items[q.item].row
      && var file, file' := s.items[q.item].partial, s'.items[q.item].partial;
        && file.Present? && file'.Present? && q.job.checkpoint.start <= |file.bytes|
        && q.job.checkpoint.start <= |file'.bytes|
        && file'.bytes[..q.job.checkpoint.start] == file.bytes[..q.job.checkpoint.start]
  {
    assert RequestOk(s.requests[r].item, s.items[s.requests[r].item], s.requests[r]);
    SegmentItems(s, r, Fail(rolledBack), now);
  }

  /** The failure in whole runs: in any checkpoint but the first, if bytes are left behind, the
      row stays as it was and the partial file is the confirmed bytes and those left behind,
      and no step commits the item, until one that clears the tail. */
  lemma UnrepairedFailureBlocks(run: Run, r: RequestId, rolledBack: bool, now: int, j: nat, k: nat)
    requires FromStart(run) && j < k < |run.labels| && run.labels[j] == Advance(r, Fail(rolledBack), now)
    requires run.states[j].mode.Serving? && Writes(run.states[j], r)
    requires PreCommit(run.states[j].requests[r].stage) && !run.states[j].requests[r].stage.Admitted?
    requires var q := run.states[j].requests[r];
      && q.job.checkpoint.start > 0 && Tail(q, rolledBack) != []
      && forall m {:trigger ClearsAt(run, m, q.item)} | j < m < k :: !ClearsAt(run, m, q.item)
    ensures var s, s' := run.states[j], run.states[k];
      var q := s.requests[r];
      var i, start := q.item, q.job.checkpoint.start;
      && i in s.items && i in s'.items && s'.items[i].row == s.items[i].row
      && s.items[i].partial.Present? && s'.items[i].partial.Present? && start <= |s.items[i].partial.bytes|
      && s'.items[i].partial.bytes == s.items[i].partial.bytes[..start] + Tail(q, rolledBack)
      && !Commits(s', run.labels[k], i)
  {
    var s := run.states[j];
    var q := s.requests[r];
    assert StepAt(run, j);
    ReachableInv(run, j);
    FailureKeepsHead(s, r, rolledBack, now);
    UnrepairedFailureIsStale(s, r, rolledBack, now);
    TailStays(run, q.item, j + 1, k);
    TailRefusesAppends(run, q.item, j + 1, k);
    var bytes, start := run.states[j + 1].items[q.item].partial.bytes, q.job.checkpoint.start;
    assert bytes == bytes[..start] + bytes[start..];
  }

  /** What a stale item vouches for is its confirmed part, without the tail. */
  lemma StaleBytes(s: State, i: ItemId)
    requires Stale(s, i) && Sound(s, i)
    ensures Bytes(s, i) == s.items[i].partial.bytes[..s.items[i].row.confirmed]
  {
  }

  lemma CrashKeepsStaleBytes(run: Run, i: ItemId, m: nat)
    requires FromStart(run) && QuietThroughout(run, i) && m < |run.labels| && run.labels[m].Crash?
    requires Stale(run.states[m], i)
    ensures run.states[m + 1].mode.Down? && i in run.states[m + 1].items
    ensures run.states[m + 1].items[i].row == run.states[m].items[i].row
    ensures Bytes(run.states[m + 1], i) == Bytes(run.states[m], i)
  {
    assert StepAt(run, m);
    RunRefinesAppendLog(run, i, m);
    LabelKeeps(run.states[m], run.labels[m], i);
  }

  /** The tail ends with the next crash: whatever of it survives, and however often recovery is
      interrupted, the service opens again with the confirmed bytes as the whole partial file. */
  lemma RecoveryCutsTail(run: Run, i: ItemId, j: nat, m: nat, k: nat)
    requires FromStart(run) && QuietThroughout(run, i) && j <= m < |run.labels| && Stale(run.states[j], i)
    requires forall n {:trigger ClearsAt(run, n, i)} | j <= n < m :: !ClearsAt(run, n, i)
    requires run.labels[m].Crash? && RecoverySpan(run, m + 1, k)
    requires forall n | m < n < k :: !(run.labels[n].Damage? && run.labels[n].item == i)
    ensures i in run.states[k].items
    ensures run.states[k].items[i].row.confirmed == run.states[j].items[i].row.confirmed
    ensures run.states[k].items[i].partial.Present?
    ensures run.states[k].items[i].partial.bytes
         == run.states[j].items[i].partial.bytes[..run.states[j].items[i].row.confirmed]
  {
    TailStays(run, i, j, m);
    ReachableSound(run, i, m);
    StaleBytes(run.states[m], i);
    CrashKeepsStaleBytes(run, i, m);
    RecoveryOutcome(run, i, m + 1, k);
    SpanKeeps(run, i, m + 1, k, k);
  }
}
