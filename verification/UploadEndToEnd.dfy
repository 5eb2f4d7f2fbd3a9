/** The sending side meets the receiving side: if every checkpoint offered for an upload is
    labelled with the digest of its part of one source file, then whatever bodies the network
    delivers, the server's bytes are a prefix of that file. */
module UploadEndToEnd {
  import opened Basics
  import opened CommitLedger
  import opened UploadMachine
  import opened UploadInvariant
  import opened UploadBytes
  import opened UploadRuns
  import opened UploadRequests
  import opened UploadExactlyOnce
  import opened UploadRecovery

  /** The headers of the request describe a part of `source`; its body may be anything. */
  predicate Honest(c: Checkpoint, source: seq<Byte>) {
    && c.start + c.length <= |source| == c.total
    && c.checksum == Sha256(source[c.start..c.start + c.length])
  }

  /** Only requests about `source` are offered for item `i`. */
  predicate Fair(l: Label, i: ItemId, source: seq<Byte>) {
    match l
    case Receive(_, j, c) => j == i ==> Honest(c, source)
    case Register(j, size, _) => j == i ==> size == |source|
    case _ => true
  }

  ghost predicate FairRun(run: Run, i: ItemId, source: seq<Byte>) {
    && FromStart(run) && QuietThroughout(run, i)
    && forall k | 0 <= k < |run.labels| :: Fair(run.labels[k], i, source)
  }

  /** What the server holds for `i`, and what is about to be appended, belongs to `source`. */
  ghost predicate Follows(s: State, i: ItemId, source: seq<Byte>) {
    && i in s.items && s.items[i].row.size == |source| && Bytes(s, i) <= source
    && forall r | Writes(s, r) && s.requests[r].item == i :: Honest(s.requests[r].job.checkpoint, source)
  }

  lemma AdvanceKeepsHonest(s: State, r: RequestId, e: Event, now: int, i: ItemId, source: seq<Byte>)
    requires Inv(s) && Enabled(s, Advance(r, e, now)) && Follows(s, i, source)
    ensures var s' := AfterAdvance(s, r, e, now);
            && i in s'.items && s'.items[i].row.size == |source|
            && forall t | Writes(s', t) && s'.requests[t].item == i :: Honest(s'.requests[t].job.checkpoint, source)
  {
    var q := s.requests[r];
    StepKeepsRequest(q.item, s.items[q.item], s.dir, q, e, now);
    SegmentItems(s, r, e, now);
    forall t | Writes(AfterAdvance(s, r, e, now), t) && AfterAdvance(s, r, e, now).requests[t].item == i
      ensures Honest(AfterAdvance(s, r, e, now).requests[t].job.checkpoint, source)
    {
      MovedWriters(s, r, Step(q.item, s.items[q.item], s.dir, q, e, now), t);
    }
  }

  lemma MovedWriters(s: State, r: RequestId, f: Effect, t: RequestId)
    requires r in s.requests && Writes(Moved(s, r, f), t)
    requires var q := s.requests[r];
             f.next.Some? ==>
               && f.next.value.item == q.item
               && (f.next.value.job == q.job || (q.job.Recover? && f.next.value.job.Recover?))
    ensures var s' := Moved(s, r, f);
      Writes(s, t) && s'.requests[t].item == s.requests[t].item && s'.requests[t].job == s.requests[t].job
  {
  }

  lemma CommitFollows(before: seq<Byte>, c: Checkpoint, source: seq<Byte>)
    requires before <= source && |before| == c.start && Honest(c, source) && Sha256(c.body) == c.checksum
    ensures before + c.body <= source
  {
    assert c.body == source[c.start..c.start + c.length];
    assert before + c.body == source[..c.start + c.length];
  }

  lemma FollowsStep(s: State, l: Label, i: ItemId, source: seq<Byte>)
    requires Inv(s) && Enabled(s, l) && i in s.items && i in Apply(s, l).items
    requires Follows(s, i, source) && Fair(l, i, source) && Refines(s, l, i)
    ensures Follows(Apply(s, l), i, source)
  {
    if l.Advance? {
      AdvanceKeepsHonest(s, l.request, l.event, l.now, i, source);
      if s.requests[l.request].item == i && CommitsNow(s.requests[l.request], l.event) {
        CommitFollows(Bytes(s, i), s.requests[l.request].job.checkpoint, source);
      }
    } else if l.Receive? {
      ReceiveFollows(s, l.request, l.item, l.checkpoint, i, source);
    } else {
      PassiveFollows(s, l, i, source);
    }
  }

  lemma ReceiveFollows(s: State, r: RequestId, j: ItemId, c: Checkpoint, i: ItemId, source: seq<Byte>)
    requires Enabled(s, Receive(r, j, c)) && Follows(s, i, source) && (j == i ==> Honest(c, source))
    ensures var s' := AfterReceive(s, r, j, c);
            i in s'.items && Bytes(s', i) == Bytes(s, i) ==> Follows(s', i, source)
  {
    var s' := AfterReceive(s, r, j, c);
    assert forall t | t in s'.requests :: t == r || s'.requests[t] == s.requests[t];
  }

  lemma PassiveFollows(s: State, l: Label, i: ItemId, source: seq<Byte>)
    requires Inv(s) && Enabled(s, l) && i in s.items && i in Apply(s, l).items && !l.Advance? && !l.Receive?
    requires Follows(s, i, source) && Refines(s, l, i)
    ensures Follows(Apply(s, l), i, source)
  {
    LabelKeeps(s, l, i);
    forall r | Writes(Apply(s, l), r)
      ensures r in s.requests && Apply(s, l).requests[r] == s.requests[r]
    {
      WritersAreOld(s, l, r);
    }
  }

  lemma WritersAreOld(s: State, l: Label, r: RequestId)
    requires Enabled(s, l) && !l.Advance? && !l.Receive? && Writes(Apply(s, l), r)
    ensures r in s.requests && Apply(s, l).requests[r] == s.requests[r]
  {
    match l
    case Reopen(_, _) =>
    case _ =>
  }

  lemma BeginsFollowing(s: State, i: ItemId, path: Path, source: seq<Byte>)
    requires Inv(s) && Enabled(s, Register(i, |source|, path))
    ensures Follows(Apply(s, Register(i, |source|, path)), i, source)
  {
    assert forall r | r in s.requests :: s.requests[r].item != i;
  }

  lemma {:induction false} ServerFollowsSource(run: Run, i: ItemId, source: seq<Byte>, k: nat)
    requires FairRun(run, i, source) && k < |run.states| && i in run.states[k].items
    ensures Follows(run.states[k], i, source)
  {
    if k > 0 {
      var s, l := run.states[k - 1], run.labels[k - 1];
      assert StepAt(run, k - 1);
      ReachableInv(run, k - 1);
      if i in s.items {
        ServerFollowsSource(run, i, source, k - 1);
        RunRefinesAppendLog(run, i, k - 1);
        FollowsStep(s, l, i, source);
      } else {
        ItemsStay(s, l);
        BeginsFollowing(s, i, l.path, source);
      }
    }
  }

  /** The file behind the row is at least as long as the row says. */
  predicate Agrees(s: State, i: ItemId) {
    i in s.items && s.items[i].row.confirmed <= |Data(i, s.items[i], s.dir)|
  }

  /** End to end: whatever was delivered, lost, corrupted, repeated, crashed or damaged, what
      the server vouches for is the beginning of the source, and it is exactly the recorded
      part of it whenever file and row agree.  Without damage they always do, and every
      offset ever answered is recorded. */
  lemma ServerBytesAreSource(run: Run, i: ItemId, source: seq<Byte>, k: nat)
    requires FairRun(run, i, source) && k < |run.states| && i in run.states[k].items
    ensures var s, item := run.states[k], run.states[k].items[i];
            && item.row.size == |source| && item.row.confirmed <= |source| && Bytes(s, i) <= source
            && (Agrees(s, i) ==> Bytes(s, i) == source[..item.row.confirmed])
            && (Undamaged(run, i) ==>
                  item.acked <= item.row.confirmed && (!item.row.state.Cancelled? ==> Agrees(s, i)))
  {
    ServerFollowsSource(run, i, source, k);
    ReachableInv(run, k);
    if Undamaged(run, i) {
      ReachableIntact(run, i, k);
    }
  }

  /** After every start of the service they agree, whatever was damaged before. */
  lemma OpenedBytesAreSource(run: Run, i: ItemId, source: seq<Byte>, k: nat)
    requires FairRun(run, i, source) && k < |run.labels| && run.labels[k].Open? && i in run.states[k].items
    requires !run.states[k].items[i].row.state.Cancelled?
    ensures Agrees(run.states[k], i) && run.states[k].items[i].row.confirmed <= |source|
    ensures Bytes(run.states[k], i) == source[..run.states[k].items[i].row.confirmed]
  {
    RecoveryRestoresAgreement(run, k);
    ReachableSound(run, i, k);
    ReachableInv(run, k);
    ServerBytesAreSource(run, i, source, k);
  }

  /** If the row has ever recorded the whole size, then at that moment or before the server
      had the whole source: the last commit appends to a file that is there. */
  lemma {:induction false} WholeWasThere(run: Run, i: ItemId, source: seq<Byte>, k: nat) returns (j: nat)
    requires FairRun(run, i, source) && k < |run.states| && i in run.states[k].items
    requires run.states[k].items[i].row.confirmed == |source|
    ensures j <= k && i in run.states[j].items && Bytes(run.states[j], i) == source
  {
    if k > 0 && i in run.states[k - 1].items && run.states[k - 1].items[i].row.confirmed == |source| {
      j := WholeWasThere(run, i, source, k - 1);
    } else {
      j := k;
      NowWhole(run, i, source, k);
    }
  }

  lemma NowWhole(run: Run, i: ItemId, source: seq<Byte>, k: nat)
    requires FairRun(run, i, source) && k < |run.states| && i in run.states[k].items
    requires run.states[k].items[i].row.confirmed == |source|
    requires k > 0 && i in run.states[k - 1].items ==> run.states[k - 1].items[i].row.confirmed != |source|
    ensures Bytes(run.states[k], i) == source
  {
    if |source| == 0 {
      ServerFollowsSource(run, i, source, k);
    } else {
      StartsEmpty(run, i, k);
      OffsetBelow(run, i, source, k - 1);
      GrewByCommit(run, i, k - 1);
      CommitMakesWhole(run, i, source, k - 1);
    }
  }

  lemma StartsEmpty(run: Run, i: ItemId, k: nat)
    requires FromStart(run) && k < |run.states| && i in run.states[k].items
    ensures k > 0
  {
  }

  lemma GrewByCommit(run: Run, i: ItemId, k: nat)
    requires FromStart(run) && k < |run.labels| && i in run.states[k + 1].items
    requires run.states[k + 1].items[i].row.confirmed
           > if i in run.states[k].items then run.states[k].items[i].row.confirmed else 0
    ensures Commits(run.states[k], run.labels[k], i)
  {
    assert StepAt(run, k);
    ReachableInv(run, k);
    OffsetGrew(run.states[k], run.labels[k], i);
  }

  lemma OffsetBelow(run: Run, i: ItemId, source: seq<Byte>, k: nat)
    requires FairRun(run, i, source) && k < |run.states| && 0 < |source|
    requires i in run.states[k].items ==> run.states[k].items[i].row.confirmed != |source|
    ensures i in run.states[k].items ==> run.states[k].items[i].row.confirmed < |source|
  {
    if i in run.states[k].items {
      ServerBytesAreSource(run, i, source, k);
    }
  }

  lemma CommitMakesWhole(run: Run, i: ItemId, source: seq<Byte>, k: nat)
    requires FairRun(run, i, source) && k < |run.labels| && Commits(run.states[k], run.labels[k], i)
    requires i in run.states[k + 1].items && run.states[k + 1].items[i].row.confirmed == |source|
    ensures Bytes(run.states[k + 1], i) == source
  {
    ServerFollowsSource(run, i, source, k + 1);
    CommitAdvancesOffset(run, i, k);
    CommitWritesBehindConfirmed(run, i, k);
  }

  /** Only a commit raises a recorded offset. */
  lemma OffsetGrew(s: State, l: Label, i: ItemId)
    requires Inv(s) && Enabled(s, l) && i in Apply(s, l).items
    requires Apply(s, l).items[i].row.confirmed > if i in s.items then s.items[i].row.confirmed else 0
    ensures Commits(s, l, i)
  {
    if l.Advance? {
      var q := s.requests[l.request];
      StepRaises(q.item, s.items[q.item], s.dir, q, l.event, l.now);
      SegmentItems(s, l.request, l.event, l.now);
    } else if i in s.items {
      LabelKeeps(s, l, i);
    } else {
      ItemsStay(s, l);
    }
  }

  lemma StepRaises(i: ItemId, item: Item, dir: Dir, q: Request, e: Event, now: int)
    requires ItemOk(i, item) && RequestOk(i, item, q) && CanStep(item, dir, q, e)
    ensures Step(i, item, dir, q, e, now).item.row.confirmed <= item.row.confirmed || CommitsNow(q, e)
  {
  }

  /** A ready upload is the source, byte for byte, in a file whose digest is recorded. */
  lemma ReadyIsTheSource(run: Run, i: ItemId, source: seq<Byte>, k: nat)
    requires FairRun(run, i, source) && k < |run.states| && i in run.states[k].items
    requires run.states[k].items[i].row.state.Ready?
    ensures var s := run.states[k];
            var row := s.items[i].row;
            && row.finalPath in s.dir && s.dir[row.finalPath].bytes == source
            && row.sha256 == Some(Sha256(source))
  {
    ReadyIsComplete(run, i, k);
    ServerFollowsSource(run, i, source, k);
  }
}
