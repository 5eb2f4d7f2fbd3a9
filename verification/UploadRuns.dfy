/** The promises of the upload protocol, over whole runs. */
module UploadRuns {
  import opened Basics
  import opened CommitLedger
  import opened UploadMachine
  import opened UploadInvariant
  import opened UploadBytes

  datatype Run = Run(states: seq<State>, labels: seq<Label>)

  ghost predicate StepAt(run: Run, k: nat)
    requires |run.states| == |run.labels| + 1 && k < |run.labels|
  {
    Enabled(run.states[k], run.labels[k]) && run.states[k + 1] == Apply(run.states[k], run.labels[k])
  }

  ghost predicate IsRun(run: Run) {
    |run.states| == |run.labels| + 1 && forall k {:trigger StepAt(run, k)} | 0 <= k < |run.labels| :: StepAt(run, k)
  }

  ghost predicate FromStart(run: Run) {
    IsRun(run) && run.states[0] == Initial(run.states[0].chunkLimit)
  }

  ghost function Last(run: Run): State
    requires run.states != []
  {
    run.states[|run.states| - 1]
  }

  ghost predicate SameState(a: Run, b: Run, k: nat)
    requires k < |a.states| && k < |b.states|
  {
    a.states[k] == b.states[k]
  }

  /** Run `b` goes on from run `a`. */
  ghost predicate Continues(a: Run, b: Run) {
    |a.states| <= |b.states| && forall k {:trigger SameState(a, b, k)} | 0 <= k < |a.states| :: SameState(a, b, k)
  }

  lemma ContinuesTwice(a: Run, b: Run, c: Run)
    requires Continues(a, b) && Continues(b, c)
    ensures Continues(a, c)
  {
    forall k | 0 <= k < |a.states|
      ensures SameState(a, c, k)
    {
      assert SameState(a, b, k) && SameState(b, c, k);
    }
  }

  ghost function Extended(run: Run, l: Label): (longer: Run)
    requires FromStart(run) && Enabled(Last(run), l)
    ensures FromStart(longer) && Last(longer) == Apply(Last(run), l) && Continues(run, longer)
  {
    var longer := Run(run.states + [Apply(Last(run), l)], run.labels + [l]);
    assert forall k {:trigger StepAt(longer, k)} | 0 <= k < |longer.labels| :: StepAt(longer, k) by {
      forall k | 0 <= k < |longer.labels|
        ensures StepAt(longer, k)
      {
        assert k < |run.labels| ==> StepAt(run, k);
      }
    }
    assert forall k {:trigger SameState(run, longer, k)} | 0 <= k < |run.states| :: SameState(run, longer, k);
    longer
  }

  /** Throughout the run nobody else's file sits at the destination path of item `i`. */
  ghost predicate QuietThroughout(run: Run, i: ItemId) {
    forall k | 0 <= k < |run.states| && i in run.states[k].items :: Quiet(run.states[k], i)
  }

  /** The two steps that may throw bytes of item `i` away: outside damage and cancellation. */
  predicate Loses(l: Label, i: ItemId) {
    (l.Damage? || l.Cancel?) && l.item == i
  }

  lemma {:induction false} ReachableInv(run: Run, k: nat)
    requires FromStart(run) && k < |run.states|
    ensures Inv(run.states[k])
  {
    if k == 0 {
      InitialOk(run.states[0].chunkLimit);
    } else {
      ReachableInv(run, k - 1);
      assert StepAt(run, k - 1);
      StepKeepsInv(run.states[k - 1], run.labels[k - 1]);
    }
  }

  /** Locks over whole runs: one per writer, one writer per item, four overall, and none
      left behind when no checkpoint is in flight, whatever paths the requests took. */
  lemma WriteLocksNeverLeak(run: Run, k: nat)
    requires FromStart(run) && k < |run.states|
    ensures var s := run.states[k];
            && |s.locks| <= MAX_ACTIVE_WRITES
            && (forall i :: i in s.locks <==> exists r :: Writes(s, r) && s.requests[r].item == i)
            && (forall r, t | Writes(s, r) && Writes(s, t) && s.requests[r].item == s.requests[t].item :: r == t)
            && ((forall r :: !Writes(s, r)) ==> s.locks == {})
  {
    ReachableInv(run, k);
  }

  lemma RegisteredSound(s: State, i: ItemId, size: nat, path: Path)
    requires Inv(s) && Enabled(s, Register(i, size, path))
    ensures var s' := Apply(s, Register(i, size, path)); Sound(s', i) && Quiet(s', i) && Intact(s', i)
  {
    assert forall r | r in s.requests :: s.requests[r].item != i;
  }

  /** A segment changes its own item and no other. */
  lemma SegmentItems(s: State, r: RequestId, e: Event, now: int)
    requires Enabled(s, Advance(r, e, now))
    ensures var q := s.requests[r];
      var f := Step(q.item, s.items[q.item], s.dir, q, e, now);
      && Apply(s, Advance(r, e, now)) == Moved(s, r, f)
      && Apply(s, Advance(r, e, now)).items == s.items[q.item := f.item]
  {
  }

  /** What the other steps leave of an item: all of its row but the state, and all commit
      records but those that a sweep drops. */
  ghost predicate Kept(before: Item, after: Item, l: Label, i: ItemId) {
    && after.row.(state := before.row.state) == before.row && SubLedger(after.ledger, before.ledger)
    && (after.row.state == before.row.state || (l == Cancel(i) && after.row.state.Cancelled?))
    && (!l.Sweep? ==> after.ledger == before.ledger)
  }

  lemma LabelKeeps(s: State, l: Label, i: ItemId)
    requires Enabled(s, l) && i in s.items && !l.Advance?
    ensures i in Apply(s, l).items && Kept(s.items[i], Apply(s, l).items[i], l, i)
  {
    match l
    case Receive(r, j, c) => ReceiveKeeps(s, r, j, c, i);
    case Crash(keep, keepDir) => CrashKeeps(s, keep, keepDir, i);
    case Sweep(cutoff) => SweepKeeps(s, cutoff, i);
    case _ =>
  }

  lemma ReceiveKeeps(s: State, r: RequestId, j: ItemId, c: Checkpoint, i: ItemId)
    requires Enabled(s, Receive(r, j, c)) && i in s.items
    ensures var s' := AfterReceive(s, r, j, c);
      i in s'.items && s'.items[i].row == s.items[i].row && s'.items[i].ledger == s.items[i].ledger
  {
  }

  lemma CrashKeeps(s: State, keep: map<ItemId, nat>, keepDir: map<Path, nat>, i: ItemId)
    requires Enabled(s, Crash(keep, keepDir)) && i in s.items
    ensures var s' := AfterCrash(s, keep, keepDir);
      i in s'.items && s'.items[i].row == s.items[i].row && s'.items[i].ledger == s.items[i].ledger
  {
  }

  lemma SweepKeeps(s: State, cutoff: int, i: ItemId)
    requires i in s.items
    ensures i in Swept(s, cutoff).items && Swept(s, cutoff).items[i].row == s.items[i].row
    ensures Swept(s, cutoff).items[i].ledger == DropBefore(s.items[i].ledger, cutoff)
  {
  }

  lemma ItemsStay(s: State, l: Label)
    requires Inv(s) && Enabled(s, l)
    ensures s.items.Keys <= Apply(s, l).items.Keys
    ensures forall j | j in Apply(s, l).items && j !in s.items :: l.Register? && l.item == j
  {
    if l.Advance? {
      SegmentItems(s, l.request, l.event, l.now);
    } else {
      forall j | j in s.items
        ensures j in Apply(s, l).items
      {
        LabelKeeps(s, l, j);
      }
      NewItems(s, l);
    }
  }

  lemma NewItems(s: State, l: Label)
    requires Enabled(s, l) && !l.Advance?
    ensures forall j | j in Apply(s, l).items && j !in s.items :: l.Register? && l.item == j
  {
    match l
    case Crash(keep, keepDir) => assert SurvivingItems(s.items, keep).Keys == s.items.Keys;
    case Sweep(cutoff) => assert Swept(s, cutoff).items.Keys == s.items.Keys;
    case _ =>
  }

  lemma {:induction false} ReachableSound(run: Run, i: ItemId, k: nat)
    requires FromStart(run) && QuietThroughout(run, i) && k < |run.states| && i in run.states[k].items
    ensures Sound(run.states[k], i)
  {
    if k > 0 {
      var s, l := run.states[k - 1], run.labels[k - 1];
      assert StepAt(run, k - 1) && Quiet(run.states[k], i);
      ReachableInv(run, k - 1);
      if i in s.items {
        ReachableSound(run, i, k - 1);
        StepRefines(s, l, i);
      } else {
        ItemsStay(s, l);
        RegisteredSound(s, i, l.size, l.path);
      }
    }
  }

  /** The refinement over every run: each step is a stutter, an append of one whole verified
      checkpoint at the commit, or a rewind by damage or cancellation. */
  lemma RunRefinesAppendLog(run: Run, i: ItemId, k: nat)
    requires FromStart(run) && QuietThroughout(run, i) && k < |run.labels| && i in run.states[k].items
    ensures StepAt(run, k) && i in run.states[k + 1].items && Refines(run.states[k], run.labels[k], i)
  {
    var s, l := run.states[k], run.labels[k];
    assert StepAt(run, k);
    ReachableInv(run, k);
    ItemsStay(s, l);
    ReachableSound(run, i, k);
    StepRefines(s, l, i);
  }

  /** A finished upload is the whole confirmed sequence, under its registered name, with its digest. */
  lemma ReadyIsComplete(run: Run, i: ItemId, k: nat)
    requires FromStart(run) && QuietThroughout(run, i) && k < |run.states| && i in run.states[k].items
    requires run.states[k].items[i].row.state.Ready?
    ensures var s := run.states[k];
            var row := s.items[i].row;
            && row.finalPath in s.dir && s.dir[row.finalPath].bytes == Bytes(s, i)
            && |Bytes(s, i)| == row.size == row.confirmed
            && row.sha256 == Some(Sha256(Bytes(s, i)))
  {
    ReachableSound(run, i, k);
  }

  /* --------------------------- nothing is lost --------------------------- */

  /** Every confirmed byte exists, and no response has promised more. */
  predicate Intact(s: State, i: ItemId) {
    && i in s.items
    && s.items[i].acked <= s.items[i].row.confirmed
    && (!s.items[i].row.state.Cancelled? ==> s.items[i].row.confirmed <= |Data(i, s.items[i], s.dir)|)
  }

  lemma StepIntact(i: ItemId, item: Item, dir: Dir, q: Request, e: Event, now: int)
    requires ItemOk(i, item) && RequestOk(i, item, q) && BytesOk(i, item, dir)
    requires CanStep(item, dir, q, e) && RequestBytesOk(i, item, dir, q) && Undisturbed(i, item.row, dir)
    requires item.acked <= item.row.confirmed
    requires !item.row.state.Cancelled? ==> item.row.confirmed <= |Data(i, item, dir)|
    ensures var f := Step(i, item, dir, q, e, now);
            && f.item.acked <= f.item.row.confirmed && item.row.confirmed <= f.item.row.confirmed
            && (!f.item.row.state.Cancelled? ==> f.item.row.confirmed <= |Data(i, f.item, f.dir)|)
  {
    if WriterStage(q.stage) {
      WriterIntact(i, item, dir, q, e, now);
    } else if RecoveryStage(q.stage) {
      RecoveryIntact(i, item, dir, q, e, now);
    } else {
      CompletionIntact(i, item, dir, q, e, now);
    }
  }

  lemma WriterIntact(i: ItemId, item: Item, dir: Dir, q: Request, e: Event, now: int)
    requires ItemOk(i, item) && RequestOk(i, item, q) && BytesOk(i, item, dir) && WriterStage(q.stage)
    requires CanStep(item, dir, q, e) && RequestBytesOk(i, item, dir, q)
    requires item.acked <= item.row.confirmed
    requires !item.row.state.Cancelled? ==> item.row.confirmed <= |Data(i, item, dir)|
    ensures var f := Step(i, item, dir, q, e, now);
            && f.item.acked <= f.item.row.confirmed && item.row.confirmed <= f.item.row.confirmed
            && (!f.item.row.state.Cancelled? ==> f.item.row.confirmed <= |Data(i, f.item, f.dir)|)
  {
  }

  lemma RecoveryIntact(i: ItemId, item: Item, dir: Dir, q: Request, e: Event, now: int)
    requires ItemOk(i, item) && RequestOk(i, item, q) && RecoveryStage(q.stage)
    requires CanStep(item, dir, q, e) && RequestBytesOk(i, item, dir, q)
    requires item.acked <= item.row.confirmed <= |Data(i, item, dir)|
    ensures var f := Step(i, item, dir, q, e, now);
            && f.item.acked <= f.item.row.confirmed
            && item.row.confirmed <= f.item.row.confirmed <= |Data(i, f.item, f.dir)|
  {
  }

  lemma CompletionIntact(i: ItemId, item: Item, dir: Dir, q: Request, e: Event, now: int)
    requires ItemOk(i, item) && RequestOk(i, item, q) && BytesOk(i, item, dir)
    requires !WriterStage(q.stage) && !RecoveryStage(q.stage)
    requires CanStep(item, dir, q, e) && RequestBytesOk(i, item, dir, q) && Undisturbed(i, item.row, dir)
    requires item.acked <= item.row.confirmed
    requires !item.row.state.Cancelled? ==> item.row.confirmed <= |Data(i, item, dir)|
    ensures var f := Step(i, item, dir, q, e, now);
            && f.item.acked <= f.item.row.confirmed && item.row.confirmed <= f.item.row.confirmed
            && (!f.item.row.state.Cancelled? ==> f.item.row.confirmed <= |Data(i, f.item, f.dir)|)
  {
  }

  lemma LabelIntact(s: State, l: Label, i: ItemId)
    requires Inv(s) && Enabled(s, l) && Sound(s, i) && Quiet(s, i) && Quiet(Apply(s, l), i) && Intact(s, i)
    requires !(l.Damage? && l.item == i)
    ensures Intact(Apply(s, l), i) && s.items[i].row.confirmed <= Apply(s, l).items[i].row.confirmed
  {
    if l.Advance? {
      AdvanceIntact(s, l.request, l.event, l.now, i);
    } else if l.Crash? {
      CrashSound(s, l.keep, l.keepDir, i);
    } else if l.Sweep? {
      assert Swept(s, l.cutoff).items[i].row == s.items[i].row;
    } else if l.Receive? {
      ReceiveIntact(s, l.request, l.item, l.checkpoint, i);
    } else if l.Cancel? {
    } else {
      ArrivalIntact(s, l, i);
    }
  }

  lemma AdvanceIntact(s: State, r: RequestId, e: Event, now: int, i: ItemId)
    requires Inv(s) && Enabled(s, Advance(r, e, now)) && Sound(s, i) && Intact(s, i)
    requires Quiet(s, i) && Quiet(AfterAdvance(s, r, e, now), i)
    ensures var s' := AfterAdvance(s, r, e, now);
            Intact(s', i) && s.items[i].row.confirmed <= s'.items[i].row.confirmed
  {
    var q := s.requests[r];
    var f := Step(q.item, s.items[q.item], s.dir, q, e, now);
    if q.item == i {
      StepIntact(i, s.items[i], s.dir, q, e, now);
      assert Moved(s, r, f).items[i] == f.item;
    } else {
      BystanderIntact(s, r, e, now, i);
    }
  }

  lemma BystanderIntact(s: State, r: RequestId, e: Event, now: int, i: ItemId)
    requires Inv(s) && Enabled(s, Advance(r, e, now)) && s.requests[r].item != i
    requires Sound(s, i) && Intact(s, i) && Quiet(AfterAdvance(s, r, e, now), i)
    ensures var s' := AfterAdvance(s, r, e, now);
            Intact(s', i) && s'.items[i] == s.items[i]
  {
    var q := s.requests[r];
    var item := s.items[q.item];
    var f := Step(q.item, item, s.dir, q, e, now);
    StepExtendsDir(q.item, item, s.dir, q, e, now);
    StepKeepsFiles(q.item, item, s.dir, q, e, now);
    OthersKeepAway(i, q.item, s.items[i].row, s.dir, f.dir);
    assert Moved(s, r, f).items[i] == s.items[i];
  }

  lemma ReceiveIntact(s: State, r: RequestId, j: ItemId, c: Checkpoint, i: ItemId)
    requires Enabled(s, Receive(r, j, c)) && Intact(s, i)
    ensures Intact(AfterReceive(s, r, j, c), i)
    ensures AfterReceive(s, r, j, c).items[i].row == s.items[i].row
  {
  }

  lemma ArrivalIntact(s: State, l: Label, i: ItemId)
    requires Inv(s) && Enabled(s, l) && Quiet(Apply(s, l), i) && Intact(s, i)
    requires l.Register? || l.Head? || l.Boot? || l.Reopen? || l.Open? || l.ForeignFile? || (l.Damage? && l.item != i)
    ensures Intact(Apply(s, l), i) && s.items[i].row.confirmed <= Apply(s, l).items[i].row.confirmed
  {
    var s' := Apply(s, l);
    ArrivalKeeps(s, l, i);
    assert Data(i, s'.items[i], s'.dir) == Data(i, s.items[i], s.dir);
  }

  lemma ArrivalKeeps(s: State, l: Label, i: ItemId)
    requires Enabled(s, l) && i in s.items && Quiet(Apply(s, l), i)
    requires l.Register? || l.Head? || l.Boot? || l.Reopen? || l.Open? || l.ForeignFile? || (l.Damage? && l.item != i)
    ensures var s' := Apply(s, l);
      && i in s'.items && s'.items[i].row == s.items[i].row && s'.items[i].partial == s.items[i].partial
      && s'.items[i].acked <= Max(s.items[i].acked, s.items[i].row.confirmed)
      && SameOwned(i, s.items[i].row, s.dir, s'.dir)
  {
  }

  ghost predicate Undamaged(run: Run, i: ItemId) {
    forall k | 0 <= k < |run.labels| :: !(run.labels[k].Damage? && run.labels[k].item == i)
  }

  lemma {:induction false} ReachableIntact(run: Run, i: ItemId, k: nat)
    requires FromStart(run) && QuietThroughout(run, i) && Undamaged(run, i)
    requires k < |run.states| && i in run.states[k].items
    ensures Intact(run.states[k], i)
  {
    if k > 0 {
      var s, l := run.states[k - 1], run.labels[k - 1];
      assert StepAt(run, k - 1) && Quiet(run.states[k], i);
      ReachableInv(run, k - 1);
      if i in s.items {
        ReachableSound(run, i, k - 1);
        ReachableIntact(run, i, k - 1);
        LabelIntact(s, l, i);
      } else {
        ItemsStay(s, l);
        RegisteredSound(s, i, l.size, l.path);
      }
    }
  }

  lemma OffsetStep(run: Run, i: ItemId, k: nat)
    requires FromStart(run) && QuietThroughout(run, i) && Undamaged(run, i)
    requires k < |run.labels| && i in run.states[k].items
    ensures i in run.states[k + 1].items
    ensures run.states[k].items[i].row.confirmed <= run.states[k + 1].items[i].row.confirmed
  {
    var s, l := run.states[k], run.labels[k];
    assert StepAt(run, k);
    ReachableInv(run, k);
    ItemsStay(s, l);
    assert Quiet(s, i) && Quiet(run.states[k + 1], i);
    ReachableSound(run, i, k);
    ReachableIntact(run, i, k);
    LabelIntact(s, l, i);
  }

  /** The recorded offset never decreases, through crashes, recoveries and lost answers. */
  lemma {:induction false} OffsetsNeverDecrease(run: Run, i: ItemId, j: nat, k: nat)
    requires FromStart(run) && QuietThroughout(run, i) && Undamaged(run, i)
    requires j <= k < |run.states| && i in run.states[j].items
    ensures i in run.states[k].items
    ensures run.states[j].items[i].row.confirmed <= run.states[k].items[i].row.confirmed
  {
    if j < k {
      OffsetsNeverDecrease(run, i, j, k - 1);
      OffsetStep(run, i, k - 1);
    }
  }

  function SyncedLength(i: ItemId, item: Item, dir: Dir): nat {
    if Owns(i, item.row, dir) then dir[item.row.finalPath].synced
    else if item.partial.Present? then item.partial.synced else 0
  }

  /** The contract of the product: whatever offset any response carried, at every later time
      the database records at least that offset, and that many bytes are fsynced. */
  lemma AcknowledgedIsDurable(run: Run, i: ItemId, j: nat, k: nat)
    requires FromStart(run) && QuietThroughout(run, i) && Undamaged(run, i)
    requires j <= k < |run.states| && i in run.states[j].items
    ensures i in run.states[k].items
    ensures var acked, item := run.states[j].items[i].acked, run.states[k].items[i];
            && acked <= item.row.confirmed
            && (!item.row.state.Cancelled? ==>
                  && acked <= SyncedLength(i, item, run.states[k].dir)
                  && acked <= |Bytes(run.states[k], i)| == item.row.confirmed)
  {
    OffsetsNeverDecrease(run, i, j, k);
    ReachableIntact(run, i, j);
    ReachableIntact(run, i, k);
    ReachableInv(run, k);
    ReachableSound(run, i, k);
  }

  lemma RefinesKeepsPrefix(s: State, l: Label, i: ItemId)
    requires Enabled(s, l) && i in s.items && i in Apply(s, l).items && Refines(s, l, i) && !Loses(l, i)
    ensures Bytes(s, i) <= Bytes(Apply(s, l), i)
  {
  }

  lemma PrefixStep(run: Run, i: ItemId, k: nat)
    requires FromStart(run) && QuietThroughout(run, i)
    requires k < |run.labels| && i in run.states[k].items && !Loses(run.labels[k], i)
    ensures i in run.states[k + 1].items && Bytes(run.states[k], i) <= Bytes(run.states[k + 1], i)
  {
    RunRefinesAppendLog(run, i, k);
    assert StepAt(run, k);
    RefinesKeepsPrefix(run.states[k], run.labels[k], i);
  }

  /** Confirmed bytes are never rewritten: unless the item is damaged or cancelled, what was
      confirmed stays a prefix of what is confirmed later. */
  lemma {:induction false} ConfirmedBytesAreFinal(run: Run, i: ItemId, j: nat, k: nat)
    requires FromStart(run) && QuietThroughout(run, i)
    requires j <= k < |run.states| && i in run.states[j].items
    requires forall m | j <= m < k :: !Loses(run.labels[m], i)
    ensures i in run.states[k].items && Bytes(run.states[j], i) <= Bytes(run.states[k], i)
  {
    if j < k {
      ConfirmedBytesAreFinal(run, i, j, k - 1);
      PrefixStep(run, i, k - 1);
    }
  }

  predicate Commits(s: State, l: Label, i: ItemId) {
    l.Advance? && l.request in s.requests && s.requests[l.request].item == i
    && CommitsNow(s.requests[l.request], l.event)
  }

  /* ----------------------------- failure safety -------------------------- */

  /** What an admitted checkpoint meets at the file: it may write exactly when it starts at
      offset 0 (which empties the file) or the file ends at its start.  How long a file that
      does not is refused is the subject of `UploadTails`. */
  lemma WritesAtEndOnly(i: ItemId, item: Item, dir: Dir, q: Request, now: int)
    requires ItemOk(i, item) && RequestOk(i, item, q) && q.stage.Admitted?
    ensures var f := Step(i, item, dir, q, Proceed, now);
            && (f.next.Some? <==> item.row.confirmed == 0 || FileOfSize(item.partial, item.row.confirmed))
            && (f.next.Some? ==> FileOfSize(f.item.partial, item.row.confirmed))
            && (f.next.None? ==> f.item == item && f.dir == dir)
  {
  }

  /** After a failure whose truncate succeeded the same checkpoint is accepted again; that it
      then goes through is `UploadRetry.FailedCanBeRetried`. */
  lemma RetryIsAccepted(s: State, r: RequestId, now: int)
    requires Inv(s) && s.mode.Serving? && Writes(s, r) && RollsBack(s.requests[r].stage)
    requires Enabled(s, Advance(r, Fail(true), now))
    ensures var i, c := s.requests[r].item, s.requests[r].job.checkpoint;
            var s' := Apply(s, Advance(r, Fail(true), now));
            && Judge(s', i, c).Accepted?
            && FileOfSize(s'.items[i].partial, c.start)
  {
    var q := s.requests[r];
    var cut := s.items[q.item].(partial := Truncated(s.items[q.item].partial, q.job.checkpoint.start));
    var f := Effect(cut, s.dir, None);
    assert Apply(s, Advance(r, Fail(true), now)) == Moved(s, r, f);
    LockFreed(s, r);
  }

  lemma LockFreed(s: State, r: RequestId)
    requires LocksOk(s) && Writes(s, r)
    ensures s.requests[r].item in s.locks && |s.locks - {s.requests[r].item}| < MAX_ACTIVE_WRITES
  {
    assert |s.locks - {s.requests[r].item}| == |s.locks| - 1;
  }
}
