/** What every step of the upload machine keeps.

    The first half needs no hypothesis.  The second half speaks about the bytes of one item
    and holds while nobody else puts a file at the item's destination path. */
module UploadInvariant {
  import opened Basics
  import opened CommitLedger
  import opened UploadMachine

  /* --------------------- rows, ledgers, locks, recovery ------------------ */

  ghost predicate LedgerOk(i: ItemId, l: Ledger, bound: nat) {
    && WellFormed(l, bound)
    && (forall k | k in l ::
          l[k].start < l[k].end && k == CheckpointKey(i, l[k].start, l[k].end - l[k].start, l[k].checksum))
  }

  ghost predicate ItemOk(i: ItemId, item: Item) {
    var row := item.row;
    && row.confirmed <= row.size
    && (item.partial.Present? ==>
          Min(row.confirmed, |item.partial.bytes|) <= item.partial.synced <= |item.partial.bytes|)
    && LedgerOk(i, item.ledger, row.confirmed)
    && (Unfinished(row) ==>
          row.partialPath && row.size > 0 && (row.state.Pending? <==> row.confirmed == 0))
  }

  /** Agreement between the row and the partial file, as startup reconciliation leaves it. */
  predicate Reconciled(item: Item) {
    Unfinished(item.row) ==>
      && item.row.confirmed < item.row.size
      && item.row.confirmed == (if item.partial.Present? then |item.partial.bytes| else 0)
      && (item.row.state.Pending? <==> item.row.confirmed == 0)
  }

  predicate PreCommit(stage: Stage) {
    stage.Admitted? || stage.Writing? || stage.Written? || stage.Synced?
  }

  /** The partial file is the confirmed prefix followed by `tail`. */
  predicate HasTail(f: File, start: nat, tail: seq<Byte>) {
    f.Present? && |f.bytes| == start + |tail| && f.bytes[start..] == tail
  }

  ghost predicate WriterOk(i: ItemId, item: Item, snap: Row, c: Checkpoint, stage: Stage) {
    && 0 < c.length && c.start + c.length <= item.row.size == c.total && c.key == KeyOf(i, c)
    && (PreCommit(stage) ==>
          && snap == item.row && Unfinished(snap) && c.start == snap.confirmed && c.key !in item.ledger)
    && match stage
       case Admitted => true
       case Writing(w) => w <= |c.body| && HasTail(item.partial, c.start, c.body[..w])
       case Written => |c.body| == c.length && Sha256(c.body) == c.checksum && HasTail(item.partial, c.start, c.body)
       case Synced =>
         && |c.body| == c.length && Sha256(c.body) == c.checksum && HasTail(item.partial, c.start, c.body)
         && item.partial.synced == |item.partial.bytes|
       case Committed => snap.confirmed == c.start + c.length <= item.row.confirmed
       case Trimmed => snap.confirmed == c.start + c.length <= item.row.confirmed
       case _ => true
  }

  ghost predicate RequestOk(i: ItemId, item: Item, q: Request) {
    && q.snap.size == item.row.size
    && (q.job.Upload? ==> WriterOk(i, item, q.snap, q.job.checkpoint, q.stage))
    && (WriterStage(q.stage) ==> q.job.Upload?)
    && (RecoveryStage(q.stage) ==> q.job.Recover?)
    && (q.job.Recover? ==> q.snap == item.row && Unfinished(q.snap))
    && (q.job == Recover(true) && (q.stage.Probing? || q.stage.CheckingPartial?) ==>
          FileOfSize(item.partial, q.snap.size))
    && (!WriterStage(q.stage) && !RecoveryStage(q.stage) ==>
          q.snap.confirmed == q.snap.size == item.row.confirmed)
    && (q.stage.Reconciling? ==>
          && q.stage.offset <= item.row.confirmed
          && q.stage.offset == (if item.partial.Present? then |item.partial.bytes| else 0)
          && LedgerOk(i, item.ledger, q.stage.offset))
  }

  predicate Writes(s: State, r: RequestId) {
    r in s.requests && s.requests[r].job.Upload?
  }

  /** A write lock is held exactly by the items that have a checkpoint in flight. */
  ghost predicate LocksOk(s: State) {
    && s.locks == (set r | r in s.requests && Writes(s, r) :: s.requests[r].item)
    && (forall r, t | Writes(s, r) && Writes(s, t) && s.requests[r].item == s.requests[t].item :: r == t)
    && |s.locks| <= MAX_ACTIVE_WRITES
  }

  ghost predicate ModeOk(s: State) {
    match s.mode
    case Serving => forall r | r in s.requests :: !s.requests[r].job.Recover?
    case Down => s.requests == map[]
    case Recovering(todo) =>
      && (forall i | i in todo :: i in s.items && Unfinished(s.items[i].row))
      && (forall r | r in s.requests :: s.requests[r].job.Recover? && s.requests[r].item in todo)
      && (forall r, t | r in s.requests && t in s.requests :: r == t)
      && (forall i | i in s.items && i !in todo :: Reconciled(s.items[i]))
  }

  ghost predicate DirOk(s: State) {
    forall p | p in s.dir ::
      s.dir[p].synced <= |s.dir[p].bytes| && (s.dir[p].origin.Published? ==> s.dir[p].origin.item in s.items)
  }

  ghost predicate ItemsOk(s: State) {
    forall i | i in s.items :: ItemOk(i, s.items[i])
  }

  ghost predicate RequestsOk(s: State) {
    forall r | r in s.requests ::
      && s.requests[r].item in s.items
      && RequestOk(s.requests[r].item, s.items[s.requests[r].item], s.requests[r])
      && FitsLimit(s.requests[r].job, s.chunkLimit)
  }

  predicate FitsLimit(job: Job, chunkLimit: nat) {
    job.Upload? ==> job.checkpoint.length <= chunkLimit
  }

  ghost predicate Inv(s: State) {
    LocksOk(s) && ModeOk(s) && DirOk(s) && ItemsOk(s) && RequestsOk(s)
  }

  function Initial(chunkLimit: nat): State {
    State(Serving, map[], map[], map[], {}, chunkLimit)
  }

  lemma InitialOk(chunkLimit: nat)
    ensures Inv(Initial(chunkLimit))
  {
  }

  /* one segment, seen from its own item */

  lemma LedgerCommitOk(i: ItemId, l: Ledger, c: Checkpoint, now: int)
    requires LedgerOk(i, l, c.start) && 0 < c.length && c.key == KeyOf(i, c)
    ensures LedgerOk(i, l[c.key := Commit(c.start, c.start + c.length, c.checksum, now)], c.start + c.length)
  {
    CommitKeepsLedger(l, c.key, Commit(c.start, c.start + c.length, c.checksum, now));
  }

  lemma LedgerDeletionOk(i: ItemId, l: Ledger, bound: nat, offset: nat, cutoff: int)
    requires LedgerOk(i, l, bound)
    ensures LedgerOk(i, RewindTo(l, offset), Min(offset, bound)) && LedgerOk(i, RewindTo(l, offset), bound)
    ensures LedgerOk(i, DropBefore(l, cutoff), bound)
  {
    DeletionKeepsLedger(l, offset, cutoff, 0, bound);
  }

  lemma LedgerTrimOk(i: ItemId, l: Ledger, bound: nat, keep: nat)
    requires LedgerOk(i, l, bound)
    ensures LedgerOk(i, Trim(l, keep), bound)
  {
    DeletionKeepsLedger(l, 0, 0, keep, bound);
  }

  lemma CommitStepItem(i: ItemId, item: Item, dir: Dir, q: Request, now: int)
    requires ItemOk(i, item) && RequestOk(i, item, q)
    requires q.stage.Synced? && CanStep(item, dir, q, Proceed)
    ensures ItemOk(i, WriterStep(item, dir, q, now).item)
  {
    LedgerCommitOk(i, item.ledger, q.job.checkpoint, now);
  }

  lemma CommitStepOk(i: ItemId, item: Item, dir: Dir, q: Request, now: int)
    requires ItemOk(i, item) && RequestOk(i, item, q)
    requires q.stage.Synced? && CanStep(item, dir, q, Proceed)
    ensures var f := WriterStep(item, dir, q, now);
            ItemOk(i, f.item) && f.next.Some? && RequestOk(i, f.item, f.next.value)
  {
    CommitStepItem(i, item, dir, q, now);
  }

  lemma WriterStepOk(i: ItemId, item: Item, dir: Dir, q: Request, now: int)
    requires ItemOk(i, item) && RequestOk(i, item, q)
    requires CanStep(item, dir, q, Proceed) && WriterStage(q.stage) && !q.stage.Synced?
    ensures var f := WriterStep(item, dir, q, now);
            ItemOk(i, f.item) && (f.next.Some? ==> RequestOk(i, f.item, f.next.value))
  {
    var c := q.job.checkpoint;
    match q.stage
    case Admitted =>
      assert c.start > 0 && FileOfSize(item.partial, c.start) ==> item.partial.bytes[c.start..] == [];
    case Writing(w) =>
      assert c.body[..w] == c.body;
    case Committed =>
      LedgerTrimOk(i, item.ledger, item.row.confirmed, MAX_COMMITS_PER_ITEM);
    case _ =>
  }

  lemma RecoveryStepOk(i: ItemId, item: Item, dir: Dir, q: Request)
    requires ItemOk(i, item) && RequestOk(i, item, q) && RecoveryStage(q.stage)
    ensures var f := RecoveryStep(item, dir, q);
            && ItemOk(i, f.item) && (f.next.Some? ==> RequestOk(i, f.item, f.next.value))
            && (f.next.None? ==> Reconciled(f.item))
  {
    if q.stage.Inspecting? {
      LedgerDeletionOk(i, item.ledger, item.row.confirmed,
                       if item.partial.Present? then |item.partial.bytes| else 0, 0);
    }
  }

  lemma CompletionStepItem(i: ItemId, item: Item, dir: Dir, q: Request)
    requires ItemOk(i, item) && RequestOk(i, item, q)
    requires CanStep(item, dir, q, Proceed) && !WriterStage(q.stage) && !RecoveryStage(q.stage)
    ensures var f := CompletionStep(i, item, dir, q);
            && ItemOk(i, f.item) && (f.next.None? && q.job.Recover? ==> Reconciled(f.item))
  {
    var f := CompletionStep(i, item, dir, q);
    assert f.item.ledger == item.ledger && f.item.row.confirmed == item.row.confirmed;
  }

  lemma CompletionStepRequest(i: ItemId, item: Item, dir: Dir, q: Request)
    requires ItemOk(i, item) && RequestOk(i, item, q)
    requires CanStep(item, dir, q, Proceed) && !WriterStage(q.stage) && !RecoveryStage(q.stage)
    ensures var f := CompletionStep(i, item, dir, q);
            f.next.Some? ==> RequestOk(i, f.item, f.next.value)
  {
    var f := CompletionStep(i, item, dir, q);
    if f.next.Some? {
      assert f.item.row == item.row && f.item.ledger == item.ledger;
      assert f.next.value.job == q.job && f.next.value.snap == q.snap;
    }
  }

  lemma WriteStepOk(i: ItemId, item: Item, dir: Dir, q: Request, n: nat)
    requires ItemOk(i, item) && RequestOk(i, item, q) && CanStep(item, dir, q, Write(n))
    ensures var f := Step(i, item, dir, q, Write(n), 0);
            ItemOk(i, f.item) && f.next.Some? && RequestOk(i, f.item, f.next.value)
  {
    var w, body := q.stage.written, q.job.checkpoint.body;
    assert body[..w + n] == body[..w] + body[w..w + n];
  }

  lemma ProceedOk(i: ItemId, item: Item, dir: Dir, q: Request, now: int)
    requires ItemOk(i, item) && RequestOk(i, item, q) && CanStep(item, dir, q, Proceed)
    ensures var f := Step(i, item, dir, q, Proceed, now);
            && ItemOk(i, f.item) && (f.next.Some? ==> RequestOk(i, f.item, f.next.value))
            && (f.next.None? && q.job.Recover? ==> Reconciled(f.item))
  {
    if q.stage.Synced? {
      CommitStepOk(i, item, dir, q, now);
    } else if WriterStage(q.stage) {
      WriterStepOk(i, item, dir, q, now);
    } else if RecoveryStage(q.stage) {
      RecoveryStepOk(i, item, dir, q);
    } else {
      CompletionStepItem(i, item, dir, q);
      CompletionStepRequest(i, item, dir, q);
    }
  }

  lemma StepOk(i: ItemId, item: Item, dir: Dir, q: Request, e: Event, now: int)
    requires ItemOk(i, item) && RequestOk(i, item, q) && CanStep(item, dir, q, e)
    ensures var f := Step(i, item, dir, q, e, now);
            && ItemOk(i, f.item) && (f.next.Some? ==> RequestOk(i, f.item, f.next.value))
            && (f.next.None? && q.job.Recover? ==> Reconciled(f.item))
  {
    match e
    case Proceed => ProceedOk(i, item, dir, q, now);
    case Write(n) => WriteStepOk(i, item, dir, q, n);
    case Target(_) =>
    case Fail(_) =>
  }

  /** Two requests on one item never disturb each other: a writer before its commit excludes
      everything else, and what comes after the commit only moves the row to ready. */
  lemma OtherRequestOk(i: ItemId, item: Item, dir: Dir, q: Request, e: Event, now: int, other: Request)
    requires ItemOk(i, item) && RequestOk(i, item, q) && RequestOk(i, item, other)
    requires CanStep(item, dir, q, e)
    requires !(q.job.Upload? && other.job.Upload?) && !q.job.Recover? && !other.job.Recover?
    ensures RequestOk(i, Step(i, item, dir, q, e, now).item, other)
  {
    assert !(q.job.Upload? && PreCommit(q.stage));
    assert !(other.job.Upload? && PreCommit(other.stage));
    assert !WriterStage(q.stage) ==> item.row.confirmed == item.row.size;
  }

  /* the whole system */

  lemma StepKeepsIdentity(i: ItemId, item: Item, dir: Dir, q: Request, e: Event, now: int)
    requires CanStep(item, dir, q, e)
    ensures var next := Step(i, item, dir, q, e, now).next;
            next.Some? ==>
              && next.value.item == q.item
              && (if q.job.Recover? then next.value.job.Recover? else next.value.job == q.job)
  {
  }

  predicate SameOwner(q: Request, f: Effect) {
    f.next.Some? ==>
      && f.next.value.item == q.item
      && (if q.job.Recover? then f.next.value.job.Recover? else f.next.value.job == q.job)
  }

  /** The writers of `s'` are those of `s`, but for `r`. */
  ghost predicate SameWriters(s: State, s': State, r: RequestId) {
    forall t {:trigger Writes(s', t)} {:trigger Writes(s, t)} | t != r ::
      (Writes(s', t) <==> Writes(s, t)) && (Writes(s, t) ==> s'.requests[t].item == s.requests[t].item)
  }

  lemma LocksKept(s: State, s': State, r: RequestId)
    requires LocksOk(s) && SameWriters(s, s', r) && s'.locks == s.locks
    requires (Writes(s', r) <==> Writes(s, r)) && (Writes(s, r) ==> s'.requests[r].item == s.requests[r].item)
    ensures LocksOk(s')
  {
  }

  lemma LocksReleased(s: State, s': State, r: RequestId)
    requires LocksOk(s) && SameWriters(s, s', r) && Writes(s, r) && !Writes(s', r)
    requires s'.locks == s.locks - {s.requests[r].item}
    ensures LocksOk(s')
  {
    SubsetSize(s'.locks, s.locks);
  }

  lemma LocksTaken(s: State, s': State, r: RequestId)
    requires LocksOk(s) && SameWriters(s, s', r) && !Writes(s, r) && Writes(s', r)
    requires s'.requests[r].item !in s.locks && |s.locks| < MAX_ACTIVE_WRITES
    requires s'.locks == s.locks + {s'.requests[r].item}
    ensures LocksOk(s')
  {
    forall t | Writes(s', t) && t != r
      ensures s'.requests[t].item in s.locks
    {
      assert Writes(s, t);
    }
    TakenLocks(s, s', r);
  }

  lemma TakenLocks(s: State, s': State, r: RequestId)
    requires s.locks == (set t | t in s.requests && Writes(s, t) :: s.requests[t].item)
    requires SameWriters(s, s', r) && !Writes(s, r) && Writes(s', r) && s'.locks == s.locks + {s'.requests[r].item}
    ensures s'.locks == (set t | t in s'.requests && Writes(s', t) :: s'.requests[t].item)
  {
    var writing := set t | t in s'.requests && Writes(s', t) :: s'.requests[t].item;
    forall i | i in s.locks
      ensures i in writing
    {
      var t :| t in s.requests && Writes(s, t) && s.requests[t].item == i;
      assert Writes(s', t);
    }
  }

  lemma LocksAfter(s: State, r: RequestId, f: Effect)
    requires LocksOk(s) && r in s.requests && SameOwner(s.requests[r], f)
    ensures LocksOk(Moved(s, r, f))
  {
    var s' := Moved(s, r, f);
    assert SameWriters(s, s', r);
    if f.next.None? && Writes(s, r) {
      LocksReleased(s, s', r);
    } else {
      LocksKept(s, s', r);
    }
  }

  lemma ModeAfter(s: State, r: RequestId, f: Effect)
    requires ModeOk(s) && r in s.requests && SameOwner(s.requests[r], f) && s.requests[r].item in s.items
    requires s.requests[r].job.Recover? ==>
               if f.next.Some? then Unfinished(f.item.row) else Reconciled(f.item)
    ensures ModeOk(Moved(s, r, f))
  {
  }

  predicate AddsOnlyFilesOf(i: ItemId, dir: Dir, dir': Dir) {
    forall p | p in dir' && !(p in dir && dir'[p] == dir[p]) ::
      dir'[p].synced <= |dir'[p].bytes| && dir'[p].origin == Published(i)
  }

  lemma DirAfter(s: State, r: RequestId, f: Effect)
    requires DirOk(s) && r in s.requests && s.requests[r].item in s.items
    requires AddsOnlyFilesOf(s.requests[r].item, s.dir, f.dir)
    ensures DirOk(Moved(s, r, f))
  {
  }

  lemma StepExtendsDir(i: ItemId, item: Item, dir: Dir, q: Request, e: Event, now: int)
    requires ItemOk(i, item) && CanStep(item, dir, q, e)
    ensures AddsOnlyFilesOf(i, dir, Step(i, item, dir, q, e, now).dir)
  {
  }

  lemma ItemsAfter(s: State, r: RequestId, f: Effect)
    requires ItemsOk(s) && RequestsOk(s) && r in s.requests && SameOwner(s.requests[r], f)
    requires ItemOk(s.requests[r].item, f.item)
    requires f.next.Some? ==> RequestOk(s.requests[r].item, f.item, f.next.value)
    requires forall t | t in s.requests && t != r && s.requests[t].item == s.requests[r].item ::
               RequestOk(s.requests[t].item, f.item, s.requests[t])
    ensures ItemsOk(Moved(s, r, f)) && RequestsOk(Moved(s, r, f))
  {
  }

  lemma AdvanceOk(s: State, r: RequestId, e: Event, now: int)
    requires Inv(s) && Enabled(s, Advance(r, e, now))
    ensures Inv(AfterAdvance(s, r, e, now))
  {
    var q := s.requests[r];
    var item := s.items[q.item];
    var f := Step(q.item, item, s.dir, q, e, now);
    StepOk(q.item, item, s.dir, q, e, now);
    StepKeepsIdentity(q.item, item, s.dir, q, e, now);
    StepExtendsDir(q.item, item, s.dir, q, e, now);
    forall t | t in s.requests && t != r && s.requests[t].item == q.item
      ensures RequestOk(q.item, f.item, s.requests[t])
    {
      OtherRequestOk(q.item, item, s.dir, q, e, now, s.requests[t]);
    }
    LocksAfter(s, r, f);
    ModeAfter(s, r, f);
    DirAfter(s, r, f);
    ItemsAfter(s, r, f);
  }

  lemma LocksAfterLocking(s: State, r: RequestId, q: Request)
    requires LocksOk(s) && r !in s.requests && q.job.Upload?
    requires q.item !in s.locks && |s.locks| < MAX_ACTIVE_WRITES
    ensures LocksOk(s.(requests := s.requests[r := q], locks := s.locks + {q.item}))
  {
    LocksTaken(s, s.(requests := s.requests[r := q], locks := s.locks + {q.item}), r);
  }

  lemma LocksAfterReplay(s: State, r: RequestId, q: Request)
    requires LocksOk(s) && r !in s.requests && !q.job.Upload?
    ensures LocksOk(s.(requests := s.requests[r := q]))
  {
    LocksKept(s, s.(requests := s.requests[r := q]), r);
  }

  /** What the checks in front of the lock establish. */
  lemma AcceptedFacts(s: State, i: ItemId, c: Checkpoint)
    requires Judge(s, i, c).Accepted?
    ensures i in s.items && i !in s.locks && |s.locks| < MAX_ACTIVE_WRITES
    ensures var item := s.items[i];
            && 0 < c.length <= s.chunkLimit && c.start + c.length <= item.row.size == c.total
            && c.key == KeyOf(i, c) && c.key !in item.ledger && Unfinished(item.row) && c.start == item.row.confirmed
  {
  }

  lemma AddedOk(s: State, r: RequestId, q: Request, locks: set<ItemId>)
    requires Inv(s) && s.mode.Serving? && r !in s.requests && !q.job.Recover?
    requires q.item in s.items && RequestOk(q.item, s.items[q.item], q) && FitsLimit(q.job, s.chunkLimit)
    requires LocksOk(s.(requests := s.requests[r := q], locks := locks))
    ensures Inv(s.(requests := s.requests[r := q], locks := locks))
  {
  }

  lemma ReceiveOk(s: State, r: RequestId, i: ItemId, c: Checkpoint)
    requires Inv(s) && Enabled(s, Receive(r, i, c))
    ensures Inv(AfterReceive(s, r, i, c))
  {
    var row := s.items[i].row;
    if Judge(s, i, c).Accepted? {
      AcceptedFacts(s, i, c);
      var q := Request(i, Upload(c), row, Admitted);
      LocksAfterLocking(s, r, q);
      AddedOk(s, r, q, s.locks + {i});
    } else if row.confirmed == row.size && !row.state.Ready? {
      var q := Request(i, Replay, row, Probing);
      LocksAfterReplay(s, r, q);
      AddedOk(s, r, q, s.locks);
    } else {
      AcknowledgedOk(s, i);
    }
  }

  lemma AcknowledgedOk(s: State, i: ItemId)
    requires Inv(s) && s.mode.Serving? && i in s.items
    ensures Inv(Acknowledged(s, i))
  {
    RewrittenOk(s, i, s.items[i].(acked := Max(s.items[i].acked, s.items[i].row.confirmed)), s.dir);
  }

  /** Rewriting one item outside any request. */
  lemma RewrittenOk(s: State, i: ItemId, item: Item, dir: Dir)
    requires Inv(s) && ItemOk(i, item) && (s.mode.Recovering? ==> i in s.mode.todo && Unfinished(item.row))
    requires forall r | r in s.requests && s.requests[r].item == i :: RequestOk(i, item, s.requests[r])
    requires AddsOnlyFilesOf(i, s.dir, dir)
    ensures Inv(s.(items := s.items[i := item], dir := dir))
  {
    var s' := s.(items := s.items[i := item], dir := dir);
    LocksUntouched(s, s');
    assert ModeOk(s') && DirOk(s') && ItemsOk(s');
  }

  lemma LocksUntouched(s: State, s': State)
    requires LocksOk(s) && s'.requests == s.requests && s'.locks == s.locks
    ensures LocksOk(s')
  {
    assert forall t :: Writes(s', t) <==> Writes(s, t);
  }

  lemma CrashOk(s: State, keep: map<ItemId, nat>, keepDir: map<Path, nat>)
    requires Inv(s) && Enabled(s, Crash(keep, keepDir))
    ensures Inv(AfterCrash(s, keep, keepDir))
  {
  }

  lemma SweptItemsOk(s: State, cutoff: int)
    requires ItemsOk(s) && RequestsOk(s)
    ensures ItemsOk(Swept(s, cutoff)) && RequestsOk(Swept(s, cutoff))
  {
    var s' := Swept(s, cutoff);
    forall i | i in s.items
      ensures ItemOk(i, s'.items[i])
    {
      LedgerDeletionOk(i, s.items[i].ledger, s.items[i].row.confirmed, 0, cutoff);
    }
    forall r | r in s.requests
      ensures RequestOk(s.requests[r].item, s'.items[s.requests[r].item], s.requests[r])
    {
      SweptRequestOk(s.requests[r].item, s.items[s.requests[r].item], s.requests[r], cutoff);
    }
  }

  lemma SweptModeOk(s: State, cutoff: int)
    requires ModeOk(s) && DirOk(s)
    ensures ModeOk(Swept(s, cutoff)) && DirOk(Swept(s, cutoff))
  {
  }

  lemma SweptRequestOk(i: ItemId, item: Item, q: Request, cutoff: int)
    requires RequestOk(i, item, q)
    ensures RequestOk(i, item.(ledger := DropBefore(item.ledger, cutoff)), q)
  {
    if q.stage.Reconciling? {
      LedgerDeletionOk(i, item.ledger, q.stage.offset, 0, cutoff);
    }
  }

  lemma ReopenOk(s: State, r: RequestId, i: ItemId)
    requires Inv(s) && Enabled(s, Reopen(r, i))
    ensures Inv(Apply(s, Reopen(r, i)))
  {
    var s' := Apply(s, Reopen(r, i));
    assert forall t :: !Writes(s, t) && !Writes(s', t);
    assert s'.items == s.items && s'.dir == s.dir && s'.locks == s.locks == {};
  }

  lemma RestartOk(s: State, l: Label)
    requires Inv(s) && Enabled(s, l) && (l.Boot? || l.Open?)
    ensures Inv(Apply(s, l))
  {
    var s' := Apply(s, l);
    assert forall t :: !Writes(s, t) && !Writes(s', t);
    assert s'.items == s.items && s'.dir == s.dir && s'.locks == s.locks == {};
  }

  lemma RegisterOk(s: State, i: ItemId, size: nat, path: Path)
    requires Inv(s) && Enabled(s, Register(i, size, path))
    ensures Inv(Apply(s, Register(i, size, path)))
  {
    RewrittenOk(s, i, Registered(size, path), Apply(s, Register(i, size, path)).dir);
  }

  lemma OutsideOk(s: State, l: Label)
    requires Inv(s) && Enabled(s, l) && (l.Cancel? || l.Damage? || l.ForeignFile?)
    ensures Inv(Apply(s, l))
  {
    match l
    case Cancel(i) => RewrittenOk(s, i, Apply(s, l).items[i], s.dir);
    case Damage(i, _) => RewrittenOk(s, i, Apply(s, l).items[i], s.dir);
    case ForeignFile(_, _) => LocksUntouched(s, Apply(s, l));
  }

  /** No step of the machine, no fault and no crash breaks the invariant. */
  lemma StepKeepsInv(s: State, l: Label)
    requires Inv(s) && Enabled(s, l)
    ensures Inv(Apply(s, l))
  {
    if l.Advance? {
      AdvanceOk(s, l.request, l.event, l.now);
    } else if l.Receive? {
      ReceiveOk(s, l.request, l.item, l.checkpoint);
    } else if l.Crash? {
      CrashOk(s, l.keep, l.keepDir);
    } else if l.Sweep? {
      SweptItemsOk(s, l.cutoff);
      SweptModeOk(s, l.cutoff);
      LocksUntouched(s, Swept(s, l.cutoff));
    } else if l.Head? {
      AcknowledgedOk(s, l.item);
    } else if l.Reopen? {
      ReopenOk(s, l.request, l.item);
    } else if l.Boot? || l.Open? {
      RestartOk(s, l);
    } else if l.Register? {
      RegisterOk(s, l.item, l.size, l.path);
    } else {
      OutsideOk(s, l);
    }
  }
}
