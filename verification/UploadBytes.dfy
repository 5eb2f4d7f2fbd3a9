/** Where the bytes of an item are, and why they are the right ones.

    Everything here is about one item whose destination path nobody else occupies once it
    is complete. */
module UploadBytes {
  import opened Basics
  import opened CommitLedger
  import opened UploadMachine
  import opened UploadInvariant

  predicate Owns(i: ItemId, row: Row, dir: Dir) {
    row.finalPath in dir && dir[row.finalPath].origin == Published(i)
  }

  /** The hypothesis the code does not enforce: when the item is complete, no foreign file and
      no file of another upload sits at its destination path. */
  predicate Undisturbed(i: ItemId, row: Row, dir: Dir) {
    row.confirmed == row.size && row.finalPath in dir ==> dir[row.finalPath].origin == Published(i)
  }

  function Data(i: ItemId, item: Item, dir: Dir): seq<Byte> {
    if Owns(i, item.row, dir) then dir[item.row.finalPath].bytes
    else if item.partial.Present? then item.partial.bytes else []
  }

  function Prefix(bytes: seq<Byte>, n: nat): seq<Byte> {
    if n <= |bytes| then bytes[..n] else bytes
  }

  /** The abstraction: the bytes the server vouches for. */
  function Confirmed(i: ItemId, item: Item, dir: Dir): seq<Byte> {
    Prefix(Data(i, item, dir), item.row.confirmed)
  }

  /** A retained commit record is the digest of the bytes it covers. */
  ghost predicate Faithful(l: Ledger, bytes: seq<Byte>) {
    forall k | k in l && l[k].start <= l[k].end <= |bytes| :: l[k].checksum == Sha256(bytes[l[k].start..l[k].end])
  }

  ghost predicate BytesOk(i: ItemId, item: Item, dir: Dir) {
    var row := item.row;
    && (Owns(i, row, dir) ==>
          var e := dir[row.finalPath];
          item.partial.Absent? && |e.bytes| == row.size == row.confirmed && e.synced == |e.bytes|)
    && (row.state.Ready? ==>
          Owns(i, row, dir) && row.sha256 == Some(Sha256(dir[row.finalPath].bytes)))
    && Faithful(item.ledger, Confirmed(i, item, dir))
  }

  /** Completion is under way: the whole file is either still partial or already published. */
  predicate WholeFile(i: ItemId, item: Item, dir: Dir) {
    Owns(i, item.row, dir) || FileOfSize(item.partial, item.row.size)
  }

  ghost predicate RequestBytesOk(i: ItemId, item: Item, dir: Dir, q: Request) {
    var own := Owns(i, item.row, dir);
    && q.snap.finalPath == item.row.finalPath
    && match q.stage
       case Committed => q.snap.confirmed == q.snap.size ==> WholeFile(i, item, dir)
       case Trimmed => q.snap.confirmed == q.snap.size ==> WholeFile(i, item, dir)
       case Adopting => own
       case CheckingPartial => q.job.Recover? ==> !own
       case Inspecting => !own
       case Reconciling(_) => !own
       case Finalizing => WholeFile(i, item, dir)
       case Hashed(sha) => WholeFile(i, item, dir) && (!own ==> sha == Sha256(item.partial.bytes))
       case Named(sha, p) =>
         WholeFile(i, item, dir) && (!own ==> sha == Sha256(item.partial.bytes) && p == item.row.finalPath)
       case Renamed(sha, p) => own && p == item.row.finalPath && sha == Sha256(dir[p].bytes)
       case _ => true
  }

  ghost predicate Sound(s: State, i: ItemId) {
    && i in s.items && BytesOk(i, s.items[i], s.dir)
    && forall r | r in s.requests && s.requests[r].item == i ::
         RequestBytesOk(i, s.items[i], s.dir, s.requests[r])
  }

  predicate Quiet(s: State, i: ItemId) {
    i in s.items && Undisturbed(i, s.items[i].row, s.dir)
  }

  function Bytes(s: State, i: ItemId): seq<Byte>
    requires i in s.items
  {
    Confirmed(i, s.items[i], s.dir)
  }

  /* ---------------------- one segment of the item itself ----------------- */

  predicate CommitsNow(q: Request, e: Event) {
    q.stage.Synced? && e.Proceed? && q.job.Upload?
  }

  /** Before the commit the tail written so far is invisible; the commit makes it visible whole. */
  lemma WriterBytes(i: ItemId, item: Item, dir: Dir, q: Request, now: int)
    requires ItemOk(i, item) && RequestOk(i, item, q) && BytesOk(i, item, dir)
    requires CanStep(item, dir, q, Proceed) && WriterStage(q.stage) && !q.stage.Synced?
    requires RequestBytesOk(i, item, dir, q)
    ensures var f := WriterStep(item, dir, q, now);
            && f.dir == dir && f.item.row == item.row
            && Confirmed(i, f.item, dir) == Confirmed(i, item, dir)
            && BytesOk(i, f.item, dir)
            && (f.next.Some? ==> RequestBytesOk(i, f.item, dir, f.next.value))
  {
  }

  lemma CommitConfirms(i: ItemId, item: Item, dir: Dir, q: Request, now: int)
    requires ItemOk(i, item) && RequestOk(i, item, q) && BytesOk(i, item, dir)
    requires q.stage.Synced? && CanStep(item, dir, q, Proceed)
    ensures var f := WriterStep(item, dir, q, now);
            var c, bytes := q.job.checkpoint, item.partial.bytes;
            && !Owns(i, item.row, dir) && c.start <= |bytes| && bytes[c.start..] == c.body
            && Confirmed(i, item, dir) == bytes[..c.start] && Confirmed(i, f.item, dir) == bytes
            && bytes == bytes[..c.start] + c.body
  {
    var c, bytes := q.job.checkpoint, item.partial.bytes;
    assert bytes == bytes[..c.start] + bytes[c.start..];
  }

  lemma CommitBytes(i: ItemId, item: Item, dir: Dir, q: Request, now: int)
    requires ItemOk(i, item) && RequestOk(i, item, q) && BytesOk(i, item, dir)
    requires q.stage.Synced? && CanStep(item, dir, q, Proceed) && RequestBytesOk(i, item, dir, q)
    ensures var f := WriterStep(item, dir, q, now);
            var c := q.job.checkpoint;
            && f.dir == dir && f.next.Some?
            && |Confirmed(i, item, dir)| == c.start
            && Confirmed(i, f.item, dir) == Confirmed(i, item, dir) + c.body
            && f.item.row.finalPath == item.row.finalPath
            && BytesOk(i, f.item, dir) && RequestBytesOk(i, f.item, dir, f.next.value)
  {
    CommitConfirms(i, item, dir, q, now);
    CommitFaithful(i, item, dir, q, now);
  }

  lemma CommitFaithful(i: ItemId, item: Item, dir: Dir, q: Request, now: int)
    requires ItemOk(i, item) && RequestOk(i, item, q) && BytesOk(i, item, dir)
    requires q.stage.Synced? && CanStep(item, dir, q, Proceed)
    ensures BytesOk(i, WriterStep(item, dir, q, now).item, dir)
  {
    var c, bytes := q.job.checkpoint, item.partial.bytes;
    CommitConfirms(i, item, dir, q, now);
    LongerFaithful(item.ledger, bytes, c, now);
    var after := WriterStep(item, dir, q, now).item;
    assert after.ledger == item.ledger[c.key := Commit(c.start, c.start + c.length, c.checksum, now)];
    assert Confirmed(i, after, dir) == bytes;
  }

  /** The old records still describe the old bytes, the new one the new. */
  lemma LongerFaithful(l: Ledger, bytes: seq<Byte>, c: Checkpoint, now: int)
    requires c.start <= |bytes| && bytes[c.start..] == c.body && |c.body| == c.length && Sha256(c.body) == c.checksum
    requires Faithful(l, bytes[..c.start]) && forall k | k in l :: l[k].start < l[k].end <= c.start
    ensures Faithful(l[c.key := Commit(c.start, c.start + c.length, c.checksum, now)], bytes)
  {
    var l' := l[c.key := Commit(c.start, c.start + c.length, c.checksum, now)];
    forall k | k in l' && l'[k].start <= l'[k].end <= |bytes|
      ensures l'[k].checksum == Sha256(bytes[l'[k].start..l'[k].end])
    {
      if k == c.key {
        assert bytes[c.start..c.start + c.length] == c.body;
      } else {
        assert bytes[..c.start][l[k].start..l[k].end] == bytes[l[k].start..l[k].end];
      }
    }
  }

  lemma CompletionBytes(i: ItemId, item: Item, dir: Dir, q: Request)
    requires ItemOk(i, item) && RequestOk(i, item, q) && BytesOk(i, item, dir)
    requires CanStep(item, dir, q, Proceed) && !WriterStage(q.stage) && !RecoveryStage(q.stage)
    requires RequestBytesOk(i, item, dir, q) && Undisturbed(i, item.row, dir)
    ensures var f := CompletionStep(i, item, dir, q);
            && f.item.row.finalPath == item.row.finalPath && f.item.ledger == item.ledger
            && Confirmed(i, f.item, f.dir) == Confirmed(i, item, dir)
            && BytesOk(i, f.item, f.dir)
            && (f.next.Some? ==> RequestBytesOk(i, f.item, f.dir, f.next.value))
  {
    if q.stage.Named? || q.stage.Renamed? || q.stage.Adopting? {
      PublishingBytes(i, item, dir, q);
    }
  }

  /** The three segments that touch row or directory. */
  lemma PublishingBytes(i: ItemId, item: Item, dir: Dir, q: Request)
    requires ItemOk(i, item) && RequestOk(i, item, q) && BytesOk(i, item, dir)
    requires CanStep(item, dir, q, Proceed) && (q.stage.Named? || q.stage.Renamed? || q.stage.Adopting?)
    requires RequestBytesOk(i, item, dir, q) && Undisturbed(i, item.row, dir)
    ensures var f := CompletionStep(i, item, dir, q);
            && f.item.row.finalPath == item.row.finalPath && f.item.ledger == item.ledger
            && Confirmed(i, f.item, f.dir) == Confirmed(i, item, dir)
            && BytesOk(i, f.item, f.dir)
            && (f.next.Some? ==> RequestBytesOk(i, f.item, f.dir, f.next.value))
  {
  }

  /** Startup reconciliation may lower the recorded offset, never the bytes behind it. */
  lemma RecoveryBytes(i: ItemId, item: Item, dir: Dir, q: Request)
    requires ItemOk(i, item) && RequestOk(i, item, q) && BytesOk(i, item, dir)
    requires RecoveryStage(q.stage) && RequestBytesOk(i, item, dir, q)
    ensures var f := RecoveryStep(item, dir, q);
            && f.item.row.finalPath == item.row.finalPath && f.dir == dir
            && Confirmed(i, f.item, dir) == Confirmed(i, item, dir)
            && BytesOk(i, f.item, dir)
            && (f.next.Some? ==> RequestBytesOk(i, f.item, dir, f.next.value))
  {
  }

  lemma FailureBytes(i: ItemId, item: Item, dir: Dir, q: Request, e: Event, now: int)
    requires ItemOk(i, item) && RequestOk(i, item, q) && BytesOk(i, item, dir)
    requires CanStep(item, dir, q, e) && !e.Proceed? && RequestBytesOk(i, item, dir, q)
    ensures var f := Step(i, item, dir, q, e, now);
            && f.item.row == item.row && f.item.ledger == item.ledger && f.dir == dir
            && Confirmed(i, f.item, dir) == Confirmed(i, item, dir)
            && BytesOk(i, f.item, dir)
            && (f.next.Some? && Undisturbed(i, item.row, dir) ==> RequestBytesOk(i, f.item, dir, f.next.value))
  {
  }

  /** One segment appends the checkpoint if it is the commit, and otherwise changes no
      confirmed byte. */
  lemma StepBytes(i: ItemId, item: Item, dir: Dir, q: Request, e: Event, now: int)
    requires ItemOk(i, item) && RequestOk(i, item, q) && BytesOk(i, item, dir)
    requires CanStep(item, dir, q, e) && RequestBytesOk(i, item, dir, q) && Undisturbed(i, item.row, dir)
    ensures var f := Step(i, item, dir, q, e, now);
            && f.item.row.finalPath == item.row.finalPath && BytesOk(i, f.item, f.dir)
            && (f.next.Some? ==> RequestBytesOk(i, f.item, f.dir, f.next.value))
            && Confirmed(i, f.item, f.dir) == Confirmed(i, item, dir)
                                              + (if CommitsNow(q, e) then q.job.checkpoint.body else [])
  {
    if !e.Proceed? {
      FailureBytes(i, item, dir, q, e, now);
    } else if q.stage.Synced? {
      CommitBytes(i, item, dir, q, now);
    } else if WriterStage(q.stage) {
      WriterBytes(i, item, dir, q, now);
    } else if RecoveryStage(q.stage) {
      RecoveryBytes(i, item, dir, q);
    } else {
      CompletionBytes(i, item, dir, q);
    }
  }

  lemma OtherRequestBytes(i: ItemId, item: Item, dir: Dir, q: Request, e: Event, now: int, other: Request)
    requires ItemOk(i, item) && RequestOk(i, item, q) && RequestOk(i, item, other) && BytesOk(i, item, dir)
    requires CanStep(item, dir, q, e) && Undisturbed(i, item.row, dir)
    requires RequestBytesOk(i, item, dir, q) && RequestBytesOk(i, item, dir, other)
    requires !(q.job.Upload? && other.job.Upload?) && !q.job.Recover? && !other.job.Recover?
    ensures var f := Step(i, item, dir, q, e, now); RequestBytesOk(i, f.item, f.dir, other)
  {
    assert !(q.job.Upload? && PreCommit(q.stage));
    assert !(other.job.Upload? && PreCommit(other.stage));
  }

  /* ------------------------------- the system ---------------------------- */

  /** Whether the file at `row.finalPath` is the item's own, and then that file, is the same. */
  predicate SameOwned(i: ItemId, row: Row, dir: Dir, dir': Dir) {
    (Owns(i, row, dir) <==> Owns(i, row, dir')) && (Owns(i, row, dir) ==> dir[row.finalPath] == dir'[row.finalPath])
  }

  lemma OnlyOwnPathMatters(i: ItemId, item: Item, dir: Dir, dir': Dir)
    requires SameOwned(i, item.row, dir, dir')
    ensures BytesOk(i, item, dir) ==> BytesOk(i, item, dir')
    ensures Confirmed(i, item, dir) == Confirmed(i, item, dir')
    ensures forall q :: RequestBytesOk(i, item, dir, q) ==> RequestBytesOk(i, item, dir', q)
  {
  }

  /** A file of another item cannot replace the published file of an item that stays undisturbed. */
  lemma OthersKeepAway(i: ItemId, j: ItemId, row: Row, dir: Dir, dir': Dir)
    requires i != j && AddsOnlyFilesOf(j, dir, dir') && dir.Keys <= dir'.Keys && Undisturbed(i, row, dir')
    requires Owns(i, row, dir) ==> row.confirmed == row.size
    ensures SameOwned(i, row, dir, dir')
  {
  }

  lemma StepKeepsFiles(i: ItemId, item: Item, dir: Dir, q: Request, e: Event, now: int)
    requires CanStep(item, dir, q, e)
    ensures dir.Keys <= Step(i, item, dir, q, e, now).dir.Keys
  {
  }

  /** How a label changes the confirmed bytes of item `i`. */
  ghost predicate Refines(s: State, l: Label, i: ItemId)
    requires Enabled(s, l) && i in s.items && i in Apply(s, l).items
  {
    var before, after := Bytes(s, i), Bytes(Apply(s, l), i);
    match l
    case Advance(r, e, _) =>
      var q := s.requests[r];
      if q.item == i && CommitsNow(q, e) then
        && q.job.checkpoint.start == |before| == s.items[i].row.confirmed
        && Sha256(q.job.checkpoint.body) == q.job.checkpoint.checksum
        && after == before + q.job.checkpoint.body
      else after == before
    case Damage(j, _) => if j == i then after <= before else after == before
    case Cancel(j) => if j == i then after <= before else after == before
    case _ => after == before
  }

  lemma AdvanceOwnSound(s: State, r: RequestId, e: Event, now: int)
    requires Inv(s) && Enabled(s, Advance(r, e, now))
    requires var i := s.requests[r].item; Sound(s, i) && Quiet(s, i)
    ensures var i := s.requests[r].item;
            Sound(AfterAdvance(s, r, e, now), i) && Refines(s, Advance(r, e, now), i)
  {
    var q := s.requests[r];
    var i, item := q.item, s.items[q.item];
    var f := Step(i, item, s.dir, q, e, now);
    StepBytes(i, item, s.dir, q, e, now);
    StepKeepsIdentity(i, item, s.dir, q, e, now);
    forall t | t in s.requests && t != r && s.requests[t].item == i
      ensures RequestBytesOk(i, f.item, f.dir, s.requests[t])
    {
      OtherRequestBytes(i, item, s.dir, q, e, now, s.requests[t]);
    }
    MovedSound(s, r, f);
    if CommitsNow(q, e) {
      CommitBytes(i, item, s.dir, q, now);
    }
  }

  lemma MovedSound(s: State, r: RequestId, f: Effect)
    requires r in s.requests && SameOwner(s.requests[r], f)
    requires var i := s.requests[r].item;
      && i in s.items && BytesOk(i, f.item, f.dir)
      && (f.next.Some? ==> RequestBytesOk(i, f.item, f.dir, f.next.value))
      && (forall t | t in s.requests && t != r && s.requests[t].item == i ::
            RequestBytesOk(i, f.item, f.dir, s.requests[t]))
    ensures var s' := Moved(s, r, f);
            && Sound(s', s.requests[r].item)
            && Bytes(s', s.requests[r].item) == Confirmed(s.requests[r].item, f.item, f.dir)
  {
  }

  lemma AdvanceOtherSound(s: State, r: RequestId, e: Event, now: int, i: ItemId)
    requires Inv(s) && Enabled(s, Advance(r, e, now)) && s.requests[r].item != i
    requires Sound(s, i) && Quiet(AfterAdvance(s, r, e, now), i)
    ensures Sound(AfterAdvance(s, r, e, now), i) && Refines(s, Advance(r, e, now), i)
  {
    var q := s.requests[r];
    var f := Step(q.item, s.items[q.item], s.dir, q, e, now);
    StepExtendsDir(q.item, s.items[q.item], s.dir, q, e, now);
    StepKeepsFiles(q.item, s.items[q.item], s.dir, q, e, now);
    StepKeepsIdentity(q.item, s.items[q.item], s.dir, q, e, now);
    UntouchedSound(s, r, f, i);
  }

  lemma UntouchedSound(s: State, r: RequestId, f: Effect, i: ItemId)
    requires r in s.requests && SameOwner(s.requests[r], f) && s.requests[r].item != i
    requires AddsOnlyFilesOf(s.requests[r].item, s.dir, f.dir) && s.dir.Keys <= f.dir.Keys
    requires Sound(s, i) && Quiet(Moved(s, r, f), i)
    ensures Sound(Moved(s, r, f), i) && Bytes(Moved(s, r, f), i) == Bytes(s, i)
  {
    OthersKeepAway(i, s.requests[r].item, s.items[i].row, s.dir, f.dir);
    OnlyOwnPathMatters(i, s.items[i], s.dir, f.dir);
  }

  lemma CrashSound(s: State, keep: map<ItemId, nat>, keepDir: map<Path, nat>, i: ItemId)
    requires Inv(s) && Enabled(s, Crash(keep, keepDir)) && Sound(s, i)
    ensures Sound(AfterCrash(s, keep, keepDir), i) && Bytes(AfterCrash(s, keep, keepDir), i) == Bytes(s, i)
  {
    var s' := AfterCrash(s, keep, keepDir);
    var item := s.items[i];
    if Owns(i, item.row, s.dir) {
      assert s'.dir[item.row.finalPath].bytes == s.dir[item.row.finalPath].bytes;
    }
    assert Bytes(s', i) == Bytes(s, i);
  }

  /** Steps that leave the item's row, files and ledger alone. */
  lemma BystanderSound(s: State, s': State, i: ItemId)
    requires Sound(s, i) && i in s'.items && s'.items[i].(acked := s.items[i].acked) == s.items[i]
    requires SameOwned(i, s.items[i].row, s.dir, s'.dir)
    requires forall r | r in s'.requests && s'.requests[r].item == i ::
               (r in s.requests && s.requests[r] == s'.requests[r])
               || RequestBytesOk(i, s.items[i], s.dir, s'.requests[r])
    ensures Sound(s', i) && Bytes(s', i) == Bytes(s, i)
  {
    OnlyOwnPathMatters(i, s.items[i], s.dir, s'.dir);
    assert BytesOk(i, s'.items[i], s'.dir);
  }

  lemma ReceiveSound(s: State, r: RequestId, j: ItemId, c: Checkpoint, i: ItemId)
    requires Enabled(s, Receive(r, j, c)) && Sound(s, i)
    ensures Sound(AfterReceive(s, r, j, c), i) && Bytes(AfterReceive(s, r, j, c), i) == Bytes(s, i)
  {
    BystanderSound(s, AfterReceive(s, r, j, c), i);
  }

  lemma RestartSound(s: State, l: Label, i: ItemId)
    requires Inv(s) && Enabled(s, l) && Sound(s, i)
    requires l.Boot? || l.Open? || l.Reopen?
    ensures Sound(Apply(s, l), i) && Bytes(Apply(s, l), i) == Bytes(s, i)
  {
    BystanderSound(s, Apply(s, l), i);
  }

  lemma ArrivalSound(s: State, l: Label, i: ItemId)
    requires Enabled(s, l) && Sound(s, i) && Quiet(Apply(s, l), i)
    requires l.Register? || l.ForeignFile? || l.Head?
    ensures Sound(Apply(s, l), i) && Bytes(Apply(s, l), i) == Bytes(s, i)
  {
    BystanderSound(s, Apply(s, l), i);
  }

  lemma SweepSound(s: State, cutoff: int, i: ItemId)
    requires Sound(s, i)
    ensures Sound(Swept(s, cutoff), i) && Bytes(Swept(s, cutoff), i) == Bytes(s, i)
  {
    var item, item' := s.items[i], Swept(s, cutoff).items[i];
    assert item' == item.(ledger := DropBefore(item.ledger, cutoff));
    assert Confirmed(i, item', s.dir) == Confirmed(i, item, s.dir);
  }

  /** Damage and cancellation only ever shorten the confirmed bytes of their own item. */
  lemma CancelSound(s: State, j: ItemId, i: ItemId)
    requires Inv(s) && Enabled(s, Cancel(j)) && Sound(s, i)
    ensures Sound(Apply(s, Cancel(j)), i) && Refines(s, Cancel(j), i)
  {
    LossSound(s, Cancel(j), i, Apply(s, Cancel(j)));
  }

  lemma DamageSound(s: State, j: ItemId, left: Option<nat>, i: ItemId)
    requires Inv(s) && Enabled(s, Damage(j, left)) && Sound(s, i)
    ensures Sound(Apply(s, Damage(j, left)), i) && Refines(s, Damage(j, left), i)
  {
    LossSound(s, Damage(j, left), i, Apply(s, Damage(j, left)));
  }

  /** An item that loses bytes keeps a prefix of them; the others keep everything. */
  lemma LossSound(s: State, l: Label, i: ItemId, s': State)
    requires Sound(s, i) && (l.Cancel? || l.Damage?) && l.item in s.items && !Busy(s, l.item)
    requires s'.requests == s.requests && s'.dir == s.dir && l.item in s'.items
    requires s'.items == s.items[l.item := s'.items[l.item]]
    requires Lost(s.items[l.item], s'.items[l.item])
    ensures Sound(s', i) && Bytes(s', i) <= Bytes(s, i) && (l.item != i ==> Bytes(s', i) == Bytes(s, i))
  {
    if l.item != i {
      BystanderSound(s, s', i);
    } else {
      assert forall r | r in s.requests :: s.requests[r].item != i;
      ShorterFaithful(s.items[i].ledger, Bytes(s, i), Bytes(s', i));
    }
  }

  /** Only the state may become cancelled, and the partial file may get shorter. */
  predicate Lost(before: Item, after: Item) {
    && after.ledger == before.ledger && after.row.(state := before.row.state) == before.row
    && (after.row.state == before.row.state || after.row.state.Cancelled?)
    && (after.partial.Absent?
        || (before.partial.Present? && after.partial.Present? && after.partial.bytes <= before.partial.bytes))
  }

  lemma ShorterFaithful(l: Ledger, bytes: seq<Byte>, prefix: seq<Byte>)
    requires Faithful(l, bytes) && prefix <= bytes
    ensures Faithful(l, prefix)
  {
    forall k | k in l && l[k].start <= l[k].end <= |prefix|
      ensures l[k].checksum == Sha256(prefix[l[k].start..l[k].end])
    {
      assert prefix[l[k].start..l[k].end] == bytes[l[k].start..l[k].end];
    }
  }

  /** Refinement: every step leaves the confirmed bytes of an undisturbed item alone, or is
      the one atomic append of a whole checkpoint, or is an outside rewind. */
  lemma StepRefines(s: State, l: Label, i: ItemId)
    requires Inv(s) && Enabled(s, l) && Sound(s, i) && Quiet(s, i) && Quiet(Apply(s, l), i)
    ensures Sound(Apply(s, l), i) && Refines(s, l, i)
  {
    if l.Advance? {
      if s.requests[l.request].item == i {
        AdvanceOwnSound(s, l.request, l.event, l.now);
      } else {
        AdvanceOtherSound(s, l.request, l.event, l.now, i);
      }
    } else if l.Crash? {
      CrashSound(s, l.keep, l.keepDir, i);
    } else if l.Sweep? {
      SweepSound(s, l.cutoff, i);
    } else if l.Cancel? {
      CancelSound(s, l.item, i);
    } else if l.Damage? {
      DamageSound(s, l.item, l.left, i);
    } else if l.Receive? {
      ReceiveSound(s, l.request, l.item, l.checkpoint, i);
    } else if l.Register? || l.ForeignFile? || l.Head? {
      ArrivalSound(s, l, i);
    } else {
      RestartSound(s, l, i);
    }
  }
}
