/** The commit records of an upload over whole runs: without holes between rewinds. */
module UploadLedgers {
  import opened Basics
  import opened CommitLedger
  import opened UploadMachine
  import opened UploadInvariant
  import opened UploadBytes
  import opened UploadRuns
  import opened UploadExactlyOnce

  /** Recovery finds fewer bytes than recorded and deletes the records beyond them. */
  predicate Forgets(s: State, l: Label, i: ItemId) {
    && l.Advance? && l.event.Proceed? && l.request in s.requests && i in s.items
    && s.requests[l.request].item == i && s.requests[l.request].stage.Inspecting?
    && !(s.items[i].partial.Present? && s.items[i].row.confirmed <= |s.items[i].partial.bytes|)
  }

  ghost predicate NoHoles(item: Item) {
    Consecutive(item.ledger, item.row.confirmed)
  }

  lemma CommitEffect(item: Item, dir: Dir, q: Request, now: int)
    requires q.stage.Synced? && CanStep(item, dir, q, Proceed)
    ensures var c := q.job.checkpoint;
      var after := WriterStep(item, dir, q, now).item;
      && after.ledger == item.ledger[c.key := Commit(c.start, c.start + c.length, c.checksum, now)]
      && after.row.confirmed == c.start + c.length
  {
  }

  lemma CommitLeavesNoHole(i: ItemId, item: Item, dir: Dir, q: Request, now: int)
    requires ItemOk(i, item) && RequestOk(i, item, q) && NoHoles(item)
    requires q.stage.Synced? && CanStep(item, dir, q, Proceed)
    ensures NoHoles(WriterStep(item, dir, q, now).item)
  {
    var c := q.job.checkpoint;
    CommitEffect(item, dir, q, now);
    NewRecordLeavesNoHole(item.ledger, c, now);
  }

  lemma NewRecordLeavesNoHole(l: Ledger, c: Checkpoint, now: int)
    requires WellFormed(l, c.start) && Consecutive(l, c.start) && c.key !in l && 0 < c.length
    ensures Consecutive(l[c.key := Commit(c.start, c.start + c.length, c.checksum, now)], c.start + c.length)
  {
    CommitKeepsLedger(l, c.key, Commit(c.start, c.start + c.length, c.checksum, now));
  }

  /** A ledger without holes reaches up to the recorded offset, so a reconciliation that finds
      no record beyond its own offset has not lowered it, or there is no record at all. */
  lemma ReconcilingLeavesNoHole(i: ItemId, item: Item, offset: nat)
    requires ItemOk(i, item) && NoHoles(item) && LedgerOk(i, item.ledger, offset) && offset <= item.row.confirmed
    ensures Consecutive(item.ledger, offset)
  {
    if item.ledger != map[] {
      var top := HighestRow(item.ledger, offset);
      assert Followed(item.ledger, top, item.row.confirmed);
      assert item.ledger[top].end == item.row.confirmed;
    }
  }

  lemma SegmentLeavesNoHole(i: ItemId, item: Item, dir: Dir, q: Request, e: Event, now: int)
    requires ItemOk(i, item) && RequestOk(i, item, q) && NoHoles(item) && CanStep(item, dir, q, e)
    requires q.stage.Inspecting? && e.Proceed? ==> item.partial.Present? && item.row.confirmed <= |item.partial.bytes|
    ensures NoHoles(Step(i, item, dir, q, e, now).item)
  {
    if e.Proceed? && q.stage.Synced? {
      CommitLeavesNoHole(i, item, dir, q, now);
    } else if e.Proceed? && q.stage.Committed? {
      TrimKeepsHighest(item.ledger, item.row.confirmed, MAX_COMMITS_PER_ITEM);
    } else if e.Proceed? && q.stage.Reconciling? {
      ReconcilingLeavesNoHole(i, item, q.stage.offset);
    } else {
      OtherSegments(i, item, dir, q, e, now);
    }
  }

  lemma OtherSegments(i: ItemId, item: Item, dir: Dir, q: Request, e: Event, now: int)
    requires ItemOk(i, item) && RequestOk(i, item, q) && CanStep(item, dir, q, e)
    requires e.Proceed? ==> !q.stage.Synced? && !q.stage.Committed? && !q.stage.Reconciling?
    requires q.stage.Inspecting? && e.Proceed? ==> item.partial.Present? && item.row.confirmed <= |item.partial.bytes|
    ensures var f := Step(i, item, dir, q, e, now);
      f.item.ledger == item.ledger && f.item.row.confirmed == item.row.confirmed
  {
  }

  /** Every step but a sweep and a rewind keeps the ledger without holes. */
  lemma StepLeavesNoHole(s: State, l: Label, i: ItemId)
    requires Inv(s) && Enabled(s, l) && i in s.items && NoHoles(s.items[i])
    requires !l.Sweep? && !Forgets(s, l, i)
    ensures i in Apply(s, l).items && NoHoles(Apply(s, l).items[i])
  {
    if l.Advance? {
      var q := s.requests[l.request];
      if q.item == i {
        SegmentLeavesNoHole(i, s.items[i], s.dir, q, l.event, l.now);
      }
      SegmentItems(s, l.request, l.event, l.now);
    } else {
      LabelKeeps(s, l, i);
    }
  }

  /* -------------------------------- ageing ------------------------------- */

  /** Later ranges were committed later. */
  ghost predicate Aged(l: Ledger) {
    forall j, k | j in l && k in l && l[j].end <= l[k].start :: l[j].createdAt <= l[k].createdAt
  }

  predicate NotAfter(l: Ledger, now: int) {
    forall k | k in l :: l[k].createdAt <= now
  }

  predicate CommitAt(run: Run, i: ItemId, k: nat) {
    k < |run.labels| && k < |run.states| && Commits(run.states[k], run.labels[k], i)
  }

  /** The clock does not run backwards between two commits of item `i`. */
  ghost predicate Timely(run: Run, i: ItemId) {
    forall j: nat, k: nat | CommitAt(run, i, j) && CommitAt(run, i, k) && j <= k ::
      run.labels[j].now <= run.labels[k].now
  }

  lemma SegmentLedger(i: ItemId, item: Item, dir: Dir, q: Request, e: Event, now: int)
    requires CanStep(item, dir, q, e) && !CommitsNow(q, e)
    ensures SubLedger(Step(i, item, dir, q, e, now).item.ledger, item.ledger)
  {
  }

  /** Only a commit adds a record. */
  lemma OnlyCommitsAdd(s: State, l: Label, i: ItemId)
    requires Inv(s) && Enabled(s, l) && i in s.items && !Commits(s, l, i)
    ensures i in Apply(s, l).items && SubLedger(Apply(s, l).items[i].ledger, s.items[i].ledger)
  {
    if l.Advance? {
      var q := s.requests[l.request];
      if q.item == i {
        SegmentLedger(i, s.items[i], s.dir, q, l.event, l.now);
      }
      SegmentItems(s, l.request, l.event, l.now);
    } else {
      LabelKeeps(s, l, i);
    }
  }

  lemma CommitAdds(s: State, l: Label, i: ItemId)
    requires Inv(s) && Enabled(s, l) && Commits(s, l, i)
    ensures var c := CommittedAt(s, l, i);
      && i in s.items && i in Apply(s, l).items && LedgerOk(i, s.items[i].ledger, c.start) && 0 < c.length
      && Apply(s, l).items[i].ledger
        == s.items[i].ledger[c.key := Commit(c.start, c.start + c.length, c.checksum, l.now)]
  {
    var q := s.requests[l.request];
    SegmentItems(s, l.request, l.event, l.now);
  }

  lemma CommitAges(l: Ledger, key: Key, c: Commit)
    requires WellFormed(l, c.start) && c.start < c.end && Aged(l) && NotAfter(l, c.createdAt)
    ensures Aged(l[key := c])
  {
  }

  lemma FirstLedger(s: State, l: Label, i: ItemId)
    requires Inv(s) && Enabled(s, l) && i !in s.items && i in Apply(s, l).items
    ensures Apply(s, l).items[i].ledger == map[]
  {
    ItemsStay(s, l);
  }

  /** With such a clock the ledger is always aged, and none of its records is from the future. */
  lemma {:induction false} LedgerIsAged(run: Run, i: ItemId, k: nat)
    requires FromStart(run) && Timely(run, i) && k < |run.states| && i in run.states[k].items
    ensures Aged(run.states[k].items[i].ledger) && AllPast(run, i, k)
  {
    if k > 0 {
      assert StepAt(run, k - 1);
      ReachableInv(run, k - 1);
      if i !in run.states[k - 1].items {
        FirstLedger(run.states[k - 1], run.labels[k - 1], i);
        EmptyIsAged(run, i, k);
      } else {
        LedgerIsAged(run, i, k - 1);
        NextIsAged(run, i, k - 1);
      }
    }
  }

  lemma EmptyIsAged(run: Run, i: ItemId, k: nat)
    requires k < |run.states| && i in run.states[k].items && run.states[k].items[i].ledger == map[]
    ensures Aged(run.states[k].items[i].ledger) && AllPast(run, i, k)
  {
  }

  /** No commit from state `k` on will be older than a record of that state. */
  ghost predicate AllPast(run: Run, i: ItemId, k: nat)
    requires k < |run.states| && i in run.states[k].items
  {
    forall m: nat | k <= m && CommitAt(run, i, m) :: NotAfter(run.states[k].items[i].ledger, run.labels[m].now)
  }

  lemma NextIsAged(run: Run, i: ItemId, k: nat)
    requires FromStart(run) && Timely(run, i) && k < |run.labels| && i in run.states[k].items
    requires Aged(run.states[k].items[i].ledger) && AllPast(run, i, k)
    ensures i in run.states[k + 1].items && Aged(run.states[k + 1].items[i].ledger) && AllPast(run, i, k + 1)
  {
    var s, l := run.states[k], run.labels[k];
    assert StepAt(run, k);
    ReachableInv(run, k);
    if Commits(s, l, i) {
      assert CommitAt(run, i, k);
      CommitAdds(s, l, i);
      var c := CommittedAt(s, l, i);
      CommitAges(s.items[i].ledger, c.key, Commit(c.start, c.start + c.length, c.checksum, l.now));
    } else {
      OnlyCommitsAdd(s, l, i);
    }
  }

  /** The ledger invariant over runs: until recovery has to rewind, the retained intervals lie
      end to end up to the recorded offset, through commits, trims, sweeps and crashes. */
  lemma {:induction false} LedgerHasNoHoles(run: Run, i: ItemId, k: nat)
    requires FromStart(run) && Timely(run, i) && k < |run.states| && i in run.states[k].items
    requires forall m | 0 <= m < k :: !Forgets(run.states[m], run.labels[m], i)
    ensures NoHoles(run.states[k].items[i])
  {
    if k > 0 {
      assert StepAt(run, k - 1);
      ReachableInv(run, k - 1);
      if i !in run.states[k - 1].items {
        FirstLedger(run.states[k - 1], run.labels[k - 1], i);
      } else {
        LedgerHasNoHoles(run, i, k - 1);
        NextHasNoHoles(run, i, k - 1);
      }
    }
  }

  /** The same from any state without holes on, for instance one right after a rewind to the
      end of a retained record. */
  lemma {:induction false} NoHolesFromThere(run: Run, i: ItemId, j: nat, k: nat)
    requires FromStart(run) && Timely(run, i) && j <= k < |run.states| && i in run.states[j].items
    requires NoHoles(run.states[j].items[i])
    requires forall m | j <= m < k :: !Forgets(run.states[m], run.labels[m], i)
    ensures i in run.states[k].items && NoHoles(run.states[k].items[i])
  {
    if j < k {
      NoHolesFromThere(run, i, j, k - 1);
      NextHasNoHoles(run, i, k - 1);
    }
  }

  lemma NextHasNoHoles(run: Run, i: ItemId, k: nat)
    requires FromStart(run) && Timely(run, i) && k < |run.labels| && i in run.states[k].items
    requires NoHoles(run.states[k].items[i]) && !Forgets(run.states[k], run.labels[k], i)
    ensures i in run.states[k + 1].items && NoHoles(run.states[k + 1].items[i])
  {
    var s, l := run.states[k], run.labels[k];
    assert StepAt(run, k);
    ReachableInv(run, k);
    if l.Sweep? {
      LedgerIsAged(run, i, k);
      AgeingKeepsTail(s.items[i].ledger, s.items[i].row.confirmed, l.cutoff);
      SweepKeeps(s, l.cutoff, i);
    } else {
      StepLeavesNoHole(s, l, i);
    }
  }
}
