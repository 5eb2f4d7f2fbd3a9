/** Startup reconciliation: what it restores, that it may be interrupted anywhere, and the
    one situation in which it publishes the wrong file. */
module UploadRecovery {
  import opened Basics
  import opened CommitLedger
  import opened UploadMachine
  import opened UploadInvariant
  import opened UploadBytes
  import opened UploadRuns

  /** When the service opens, every upload is ready, cancelled, or strictly incomplete with
      row and partial file in agreement. */
  lemma RecoveryRestoresAgreement(run: Run, k: nat)
    requires FromStart(run) && k < |run.labels| && run.labels[k].Open?
    ensures forall i | i in run.states[k].items :: Reconciled(run.states[k].items[i])
  {
    assert StepAt(run, k);
    ReachableInv(run, k);
  }

  /** From a stopped service at `j` to the moment it opens at `k`; in between lie any number
      of crashed attempts. */
  ghost predicate RecoverySpan(run: Run, j: nat, k: nat) {
    && FromStart(run) && j <= k < |run.labels|
    && run.states[j].mode.Down? && run.labels[k].Open?
    && forall m | j <= m < k :: !run.labels[m].Open?
  }

  lemma {:induction false} NotServingYet(run: Run, j: nat, k: nat, m: nat)
    requires RecoverySpan(run, j, k) && j <= m <= k
    ensures !run.states[m].mode.Serving?
  {
    if j < m {
      NotServingYet(run, j, k, m - 1);
      assert StepAt(run, m - 1);
      ModeOnlyOpens(run.states[m - 1], run.labels[m - 1]);
    }
  }

  lemma ModeOnlyOpens(s: State, l: Label)
    requires Enabled(s, l) && !s.mode.Serving? && !l.Open?
    ensures !Apply(s, l).mode.Serving?
  {
  }

  /** While the service is not open, steps other than damage keep the confirmed bytes, and
      nothing becomes cancelled. */
  lemma ClosedStepKeeps(s: State, l: Label, i: ItemId)
    requires Inv(s) && Enabled(s, l) && !s.mode.Serving? && i in s.items
    ensures i in Apply(s, l).items && Apply(s, l).items[i].row.size == s.items[i].row.size
    ensures !s.items[i].row.state.Cancelled? ==> !Apply(s, l).items[i].row.state.Cancelled?
    ensures Refines(s, l, i) && !(l.Damage? && l.item == i) ==> Bytes(Apply(s, l), i) == Bytes(s, i)
  {
    if l.Advance? {
      var q := s.requests[l.request];
      assert q.job.Recover?;
      RecoverRows(q.item, s.items[q.item], s.dir, q, l.event, l.now);
      SegmentItems(s, l.request, l.event, l.now);
    } else {
      LabelKeeps(s, l, i);
    }
  }

  lemma RecoverRows(i: ItemId, item: Item, dir: Dir, q: Request, e: Event, now: int)
    requires CanStep(item, dir, q, e) && RequestOk(i, item, q) && q.job.Recover?
    ensures var f := Step(i, item, dir, q, e, now);
            !f.item.row.state.Cancelled? && f.item.row.size == item.row.size
  {
  }

  lemma {:induction false} SpanKeeps(run: Run, i: ItemId, j: nat, k: nat, m: nat)
    requires RecoverySpan(run, j, k) && QuietThroughout(run, i) && i in run.states[j].items && j <= m <= k
    requires forall n | j <= n < k :: !(run.labels[n].Damage? && run.labels[n].item == i)
    requires !run.states[j].items[i].row.state.Cancelled?
    ensures i in run.states[m].items && !run.states[m].items[i].row.state.Cancelled?
    ensures run.states[m].items[i].row.size == run.states[j].items[i].row.size
    ensures Bytes(run.states[m], i) == Bytes(run.states[j], i)
  {
    if j < m {
      SpanKeeps(run, i, j, k, m - 1);
      SpanStep(run, i, j, k, m - 1);
    }
  }

  lemma SpanStep(run: Run, i: ItemId, j: nat, k: nat, m: nat)
    requires RecoverySpan(run, j, k) && QuietThroughout(run, i) && j <= m < k && i in run.states[m].items
    requires !(run.labels[m].Damage? && run.labels[m].item == i)
    ensures i in run.states[m + 1].items
    ensures run.states[m + 1].items[i].row.size == run.states[m].items[i].row.size
    ensures Bytes(run.states[m + 1], i) == Bytes(run.states[m], i)
    ensures !run.states[m].items[i].row.state.Cancelled? ==> !run.states[m + 1].items[i].row.state.Cancelled?
  {
    NotServingYet(run, j, k, m);
    ReachableInv(run, m);
    RunRefinesAppendLog(run, i, m);
    assert StepAt(run, m);
    ClosedStepKeeps(run.states[m], run.labels[m], i);
  }

  /** Recovery is idempotent and restartable: however often it was crashed and rerun, its
      outcome is a function of the confirmed bytes alone. */
  lemma RecoveryOutcome(run: Run, i: ItemId, j: nat, k: nat)
    requires RecoverySpan(run, j, k) && QuietThroughout(run, i) && i in run.states[j].items
    requires forall n | j <= n < k :: !(run.labels[n].Damage? && run.labels[n].item == i)
    requires !run.states[j].items[i].row.state.Cancelled?
    ensures i in run.states[k].items && Bytes(run.states[k], i) == Bytes(run.states[j], i)
    ensures var bytes, item := Bytes(run.states[j], i), run.states[k].items[i];
            if |bytes| == item.row.size then item.row.state.Ready?
            else
              && item.row.confirmed == |bytes|
              && item.row.state == (if |bytes| > 0 then Transferring else Pending)
              && (if item.partial.Present? then item.partial.bytes == bytes else bytes == [])
  {
    SpanKeeps(run, i, j, k, k);
    RecoveryRestoresAgreement(run, k);
    ReachableInv(run, k);
    ReachableSound(run, i, k);
  }

  /* --------------- uninterrupted recovery of one item, any directory ----- */

  /** recoverActiveRooms for one item: first completion, then reconciliation, then completion
      again.  `spare` is the free name availableFilePath would pick. */
  function Recovered(i: ItemId, item: Item, dir: Dir, spare: Path): (Item, Dir) {
    if !Unfinished(item.row) then (item, dir)
    else if item.row.confirmed == item.row.size && CanComplete(item, dir) then Completed(i, item, dir, spare)
    else
      var settled := Settled(item);
      if settled.row.confirmed == settled.row.size && CanComplete(settled, dir) then Completed(i, settled, dir, spare)
      else (settled, dir)
  }

  predicate Occupied(item: Item, dir: Dir) {
    item.row.finalPath in dir && |dir[item.row.finalPath].bytes| == item.row.size
  }

  predicate CanComplete(item: Item, dir: Dir) {
    Occupied(item, dir) || (item.row.partialPath && FileOfSize(item.partial, item.row.size))
  }

  function Completed(i: ItemId, item: Item, dir: Dir, spare: Path): (Item, Dir)
    requires CanComplete(item, dir)
  {
    var path := item.row.finalPath;
    if Occupied(item, dir) then (item.(row := ReadyRow(item.row, Sha256(dir[path].bytes), path)), dir)
    else
      var target := if path in dir then spare else path;
      (item.(row := ReadyRow(item.row, Sha256(item.partial.bytes), target), partial := Absent),
       dir[target := Entry(item.partial.bytes, item.partial.synced, Published(i))])
  }

  function Settled(item: Item): Item {
    if item.partial.Absent? then item.(row := ReconciledRow(item.row, 0), ledger := RewindTo(item.ledger, 0))
    else if |item.partial.bytes| < item.row.confirmed then
      item.(row := ReconciledRow(item.row, |item.partial.bytes|),
            ledger := RewindTo(item.ledger, |item.partial.bytes|))
    else
      item.(row := ReconciledRow(item.row, item.row.confirmed),
            partial := Truncated(item.partial, item.row.confirmed))
  }

  /** Whatever sits in the directory, the recovered item is reconciled, and recovering again
      changes nothing. */
  lemma RecoveredIsStable(i: ItemId, item: Item, dir: Dir, spare: Path, again: Path)
    requires ItemOk(i, item)
    ensures var (item', dir') := Recovered(i, item, dir, spare);
            && Reconciled(item') && ItemOk(i, item')
            && Recovered(i, item', dir', again) == (item', dir')
  {
    if Unfinished(item.row) {
      SettledOk(i, item);
    }
    var (item', dir') := Recovered(i, item, dir, spare);
    if Unfinished(item'.row) {
      SettledAgain(i, item');
    }
  }

  lemma SettledOk(i: ItemId, item: Item)
    requires ItemOk(i, item) && Unfinished(item.row)
    ensures ItemOk(i, Settled(item)) && Settled(item).row.confirmed <= item.row.confirmed
    ensures Settled(item).row.confirmed == (if Settled(item).partial.Present? then |Settled(item).partial.bytes| else 0)
  {
    LedgerDeletionOk(i, item.ledger, item.row.confirmed, if item.partial.Present? then |item.partial.bytes| else 0, 0);
  }

  lemma SettledAgain(i: ItemId, item: Item)
    requires ItemOk(i, item) && Unfinished(item.row) && Reconciled(item)
    ensures Settled(item) == item
  {
    if item.partial.Absent? {
      assert RewindTo(item.ledger, 0) == item.ledger;
    }
  }

  /** A crash after the last commit leaves a full partial file.  Recovery publishes exactly
      its bytes if and only if the destination path is not occupied by another file of the
      same size with other content: it adopts whatever it finds there. */
  lemma AdoptsWhateverFits(i: ItemId, item: Item, dir: Dir, spare: Path)
    requires ItemOk(i, item) && Unfinished(item.row)
    requires item.row.confirmed == item.row.size && FileOfSize(item.partial, item.row.size)
    ensures var (item', dir') := Recovered(i, item, dir, spare);
            && item'.row.state.Ready? && item'.row.finalPath in dir'
            && (dir'[item'.row.finalPath].bytes == item.partial.bytes
                <==> !Occupied(item, dir) || dir[item.row.finalPath].bytes == item.partial.bytes)
            && (Occupied(item, dir) ==> item'.partial == item.partial)
  {
  }

  /** The segment that renames the whole partial file to another name than the registered one,
      followed by recovery before the row is updated: the file is complete under a name the
      row does not know, and the upload is kept if and only if the registered path happens to
      hold a file of the right size; otherwise it starts again from nothing.  A complete run
      that gets there is `UploadScenes.AcknowledgedFileForgotten`. */
  lemma RenamedElsewhereIsForgotten(i: ItemId, item: Item, dir: Dir, q: Request, spare: Path)
    requires ItemOk(i, item) && RequestOk(i, item, q) && Unfinished(item.row) && q.snap == item.row
    requires q.stage.Named? && CanStep(item, dir, q, Proceed) && FileOfSize(item.partial, item.row.size)
    requires q.stage.target != item.row.finalPath
    ensures var f := Step(i, item, dir, q, Proceed, 0);
      var (item', dir') := Recovered(i, f.item, f.dir, spare);
      && f.next == Some(q.(stage := Renamed(q.stage.sha, q.stage.target))) && f.item.row == item.row
      && q.stage.target in dir' && dir'[q.stage.target] == Entry(item.partial.bytes, item.partial.synced, Published(i))
      && (item'.row.confirmed == item.row.size <==> Occupied(item, dir))
      && (!Occupied(item, dir) ==> item'.row.confirmed == 0 && item'.row.state.Pending? && item'.ledger == map[])
  {
    var f := Step(i, item, dir, q, Proceed, 0);
    assert f.item == item.(partial := Absent);
    assert Occupied(f.item, f.dir) == Occupied(item, dir);
    assert RewindTo(f.item.ledger, 0) == map[];
  }
}
