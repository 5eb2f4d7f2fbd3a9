/** How long a commit record lasts, and that its checkpoint is answered as a repeat that long. */
module UploadRecords {
  import opened Basics
  import opened CommitLedger
  import opened UploadMachine
  import opened UploadInvariant
  import opened UploadBytes
  import opened UploadRuns
  import opened UploadRequests
  import opened UploadExactlyOnce
  import opened UploadRecovery
  import opened UploadRetry
  import opened UploadLedgers

  predicate HasRecord(s: State, i: ItemId, key: Key) {
    i in s.items && key in s.items[i].ledger
  }

  function FileLength(f: File): nat {
    if f.Present? then |f.bytes| else 0
  }

  /** The records that end behind the record `key`. */
  function EndingLater(l: Ledger, key: Key): set<Key>
    requires key in l
  {
    set j | j in l && l[key].end < l[j].end
  }

  /** The steps that delete the record: a sweep beyond its time, a reconciliation that finds the
      file shorter than its end, and the trim after a commit if 4096 records end behind it. */
  ghost predicate Erases(s: State, l: Label, i: ItemId, key: Key)
    requires HasRecord(s, i, key)
  {
    var item := s.items[i];
    var known := item.ledger[key];
    match l
    case Sweep(cutoff) => known.createdAt < cutoff
    case Advance(r, Proceed, _) =>
      && r in s.requests && s.requests[r].item == i
      && (if s.requests[r].stage.Committed? then MAX_COMMITS_PER_ITEM <= |EndingLater(item.ledger, key)|
          else s.requests[r].stage.Inspecting? && FileLength(item.partial) < known.end)
    case _ => false
  }

  lemma EndingLaterRanksAbove(i: ItemId, l: Ledger, bound: nat, key: Key)
    requires LedgerOk(i, l, bound) && key in l
    ensures Above(l, key) == EndingLater(l, key)
  {
    forall j | j in l && j != key
      ensures l[j].end != l[key].end
    {
      DistinctEnds(l, bound, j, key);
    }
  }

  /** A segment keeps a record with all it says, unless it erases it. */
  lemma SegmentRecord(i: ItemId, item: Item, dir: Dir, q: Request, e: Event, now: int, key: Key)
    requires ItemOk(i, item) && RequestOk(i, item, q) && CanStep(item, dir, q, e) && key in item.ledger
    ensures var ledger := Step(i, item, dir, q, e, now).item.ledger;
      && (key in ledger ==> ledger[key] == item.ledger[key])
      && (key in ledger <==>
            !(&& e.Proceed?
              && (if q.stage.Committed? then MAX_COMMITS_PER_ITEM <= |EndingLater(item.ledger, key)|
                  else q.stage.Inspecting? && FileLength(item.partial) < item.ledger[key].end)))
  {
    EndingLaterRanksAbove(i, item.ledger, item.row.confirmed, key);
  }

  /** Every step keeps a record with all it says, unless it erases it. */
  lemma RecordStep(s: State, l: Label, i: ItemId, key: Key)
    requires Inv(s) && Enabled(s, l) && HasRecord(s, i, key)
    ensures i in Apply(s, l).items && (HasRecord(Apply(s, l), i, key) <==> !Erases(s, l, i, key))
    ensures HasRecord(Apply(s, l), i, key) ==> Apply(s, l).items[i].ledger[key] == s.items[i].ledger[key]
  {
    if l.Advance? {
      var q := s.requests[l.request];
      SegmentItems(s, l.request, l.event, l.now);
      if q.item == i {
        SegmentRecord(i, s.items[i], s.dir, q, l.event, l.now, key);
      }
    } else if l.Sweep? {
      assert Swept(s, l.cutoff).items[i] == s.items[i].(ledger := DropBefore(s.items[i].ledger, l.cutoff));
    } else {
      LabelKeeps(s, l, i);
    }
  }

  ghost predicate ErasedAt(run: Run, i: ItemId, key: Key, m: nat)
    requires m < |run.labels| && m < |run.states|
  {
    HasRecord(run.states[m], i, key) && Erases(run.states[m], run.labels[m], i, key)
  }

  /** A record lasts, as it is, until a step erases it. */
  lemma {:induction false} RecordLasts(run: Run, i: ItemId, key: Key, j: nat, k: nat)
    requires FromStart(run) && j <= k < |run.states| && HasRecord(run.states[j], i, key)
    requires forall m {:trigger ErasedAt(run, i, key, m)} | j <= m < k :: !ErasedAt(run, i, key, m)
    ensures HasRecord(run.states[k], i, key)
    ensures run.states[k].items[i].ledger[key] == run.states[j].items[i].ledger[key]
  {
    if j < k {
      RecordLasts(run, i, key, j, k - 1);
      assert StepAt(run, k - 1) && !ErasedAt(run, i, key, k - 1);
      ReachableInv(run, k - 1);
      RecordStep(run.states[k - 1], run.labels[k - 1], i, key);
    }
  }

  lemma LimitStays(s: State, l: Label)
    requires Enabled(s, l)
    ensures Apply(s, l).chunkLimit == s.chunkLimit
  {
  }

  lemma {:induction false} LimitIsFixed(run: Run, j: nat, k: nat)
    requires FromStart(run) && j <= k < |run.states|
    ensures run.states[k].chunkLimit == run.states[j].chunkLimit
  {
    if j < k {
      LimitIsFixed(run, j, k - 1);
      assert StepAt(run, k - 1);
      LimitStays(run.states[k - 1], run.labels[k - 1]);
    }
  }

  /** A commit leaves the record of its checkpoint, with its range, checksum and time. */
  lemma CommitRecords(run: Run, i: ItemId, j: nat)
    requires FromStart(run) && j < |run.labels| && Commits(run.states[j], run.labels[j], i)
    ensures var c, s' := CommittedAt(run.states[j], run.labels[j], i), run.states[j + 1];
      && c.key == KeyOf(i, c) && HasRecord(s', i, c.key) && c.length <= s'.chunkLimit
      && s'.items[i].ledger[c.key] == Commit(c.start, c.start + c.length, c.checksum, run.labels[j].now)
  {
    assert StepAt(run, j);
    ReachableInv(run, j);
    var s, l := run.states[j], run.labels[j];
    var q := s.requests[l.request];
    assert RequestOk(q.item, s.items[q.item], q) && FitsLimit(q.job, s.chunkLimit);
    SegmentItems(s, l.request, l.event, l.now);
  }

  /** The commit at step `j` is still on record at state `k`. */
  ghost predicate StillRecorded(run: Run, i: ItemId, j: nat, k: nat) {
    && FromStart(run) && j < k < |run.states| && Commits(run.states[j], run.labels[j], i)
    && var c := CommittedAt(run.states[j], run.labels[j], i);
       forall m {:trigger ErasedAt(run, i, c.key, m)} | j < m < k :: !ErasedAt(run, i, c.key, m)
  }

  /** The same request as far as its headers go; the body of a repeat may be anything. */
  predicate SameHeaders(c: Checkpoint, repeat: Checkpoint) {
    repeat.start == c.start && repeat.length == c.length && repeat.checksum == c.checksum && repeat.key == c.key
  }

  /** As long as nothing has erased the record of a commit, the server takes the checkpoint for
      a repeat, at any later time and whatever else has happened. */
  lemma RepeatIsRecognised(run: Run, i: ItemId, j: nat, k: nat, repeat: Checkpoint)
    requires StillRecorded(run, i, j, k) && SameHeaders(CommittedAt(run.states[j], run.labels[j], i), repeat)
    ensures Judge(run.states[k], i, repeat).Replayed?
  {
    var c := CommittedAt(run.states[j], run.labels[j], i);
    CommitRecords(run, i, j);
    RecordLasts(run, i, c.key, j + 1, k);
    LimitIsFixed(run, j + 1, k);
    ReachableInv(run, k);
  }

  /* ------------------------- and it is answered -------------------------- */

  /** A segment of a replay that does not fail goes on, or it answers. */
  lemma ReplayGoesOnOrAnswers(s: State, r: RequestId, e: Event, now: int, i: ItemId)
    requires Inv(s) && Enabled(s, Advance(r, e, now)) && Runs(s, r, i, Replay) && !e.Fail?
    ensures r in Apply(s, Advance(r, e, now)).requests || Reply(s, Advance(r, e, now)).Some?
  {
    assert RequestOk(i, s.items[i], s.requests[r]);
    SegmentItems(s, r, e, now);
  }

  /** Request `r` completes item `i` for a repeat, and what its next segment needs is there. */
  predicate Poised(s: State, r: RequestId, i: ItemId, spare: Path) {
    && s.mode.Serving? && i in s.items && Runs(s, r, i, Replay)
    && s.requests[r].snap.size == s.requests[r].snap.confirmed == s.items[i].row.size
    && match s.requests[r].stage
       case Probing => spare !in s.dir
       case Adopting => s.requests[r].snap.finalPath in s.dir
       case CheckingPartial => spare !in s.dir
       case Finalizing => spare !in s.dir && s.items[i].partial.Present?
       case Hashed(_) => spare !in s.dir && s.items[i].partial.Present?
       case Named(_, _) => s.items[i].partial.Present?
       case Renamed(_, _) => true
       case _ => false
  }

  /** The segments left. */
  function Left(stage: Stage): nat {
    match stage
    case Probing => 6
    case CheckingPartial => 5
    case Finalizing => 4
    case Hashed(_) => 3
    case Named(_, _) => 2
    case _ => 1
  }

  function NextEvent(q: Request, dir: Dir, spare: Path): Event {
    if q.stage.Hashed? then Target(if q.snap.finalPath in dir then spare else q.snap.finalPath) else Proceed
  }

  lemma PoisedMoves(s: State, r: RequestId, i: ItemId, spare: Path)
    requires Poised(s, r, i, spare)
    ensures var l := Advance(r, NextEvent(s.requests[r], s.dir, spare), 0);
      && Enabled(s, l)
      && var s' := Apply(s, l);
         || Reply(s, l) == Some(s.items[i].row.size)
         || (&& Poised(s', r, i, spare) && Left(s'.requests[r].stage) < Left(s.requests[r].stage)
             && s'.items[i].row.size == s.items[i].row.size)
  {
  }

  lemma {:induction false} PoisedCanBeAnswered(run: Run, r: RequestId, i: ItemId, spare: Path) returns (longer: Run)
    requires FromStart(run) && Poised(Last(run), r, i, spare)
    ensures FromStart(longer) && Continues(run, longer) && AnswersLast(longer, Last(run).items[i].row.size)
    ensures run.labels <= longer.labels
    decreases Left(Last(run).requests[r].stage)
  {
    var s := Last(run);
    var l := Advance(r, NextEvent(s.requests[r], s.dir, spare), 0);
    PoisedMoves(s, r, i, spare);
    if Reply(s, l).Some? {
      longer := NextAnswers(run, l, s.items[i].row.size);
    } else {
      var next := Next(run, l);
      longer := PoisedCanBeAnswered(next, r, i, spare);
      ContinuesTwice(run, next, longer);
    }
  }

  /** What the arrival of a repeat leads to. */
  lemma RepeatArrives(s: State, r: RequestId, i: ItemId, repeat: Checkpoint, spare: Path)
    requires Inv(s) && s.mode.Serving? && r !in s.requests && spare !in s.dir && Judge(s, i, repeat).Replayed?
    ensures var l := Receive(r, i, repeat);
      && Enabled(s, l) && repeat.start + repeat.length <= s.items[i].row.confirmed
      && (Reply(s, l) == Some(s.items[i].row.confirmed)
          || (&& Poised(Apply(s, l), r, i, spare) && Apply(s, l).items[i].row.size == s.items[i].row.confirmed))
  {
  }

  /** After a commit, for as long as its record has not been erased, the checkpoint sent again
      under any number and with any body can be answered, without a fault on the way, with an
      offset that covers it. */
  lemma RepeatCanBeAnswered(run: Run, i: ItemId, j: nat, r: RequestId, repeat: Checkpoint, spare: Path)
    returns (longer: Run, offset: nat)
    requires run.states != [] && StillRecorded(run, i, j, |run.states| - 1) && Last(run).mode.Serving?
    requires SameHeaders(CommittedAt(run.states[j], run.labels[j], i), repeat)
    requires r !in Last(run).requests && spare !in Last(run).dir
    ensures FromStart(longer) && Continues(run, longer) && AnswersLast(longer, offset)
    ensures run.labels + [Receive(r, i, repeat)] <= longer.labels
    ensures var c := CommittedAt(run.states[j], run.labels[j], i); c.start + c.length <= offset
  {
    RepeatIsRecognised(run, i, j, |run.states| - 1, repeat);
    ReachableInv(run, |run.states| - 1);
    RepeatArrives(Last(run), r, i, repeat, spare);
    var l := Receive(r, i, repeat);
    offset := Last(run).items[i].row.confirmed;
    if Reply(Last(run), l).Some? {
      longer := NextAnswers(run, l, offset);
    } else {
      var next := Next(run, l);
      longer := PoisedCanBeAnswered(next, r, i, spare);
      ContinuesTwice(run, next, longer);
    }
  }

  /* ------------------------------- recovery ------------------------------ */

  /** While the service is not open the partial file of an unfinished item only gets shorter. */
  lemma ClosedFileShrinks(s: State, l: Label, i: ItemId)
    requires Inv(s) && Enabled(s, l) && !s.mode.Serving? && i in s.items
    ensures i in Apply(s, l).items
    ensures Unfinished(Apply(s, l).items[i].row) ==>
      Unfinished(s.items[i].row) && FileLength(Apply(s, l).items[i].partial) <= FileLength(s.items[i].partial)
  {
    if l.Advance? {
      var q := s.requests[l.request];
      assert q.job.Recover?;
      SegmentItems(s, l.request, l.event, l.now);
      if q.item == i {
        assert RequestOk(i, s.items[i], q);
      }
    } else {
      ItemsStay(s, l);
    }
  }

  /** No sweep between `j` and `k` reaches back to the record. */
  predicate Unswept(run: Run, j: nat, k: nat, createdAt: int) {
    forall m | j <= m < k && m < |run.labels| && run.labels[m].Sweep? :: run.labels[m].cutoff <= createdAt
  }

  /** Either the record is there, or the file has become too short for it. */
  ghost predicate RecordOrShort(item: Item, key: Key, known: Commit) {
    if key in item.ledger then item.ledger[key] == known
    else Unfinished(item.row) ==> FileLength(item.partial) < known.end
  }

  lemma RecordOrShortStep(s: State, l: Label, i: ItemId, key: Key, known: Commit)
    requires Inv(s) && Enabled(s, l) && !s.mode.Serving? && i in s.items && RecordOrShort(s.items[i], key, known)
    requires l.Sweep? ==> l.cutoff <= known.createdAt
    ensures i in Apply(s, l).items && RecordOrShort(Apply(s, l).items[i], key, known)
  {
    ClosedFileShrinks(s, l, i);
    ClosedCommitsNothing(s, l, i);
    OnlyCommitsAdd(s, l, i);
    if key in s.items[i].ledger {
      RecordStep(s, l, i, key);
    }
  }

  lemma ClosedCommitsNothing(s: State, l: Label, i: ItemId)
    requires Inv(s) && Enabled(s, l) && !s.mode.Serving?
    ensures !Commits(s, l, i)
    ensures l.Advance? ==> s.requests[l.request].job.Recover? && !s.requests[l.request].stage.Committed?
  {
  }

  lemma {:induction false} RecordDuringRecovery(run: Run, i: ItemId, key: Key, j: nat, k: nat, m: nat)
    requires RecoverySpan(run, j, k) && HasRecord(run.states[j], i, key) && j <= m <= k
    requires Unswept(run, j, k, run.states[j].items[i].ledger[key].createdAt)
    ensures i in run.states[m].items
    ensures RecordOrShort(run.states[m].items[i], key, run.states[j].items[i].ledger[key])
  {
    if j < m {
      RecordDuringRecovery(run, i, key, j, k, m - 1);
      assert StepAt(run, m - 1);
      ReachableInv(run, m - 1);
      NotServingYet(run, j, k, m - 1);
      RecordOrShortStep(run.states[m - 1], run.labels[m - 1], i, key, run.states[j].items[i].ledger[key]);
    }
  }

  /** Startup, however often it is interrupted and whatever is damaged meanwhile, keeps of an
      upload that it leaves unfinished exactly the records that end within the new offset. */
  lemma RecoveryKeepsRecords(run: Run, i: ItemId, key: Key, j: nat, k: nat)
    requires RecoverySpan(run, j, k) && HasRecord(run.states[j], i, key)
    requires Unswept(run, j, k, run.states[j].items[i].ledger[key].createdAt)
    ensures i in run.states[k].items
    ensures var known, item := run.states[j].items[i].ledger[key], run.states[k].items[i];
      && (key in item.ledger ==> item.ledger[key] == known && known.end <= item.row.confirmed)
      && (Unfinished(item.row) && known.end <= item.row.confirmed ==> key in item.ledger)
  {
    RecordDuringRecovery(run, i, key, j, k, k);
    ReachableInv(run, k);
    RecoveryRestoresAgreement(run, k);
  }

  /** So a checkpoint committed before a crash, whose range recovery has not rewound, is still
      taken for a repeat afterwards; and if its range was rewound, it is new again. */
  lemma RepeatAfterRecovery(run: Run, i: ItemId, c: Checkpoint, j: nat, k: nat)
    requires RecoverySpan(run, j, k) && HasRecord(run.states[j], i, c.key) && c.key == KeyOf(i, c)
    requires Unswept(run, j, k, run.states[j].items[i].ledger[c.key].createdAt)
    requires c.length <= run.states[j].chunkLimit && i in run.states[k].items && Unfinished(run.states[k].items[i].row)
    ensures Judge(run.states[k], i, c).Replayed? <==> c.start + c.length <= run.states[k].items[i].row.confirmed
  {
    RecoveryKeepsRecords(run, i, c.key, j, k);
    LimitIsFixed(run, j, k);
    ReachableInv(run, j);
    ReachableInv(run, k);
  }
}
