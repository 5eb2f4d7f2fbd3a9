/** Exactly-once append from at-least-once delivery. */
module UploadExactlyOnce {
  import opened Basics
  import opened CommitLedger
  import opened UploadMachine
  import opened UploadInvariant
  import opened UploadBytes
  import opened UploadRuns

  function CommittedAt(s: State, l: Label, i: ItemId): Checkpoint
    requires Commits(s, l, i)
  {
    s.requests[l.request].job.checkpoint
  }

  lemma CommitAdvancesOffset(run: Run, i: ItemId, k: nat)
    requires FromStart(run) && k < |run.labels| && Commits(run.states[k], run.labels[k], i)
    ensures var c := CommittedAt(run.states[k], run.labels[k], i);
            && i in run.states[k].items && run.states[k].items[i].row.confirmed == c.start
            && i in run.states[k + 1].items && run.states[k + 1].items[i].row.confirmed == c.start + c.length
            && 0 < c.length
  {
    assert StepAt(run, k);
    ReachableInv(run, k);
  }

  /** What a commit appends, it appends behind every byte that was confirmed before. */
  lemma CommitWritesBehindConfirmed(run: Run, i: ItemId, k: nat)
    requires FromStart(run) && QuietThroughout(run, i) && k < |run.labels| && Commits(run.states[k], run.labels[k], i)
    ensures var c := CommittedAt(run.states[k], run.labels[k], i);
            && i in run.states[k].items && i in run.states[k + 1].items
            && |Bytes(run.states[k], i)| == c.start
            && Bytes(run.states[k + 1], i) == Bytes(run.states[k], i) + c.body
            && |c.body| == c.length && Sha256(c.body) == c.checksum
  {
    CommitAdvancesOffset(run, i, k);
    ReachableInv(run, k);
    assert StepAt(run, k);
    RunRefinesAppendLog(run, i, k);
  }

  /** The row update at the end of reconciling item `i` after a crash. */
  predicate Rewinds(s: State, l: Label, i: ItemId) {
    && l.Advance? && l.event.Proceed? && l.request in s.requests
    && s.requests[l.request].item == i && s.requests[l.request].stage.Reconciling?
  }

  lemma StepOffset(i: ItemId, item: Item, dir: Dir, q: Request, e: Event, now: int)
    requires ItemOk(i, item) && RequestOk(i, item, q) && CanStep(item, dir, q, e)
    ensures item.row.confirmed <= Step(i, item, dir, q, e, now).item.row.confirmed
            || (q.stage.Reconciling? && e.Proceed?)
  {
  }

  /** Nothing else ever lowers a recorded offset: not damage, not a crash, not a failure. */
  lemma OnlyRewindsLower(s: State, l: Label, i: ItemId)
    requires Inv(s) && Enabled(s, l) && i in s.items
    ensures i in Apply(s, l).items
    ensures s.items[i].row.confirmed <= Apply(s, l).items[i].row.confirmed || Rewinds(s, l, i)
  {
    if l.Advance? {
      var q := s.requests[l.request];
      StepOffset(q.item, s.items[q.item], s.dir, q, l.event, l.now);
      SegmentItems(s, l.request, l.event, l.now);
    } else {
      LabelKeeps(s, l, i);
    }
  }

  /** Step `m` is a rewind of item `i` from above `offset` to `offset` or below. */
  ghost predicate RewindsTo(run: Run, i: ItemId, m: nat, offset: nat) {
    && m < |run.labels| && m + 1 < |run.states| && Rewinds(run.states[m], run.labels[m], i)
    && i in run.states[m].items && i in run.states[m + 1].items
    && run.states[m + 1].items[i].row.confirmed <= offset < run.states[m].items[i].row.confirmed
  }

  /** Between a state above `offset` and a later one at or below it there is such a rewind. */
  lemma {:induction false} FindRewind(run: Run, i: ItemId, j: nat, k: nat, offset: nat) returns (m: nat)
    requires FromStart(run) && j <= k < |run.states| && i in run.states[j].items
    requires offset < run.states[j].items[i].row.confirmed
    requires i in run.states[k].items ==> run.states[k].items[i].row.confirmed <= offset
    ensures j <= m < k && RewindsTo(run, i, m, offset)
    decreases k - j
  {
    assert StepAt(run, j);
    ReachableInv(run, j);
    OnlyRewindsLower(run.states[j], run.labels[j], i);
    if run.states[j + 1].items[i].row.confirmed <= offset {
      m := j;
    } else {
      m := FindRewind(run, i, j + 1, k, offset);
    }
  }

  /** Two commits of one item never cover the same offset, unless recovery has found the file
      too short in between and has rewound the upload to the start of the second or below. */
  lemma CommitsAreDisjoint(run: Run, i: ItemId, j: nat, k: nat)
    requires FromStart(run) && j < k < |run.labels|
    requires Commits(run.states[j], run.labels[j], i) && Commits(run.states[k], run.labels[k], i)
    ensures var first := CommittedAt(run.states[j], run.labels[j], i);
            var second := CommittedAt(run.states[k], run.labels[k], i);
            first.start + first.length <= second.start || exists m :: j < m < k && RewindsTo(run, i, m, second.start)
  {
    var first, second := CommittedAt(run.states[j], run.labels[j], i), CommittedAt(run.states[k], run.labels[k], i);
    CommitAdvancesOffset(run, i, j);
    CommitAdvancesOffset(run, i, k);
    if second.start < first.start + first.length {
      var m := FindRewind(run, i, j + 1, k, second.start);
    }
  }

  /** A checkpoint that overlaps a committed range is never admitted again, whether the commit
      record is retained, trimmed or aged out, except where recovery has rewound the upload
      in the meantime and the recorded offset is the very start of the repeat. */
  lemma RepeatNeedsRewind(run: Run, i: ItemId, j: nat, k: nat, repeat: Checkpoint)
    requires FromStart(run) && j < |run.labels| && j < k < |run.states| && Commits(run.states[j], run.labels[j], i)
    requires var c := CommittedAt(run.states[j], run.labels[j], i); repeat.start < c.start + c.length
    requires Judge(run.states[k], i, repeat).Accepted?
    ensures i in run.states[k].items && run.states[k].items[i].row.confirmed == repeat.start
    ensures exists m :: j < m < k && RewindsTo(run, i, m, repeat.start)
  {
    CommitAdvancesOffset(run, i, j);
    var m := FindRewind(run, i, j + 1, k, repeat.start);
  }

  /** Without damage recovery never rewinds below a committed end, so a repeat is never
      written at all. */
  lemma RepeatIsNeverWritten(run: Run, i: ItemId, j: nat, k: nat, repeat: Checkpoint)
    requires FromStart(run) && QuietThroughout(run, i) && Undamaged(run, i) && j < |run.labels| && j < k < |run.states|
    requires Commits(run.states[j], run.labels[j], i)
    requires var c := CommittedAt(run.states[j], run.labels[j], i); repeat.start < c.start + c.length
    ensures !Judge(run.states[k], i, repeat).Accepted?
  {
    CommitAdvancesOffset(run, i, j);
    OffsetsNeverDecrease(run, i, j + 1, k);
  }

  /** A retained repeat is answered truthfully: its record has the very range of the request,
      the recorded offset covers it, and those stored bytes have its checksum. */
  lemma ReplayIsTruthful(run: Run, i: ItemId, k: nat, c: Checkpoint)
    requires FromStart(run) && k < |run.states| && i in run.states[k].items
    requires c.key == KeyOf(i, c) && c.key in run.states[k].items[i].ledger
    ensures var s := run.states[k];
            var known := s.items[i].ledger[c.key];
            && known.start == c.start && known.end == c.start + c.length && known.checksum == c.checksum
            && c.start + c.length <= s.items[i].row.confirmed
            && (QuietThroughout(run, i) && c.start + c.length <= |Bytes(s, i)| ==>
                  c.checksum == Sha256(Bytes(s, i)[c.start..c.start + c.length]))
  {
    ReachableInv(run, k);
    if QuietThroughout(run, i) {
      ReachableSound(run, i, k);
    }
  }
}
