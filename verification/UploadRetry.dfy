/** A checkpoint that has failed can be sent again, and then goes through. */
module UploadRetry {
  import opened Basics
  import opened CommitLedger
  import opened UploadMachine
  import opened UploadInvariant
  import opened UploadBytes
  import opened UploadRuns
  import opened UploadRequests

  /** Request `r` carries checkpoint `c`, has reached `stage`, and has committed nothing yet. */
  ghost predicate Under(s: State, r: RequestId, i: ItemId, c: Checkpoint, stage: Stage) {
    && s.mode.Serving? && i in s.items && r in s.requests && c.key !in s.items[i].ledger
    && s.requests[r] == Request(i, Upload(c), s.items[i].row, stage)
    && (stage.Admitted? || s.items[i].partial.Present?)
  }

  lemma Admit(s: State, r: RequestId, i: ItemId, c: Checkpoint)
    requires s.mode.Serving? && r !in s.requests && Judge(s, i, c).Accepted?
    ensures Enabled(s, Receive(r, i, c)) && Under(AfterReceive(s, r, i, c), r, i, c, Admitted)
    ensures AfterReceive(s, r, i, c).items == s.items && AfterReceive(s, r, i, c).dir == s.dir
  {
  }

  lemma Moves(s: State, r: RequestId, i: ItemId, c: Checkpoint, stage: Stage, e: Event, now: int)
    requires Under(s, r, i, c, stage) && CanStep(s.items[i], s.dir, s.requests[r], e)
    ensures Enabled(s, Advance(r, e, now))
    ensures Apply(s, Advance(r, e, now)) == Moved(s, r, Step(i, s.items[i], s.dir, s.requests[r], e, now))
  {
  }

  lemma OpenFile(s: State, r: RequestId, i: ItemId, c: Checkpoint)
    requires Under(s, r, i, c, Admitted) && (c.start == 0 || FileOfSize(s.items[i].partial, c.start))
    ensures var l := Advance(r, Proceed, 0);
            Enabled(s, l) && Under(Apply(s, l), r, i, c, Writing(0)) && Apply(s, l).dir == s.dir
  {
    Moves(s, r, i, c, Admitted, Proceed, 0);
  }

  lemma WriteBody(s: State, r: RequestId, i: ItemId, c: Checkpoint)
    requires Under(s, r, i, c, Writing(0)) && 0 < |c.body|
    ensures var l := Advance(r, Write(|c.body|), 0);
            Enabled(s, l) && Under(Apply(s, l), r, i, c, Writing(|c.body|)) && Apply(s, l).dir == s.dir
  {
    Moves(s, r, i, c, Writing(0), Write(|c.body|), 0);
  }

  lemma VerifyBody(s: State, r: RequestId, i: ItemId, c: Checkpoint)
    requires Under(s, r, i, c, Writing(|c.body|)) && |c.body| == c.length && Sha256(c.body) == c.checksum
    ensures var l := Advance(r, Proceed, 0);
            Enabled(s, l) && Under(Apply(s, l), r, i, c, Written) && Apply(s, l).dir == s.dir
  {
    Moves(s, r, i, c, Writing(|c.body|), Proceed, 0);
  }

  lemma SyncFile(s: State, r: RequestId, i: ItemId, c: Checkpoint)
    requires Under(s, r, i, c, Written)
    ensures var l := Advance(r, Proceed, 0);
            Enabled(s, l) && Under(Apply(s, l), r, i, c, Synced) && Apply(s, l).dir == s.dir
  {
    Moves(s, r, i, c, Written, Proceed, 0);
  }

  lemma CommitRow(s: State, r: RequestId, i: ItemId, c: Checkpoint, now: int)
    requires Under(s, r, i, c, Synced)
    ensures var l := Advance(r, Proceed, now);
      && Enabled(s, l) && Commits(s, l, i) && i in Apply(s, l).items
      && Past(Apply(s, l), r, i, c, Committed) && c.key in Apply(s, l).items[i].ledger && Apply(s, l).dir == s.dir
  {
    Moves(s, r, i, c, Synced, Proceed, now);
  }

  /** Request `r` has committed its checkpoint and has reached `stage`; the file is still partial. */
  ghost predicate Past(s: State, r: RequestId, i: ItemId, c: Checkpoint, stage: Stage) {
    && s.mode.Serving? && i in s.items && r in s.requests
    && s.requests[r] == Request(i, Upload(c), s.items[i].row, stage)
    && s.items[i].row.confirmed == c.start + c.length && s.items[i].partial.Present?
  }

  lemma PastMoves(s: State, r: RequestId, i: ItemId, c: Checkpoint, stage: Stage, e: Event)
    requires Past(s, r, i, c, stage) && CanStep(s.items[i], s.dir, s.requests[r], e)
    ensures Enabled(s, Advance(r, e, 0))
    ensures Apply(s, Advance(r, e, 0)) == Moved(s, r, Step(i, s.items[i], s.dir, s.requests[r], e, 0))
  {
  }

  lemma TrimLedger(s: State, r: RequestId, i: ItemId, c: Checkpoint)
    requires Past(s, r, i, c, Committed)
    ensures var l := Advance(r, Proceed, 0);
      Enabled(s, l) && Past(Apply(s, l), r, i, c, Trimmed) && Apply(s, l).dir == s.dir
  {
    PastMoves(s, r, i, c, Committed, Proceed);
  }

  /** The acknowledgement of a checkpoint that does not complete the file. */
  lemma AnswerChunk(s: State, r: RequestId, i: ItemId, c: Checkpoint)
    requires Past(s, r, i, c, Trimmed) && c.start + c.length != s.items[i].row.size
    ensures var l := Advance(r, Proceed, 0); Enabled(s, l) && Reply(s, l) == Some(c.start + c.length)
  {
    PastMoves(s, r, i, c, Trimmed, Proceed);
  }

  lemma BeginFinal(s: State, r: RequestId, i: ItemId, c: Checkpoint)
    requires Past(s, r, i, c, Trimmed) && c.start + c.length == s.items[i].row.size
    ensures var l := Advance(r, Proceed, 0);
      && Enabled(s, l) && Past(Apply(s, l), r, i, c, Finalizing)
      && Apply(s, l).dir == s.dir && Apply(s, l).items[i].row == s.items[i].row
  {
    PastMoves(s, r, i, c, Trimmed, Proceed);
  }

  lemma HashFile(s: State, r: RequestId, i: ItemId, c: Checkpoint) returns (sha: Digest)
    requires Past(s, r, i, c, Finalizing)
    ensures var l := Advance(r, Proceed, 0);
      && Enabled(s, l) && Past(Apply(s, l), r, i, c, Hashed(sha))
      && Apply(s, l).dir == s.dir && Apply(s, l).items[i].row == s.items[i].row
  {
    sha := Sha256(s.items[i].partial.bytes);
    PastMoves(s, r, i, c, Finalizing, Proceed);
  }

  lemma NameFile(s: State, r: RequestId, i: ItemId, c: Checkpoint, sha: Digest, spare: Path) returns (target: Path)
    requires Past(s, r, i, c, Hashed(sha)) && spare !in s.dir
    ensures var l := Advance(r, Target(target), 0);
      Enabled(s, l) && Past(Apply(s, l), r, i, c, Named(sha, target)) && Apply(s, l).items[i].row == s.items[i].row
  {
    target := if s.items[i].row.finalPath in s.dir then spare else s.items[i].row.finalPath;
    PastMoves(s, r, i, c, Hashed(sha), Target(target));
  }

  lemma RenameFile(s: State, r: RequestId, i: ItemId, c: Checkpoint, sha: Digest, target: Path)
    requires Past(s, r, i, c, Named(sha, target))
    ensures var l := Advance(r, Proceed, 0);
      && Enabled(s, l) && i in Apply(s, l).items && r in Apply(s, l).requests && Apply(s, l).mode.Serving?
      && Apply(s, l).requests[r] == Request(i, Upload(c), s.items[i].row, Renamed(sha, target))
  {
    PastMoves(s, r, i, c, Named(sha, target), Proceed);
  }

  lemma AnswerFile(s: State, r: RequestId, i: ItemId, c: Checkpoint, row: Row, sha: Digest, target: Path)
    requires s.mode.Serving? && i in s.items && r in s.requests && row.size == c.start + c.length
    requires s.requests[r] == Request(i, Upload(c), row, Renamed(sha, target))
    ensures var l := Advance(r, Proceed, 0); Enabled(s, l) && Reply(s, l) == Some(c.start + c.length)
  {
  }

  lemma Next(run: Run, l: Label) returns (longer: Run)
    requires FromStart(run) && Enabled(Last(run), l)
    ensures FromStart(longer) && Continues(run, longer) && Last(longer) == Apply(Last(run), l)
    ensures longer.labels == run.labels + [l]
  {
    longer := Extended(run, l);
    assert longer.labels == run.labels + [l];
  }

  /** An accepted checkpoint whose body is right, and whose file ends where it starts, can be
      carried to its commit from any reachable state, whatever other requests are in flight. */
  lemma AcceptedCanCommit(run: Run, r: RequestId, i: ItemId, c: Checkpoint, now: int) returns (longer: Run)
    requires FromStart(run) && Last(run).mode.Serving? && r !in Last(run).requests && Judge(Last(run), i, c).Accepted?
    requires c.start == 0 || FileOfSize(Last(run).items[i].partial, c.start)
    requires |c.body| == c.length && Sha256(c.body) == c.checksum
    ensures FromStart(longer) && Continues(run, longer) && |longer.labels| == |run.labels| + 6
    ensures Past(Last(longer), r, i, c, Committed) && c.key in Last(longer).items[i].ledger
    ensures Last(longer).dir == Last(run).dir
  {
    Admit(Last(run), r, i, c);
    var admitted := Next(run, Receive(r, i, c));
    OpenFile(Last(admitted), r, i, c);
    var ready := Next(admitted, Advance(r, Proceed, 0));
    ContinuesTwice(run, admitted, ready);
    var synced := CanSync(ready, r, i, c);
    ContinuesTwice(run, ready, synced);
    CommitRow(Last(synced), r, i, c, now);
    longer := Next(synced, Advance(r, Proceed, now));
    ContinuesTwice(run, synced, longer);
  }

  lemma CanSync(run: Run, r: RequestId, i: ItemId, c: Checkpoint) returns (longer: Run)
    requires FromStart(run) && Under(Last(run), r, i, c, Writing(0)) && 0 < |c.body|
    requires |c.body| == c.length && Sha256(c.body) == c.checksum
    ensures FromStart(longer) && Continues(run, longer) && Under(Last(longer), r, i, c, Synced)
    ensures Last(longer).dir == Last(run).dir
    ensures |longer.labels| == |run.labels| + 3
  {
    WriteBody(Last(run), r, i, c);
    var streamed := Next(run, Advance(r, Write(|c.body|), 0));
    VerifyBody(Last(streamed), r, i, c);
    var verified := Next(streamed, Advance(r, Proceed, 0));
    ContinuesTwice(run, streamed, verified);
    SyncFile(Last(verified), r, i, c);
    longer := Next(verified, Advance(r, Proceed, 0));
    ContinuesTwice(run, verified, longer);
  }

  /** After a failure whose truncate worked, the same checkpoint, sent again with its proper
      body, can be carried to its commit. */
  lemma FailedCanBeRetried(run: Run, r: RequestId, again: RequestId, body: seq<Byte>, now: int) returns (longer: Run)
    requires FromStart(run) && Last(run).mode.Serving? && Writes(Last(run), r) && RollsBack(Last(run).requests[r].stage)
    requires again !in Last(run).requests && Enabled(Last(run), Advance(r, Fail(true), now))
    requires var c := Last(run).requests[r].job.checkpoint; |body| == c.length && Sha256(body) == c.checksum
    ensures var q := Last(run).requests[r];
      && FromStart(longer) && Continues(run, longer) && q.item in Last(longer).items
      && Last(longer).items[q.item].row.confirmed == q.job.checkpoint.start + q.job.checkpoint.length
  {
    var s, q := Last(run), Last(run).requests[r];
    var c := q.job.checkpoint;
    ReachableInv(run, |run.states| - 1);
    RetryIsAccepted(s, r, now);
    var failed := Next(run, Advance(r, Fail(true), now));
    assert again !in Last(failed).requests;
    var proper := c.(body := body);
    assert Judge(Last(failed), q.item, proper) == Judge(Last(failed), q.item, c);
    longer := AcceptedCanCommit(failed, again, q.item, proper, now);
    ContinuesTwice(run, failed, longer);
  }

  /** The last step of the run sends the answer `offset`. */
  ghost predicate AnswersLast(run: Run, offset: nat) {
    && run.labels != [] && |run.states| == |run.labels| + 1
    && var k := |run.labels| - 1;
       Enabled(run.states[k], run.labels[k]) && Reply(run.states[k], run.labels[k]) == Some(offset)
  }

  lemma NextAnswers(run: Run, l: Label, offset: nat) returns (longer: Run)
    requires FromStart(run) && Enabled(Last(run), l) && Reply(Last(run), l) == Some(offset)
    ensures FromStart(longer) && Continues(run, longer) && AnswersLast(longer, offset)
    ensures longer.labels == run.labels + [l]
  {
    longer := Next(run, l);
    assert SameState(run, longer, |run.states| - 1);
  }

  /** A committed checkpoint can be answered with its end. */
  lemma CommittedCanBeAnswered(run: Run, r: RequestId, i: ItemId, c: Checkpoint, spare: Path) returns (longer: Run)
    requires FromStart(run) && Past(Last(run), r, i, c, Committed) && spare !in Last(run).dir
    ensures FromStart(longer) && Continues(run, longer) && AnswersLast(longer, c.start + c.length)
  {
    TrimLedger(Last(run), r, i, c);
    var trimmed := Next(run, Advance(r, Proceed, 0));
    if c.start + c.length != Last(trimmed).items[i].row.size {
      AnswerChunk(Last(trimmed), r, i, c);
      longer := NextAnswers(trimmed, Advance(r, Proceed, 0), c.start + c.length);
    } else {
      longer := FullCanBeAnswered(trimmed, r, i, c, spare);
    }
    ContinuesTwice(run, trimmed, longer);
  }

  lemma FullCanBeAnswered(run: Run, r: RequestId, i: ItemId, c: Checkpoint, spare: Path) returns (longer: Run)
    requires FromStart(run) && Past(Last(run), r, i, c, Trimmed) && spare !in Last(run).dir
    requires c.start + c.length == Last(run).items[i].row.size
    ensures FromStart(longer) && Continues(run, longer) && AnswersLast(longer, c.start + c.length)
  {
    BeginFinal(Last(run), r, i, c);
    var begun := Next(run, Advance(r, Proceed, 0));
    var sha := HashFile(Last(begun), r, i, c);
    var hashed := Next(begun, Advance(r, Proceed, 0));
    ContinuesTwice(run, begun, hashed);
    longer := HashedCanBeAnswered(hashed, r, i, c, sha, spare);
    ContinuesTwice(run, hashed, longer);
  }

  lemma HashedCanBeAnswered(run: Run, r: RequestId, i: ItemId, c: Checkpoint, sha: Digest, spare: Path)
    returns (longer: Run)
    requires FromStart(run) && Past(Last(run), r, i, c, Hashed(sha)) && spare !in Last(run).dir
    requires c.start + c.length == Last(run).items[i].row.size
    ensures FromStart(longer) && Continues(run, longer) && AnswersLast(longer, c.start + c.length)
  {
    var target := NameFile(Last(run), r, i, c, sha, spare);
    var named := Next(run, Advance(r, Target(target), 0));
    RenameFile(Last(named), r, i, c, sha, target);
    var renamed := Next(named, Advance(r, Proceed, 0));
    ContinuesTwice(run, named, renamed);
    AnswerFile(Last(renamed), r, i, c, Last(named).items[i].row, sha, target);
    longer := NextAnswers(renamed, Advance(r, Proceed, 0), c.start + c.length);
    ContinuesTwice(run, renamed, longer);
  }

  /** Progress: from any reachable state in which a right checkpoint is accepted and its file
      is in order, the server can answer it with its end, without a fault on the way. */
  lemma AcceptedCanBeAnswered(run: Run, r: RequestId, i: ItemId, c: Checkpoint, now: int, spare: Path)
    returns (longer: Run)
    requires FromStart(run) && Last(run).mode.Serving? && r !in Last(run).requests && Judge(Last(run), i, c).Accepted?
    requires c.start == 0 || FileOfSize(Last(run).items[i].partial, c.start)
    requires |c.body| == c.length && Sha256(c.body) == c.checksum && spare !in Last(run).dir
    ensures FromStart(longer) && Continues(run, longer) && AnswersLast(longer, c.start + c.length)
  {
    var committed := AcceptedCanCommit(run, r, i, c, now);
    longer := CommittedCanBeAnswered(committed, r, i, c, spare);
    ContinuesTwice(run, committed, longer);
  }
}
