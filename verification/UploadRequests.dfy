/** The life of one request, from the step that receives it to the step that ends it, with
    everything else that happens in between. */
module UploadRequests {
  import opened Basics
  import opened CommitLedger
  import opened UploadMachine
  import opened UploadInvariant
  import opened UploadBytes
  import opened UploadRuns

  /** Request `r` does `job` for item `i`. */
  predicate Runs(s: State, r: RequestId, i: ItemId, job: Job) {
    r in s.requests && s.requests[r].item == i && s.requests[r].job == job && !job.Recover?
  }

  /** Request `r` is the server's handling of checkpoint `c`. */
  predicate Handles(s: State, r: RequestId, i: ItemId, c: Checkpoint) {
    Runs(s, r, i, Replay) || Runs(s, r, i, Upload(c))
  }

  lemma StepKeepsRequest(i: ItemId, item: Item, dir: Dir, q: Request, e: Event, now: int)
    requires CanStep(item, dir, q, e) && RequestOk(i, item, q)
    ensures var f := Step(i, item, dir, q, e, now);
            && f.item.row.size == item.row.size
            && (f.next.Some? ==>
                  && f.next.value.item == q.item
                  && (f.next.value.job == q.job || (q.job.Recover? && f.next.value.job.Recover?)))
  {
  }

  lemma StillRuns(s: State, l: Label, r: RequestId, i: ItemId, job: Job)
    requires Inv(s) && Enabled(s, l) && Runs(s, r, i, job) && r in Apply(s, l).requests
    ensures Runs(Apply(s, l), r, i, job)
  {
    if l.Advance? {
      AdvanceRuns(s, l.request, l.event, l.now, r, i, job);
    } else {
      RequestStays(s, l, r);
    }
  }

  lemma StillHandles(s: State, l: Label, r: RequestId, i: ItemId, c: Checkpoint)
    requires Inv(s) && Enabled(s, l) && Handles(s, r, i, c) && r in Apply(s, l).requests
    ensures Handles(Apply(s, l), r, i, c)
  {
    StillRuns(s, l, r, i, s.requests[r].job);
  }

  lemma RequestStays(s: State, l: Label, r: RequestId)
    requires Enabled(s, l) && !l.Advance? && r in s.requests && r in Apply(s, l).requests
    ensures Apply(s, l).requests[r] == s.requests[r]
  {
    match l
    case Receive(t, j, c) => ReceiveKeepsRequest(s, t, j, c, r);
    case Reopen(_, _) =>
    case _ =>
  }

  lemma ReceiveKeepsRequest(s: State, t: RequestId, j: ItemId, c: Checkpoint, r: RequestId)
    requires Enabled(s, Receive(t, j, c)) && r in s.requests
    ensures r in AfterReceive(s, t, j, c).requests && AfterReceive(s, t, j, c).requests[r] == s.requests[r]
  {
  }

  lemma AdvanceRuns(s: State, t: RequestId, e: Event, now: int, r: RequestId, i: ItemId, job: Job)
    requires Inv(s) && Enabled(s, Advance(t, e, now)) && Runs(s, r, i, job) && r in AfterAdvance(s, t, e, now).requests
    ensures Runs(AfterAdvance(s, t, e, now), r, i, job)
  {
    var q := s.requests[t];
    var f := Step(q.item, s.items[q.item], s.dir, q, e, now);
    StepKeepsRequest(q.item, s.items[q.item], s.dir, q, e, now);
    MovedRuns(s, t, f, r, i, job);
  }

  lemma MovedRuns(s: State, t: RequestId, f: Effect, r: RequestId, i: ItemId, job: Job)
    requires t in s.requests && Runs(s, r, i, job) && r in Moved(s, t, f).requests
    requires var q := s.requests[t];
             f.next.Some? ==> f.next.value.item == q.item && (f.next.value.job == q.job || q.job.Recover?)
    ensures Runs(Moved(s, t, f), r, i, job)
  {
  }

  lemma BeginsRunning(s: State, r: RequestId, i: ItemId, c: Checkpoint)
    requires Enabled(s, Receive(r, i, c)) && r in Apply(s, Receive(r, i, c)).requests
    ensures Runs(Apply(s, Receive(r, i, c)), r, i, JobOf(s, i, c))
  {
  }

  /* ------------------------------ responses ------------------------------ */

  /** The offset in the 2xx response that step `l` sends to a PATCH, if it sends one. */
  function Reply(s: State, l: Label): Option<nat>
    requires Enabled(s, l)
  {
    match l
    case Receive(_, i, c) =>
      var row := s.items[i].row;
      if Judge(s, i, c).Replayed? && (row.confirmed != row.size || row.state.Ready?) then Some(row.confirmed) else None
    case Advance(r, Proceed, _) =>
      var q := s.requests[r];
      if q.job.Recover? then None
      else (
        match q.stage
        case Trimmed => if q.snap.confirmed != q.snap.size then Some(q.snap.confirmed) else None
        case CheckingPartial =>
          if q.snap.partialPath && FileOfSize(s.items[q.item].partial, q.snap.size) then None
          else Some(q.snap.confirmed)
        case Adopting => Some(q.snap.size)
        case Renamed(_, _) => Some(q.snap.size)
        case _ => None)
    case _ => None
  }

  /** A response to a checkpoint covers it, and the server has recorded what it says. */
  lemma ReplyCovers(s: State, l: Label, r: RequestId, i: ItemId, c: Checkpoint)
    requires Inv(s) && Enabled(s, l) && Reply(s, l).Some? && i in s.items && c.start + c.length <= s.items[i].row.size
    requires (l.Advance? && l.request == r && Handles(s, r, i, c)) || l == Receive(r, i, c)
    ensures i in Apply(s, l).items && c.start + c.length <= Reply(s, l).value <= Apply(s, l).items[i].acked
    ensures Reply(s, l).value <= s.items[i].row.confirmed
  {
    if l.Advance? {
      var q := s.requests[r];
      SegmentItems(s, r, l.event, l.now);
    }
  }

  /* -------------------------- from start to end -------------------------- */

  /** Received as step `j` of the run and in flight ever since, up to state `k`. */
  ghost predicate InFlight(run: Run, r: RequestId, i: ItemId, c: Checkpoint, j: nat, k: nat) {
    && FromStart(run) && j < k < |run.states| && run.labels[j] == Receive(r, i, c)
    && forall m | j < m <= k :: r in run.states[m].requests
  }

  function JobOf(s: State, i: ItemId, c: Checkpoint): Job {
    if Judge(s, i, c).Accepted? then Upload(c) else Replay
  }

  lemma {:induction false} RunsOn(run: Run, r: RequestId, i: ItemId, job: Job, j: nat, k: nat)
    requires FromStart(run) && j <= k < |run.states| && forall m | j <= m <= k :: r in run.states[m].requests
    requires Runs(run.states[j], r, i, job) && i in run.states[j].items
    ensures Runs(run.states[k], r, i, job) && i in run.states[k].items
    ensures run.states[k].items[i].row.size == run.states[j].items[i].row.size
  {
    if j < k {
      RunsOn(run, r, i, job, j, k - 1);
      assert StepAt(run, k - 1);
      ReachableInv(run, k - 1);
      StillRuns(run.states[k - 1], run.labels[k - 1], r, i, job);
      SizeStays(run.states[k - 1], run.labels[k - 1], i);
    }
  }

  lemma StartsRunning(run: Run, r: RequestId, i: ItemId, c: Checkpoint, j: nat)
    requires InFlight(run, r, i, c, j, j + 1)
    ensures i in run.states[j].items && i in run.states[j + 1].items
    ensures Runs(run.states[j + 1], r, i, JobOf(run.states[j], i, c))
    ensures run.states[j + 1].items[i].row.size == run.states[j].items[i].row.size
  {
    assert StepAt(run, j);
    BeginsRunning(run.states[j], r, i, c);
    ReceiveKeeps(run.states[j], r, i, c, i);
  }

  lemma KeepsRunning(run: Run, r: RequestId, i: ItemId, c: Checkpoint, j: nat, k: nat)
    requires InFlight(run, r, i, c, j, k)
    ensures Runs(run.states[k], r, i, JobOf(run.states[j], i, c))
    ensures i in run.states[k].items && i in run.states[j].items
    ensures run.states[k].items[i].row.size == run.states[j].items[i].row.size
  {
    StartsRunning(run, r, i, c, j);
    RunsOn(run, r, i, JobOf(run.states[j], i, c), j + 1, k);
  }

  lemma SizeStays(s: State, l: Label, i: ItemId)
    requires Inv(s) && Enabled(s, l) && i in s.items
    ensures i in Apply(s, l).items && Apply(s, l).items[i].row.size == s.items[i].row.size
  {
    if l.Advance? {
      var q := s.requests[l.request];
      var f := Step(q.item, s.items[q.item], s.dir, q, l.event, l.now);
      StepKeepsRequest(q.item, s.items[q.item], s.dir, q, l.event, l.now);
      SegmentItems(s, l.request, l.event, l.now);
    } else {
      LabelKeeps(s, l, i);
    }
  }

  /* ------------------------------- replays ------------------------------- */

  /** While a replay completes an item, the item is fully confirmed, and nobody else can
      append to it, damage it or cancel it. */
  lemma ReplayFreezes(s: State, l: Label, r: RequestId, i: ItemId)
    requires Inv(s) && Enabled(s, l) && Runs(s, r, i, Replay)
    ensures i in s.items && s.items[i].row.confirmed == s.items[i].row.size
    ensures !Loses(l, i) && !Commits(s, l, i)
  {
    assert Busy(s, i);
  }

  /** One segment of a replay, whatever it does to row and files. */
  lemma ReplaySegment(s: State, r: RequestId, e: Event, now: int, i: ItemId)
    requires Inv(s) && Enabled(s, Advance(r, e, now)) && Runs(s, r, i, Replay)
    ensures var s' := AfterAdvance(s, r, e, now);
      && i in s.items && i in s'.items && s'.locks == s.locks
      && s'.items[i].ledger == s.items[i].ledger && s'.items[i].row.confirmed == s.items[i].row.confirmed
  {
    var q := s.requests[r];
    var f := Step(i, s.items[i], s.dir, q, e, now);
    assert RequestOk(i, s.items[i], q);
    ReplayStep(i, s.items[i], s.dir, q, e, now);
    assert AfterAdvance(s, r, e, now) == Moved(s, r, f);
  }

  lemma ReplayStep(i: ItemId, item: Item, dir: Dir, q: Request, e: Event, now: int)
    requires RequestOk(i, item, q) && CanStep(item, dir, q, e) && q.job.Replay?
    ensures var f := Step(i, item, dir, q, e, now);
      f.item.ledger == item.ledger && f.item.row.confirmed == item.row.confirmed
  {
  }

  lemma ReplayReceived(s: State, r: RequestId, i: ItemId, c: Checkpoint)
    requires Enabled(s, Receive(r, i, c)) && Judge(s, i, c).Replayed?
    ensures var s' := AfterReceive(s, r, i, c);
      && i in s'.items && s'.locks == s.locks && s'.dir == s.dir
      && s'.items[i].ledger == s.items[i].ledger && s'.items[i].row == s.items[i].row
      && s'.items[i].partial == s.items[i].partial
  {
  }

  /** Step `k` belongs to the handling of the repeat that step `j` received. */
  ghost predicate OwnStep(run: Run, r: RequestId, i: ItemId, c: Checkpoint, j: nat, k: nat) {
    && FromStart(run) && j <= k < |run.labels| && run.labels[j] == Receive(r, i, c)
    && (k > j ==> InFlight(run, r, i, c, j, k) && run.labels[k].Advance? && run.labels[k].request == r)
  }

  lemma FrozenStep(run: Run, r: RequestId, i: ItemId, c: Checkpoint, j: nat, k: nat)
    requires InFlight(run, r, i, c, j, k) && Judge(run.states[j], i, c).Replayed? && QuietThroughout(run, i)
    requires k < |run.labels|
    ensures i in run.states[k].items && i in run.states[k + 1].items
    ensures Bytes(run.states[k + 1], i) == Bytes(run.states[k], i)
  {
    KeepsRunning(run, r, i, c, j, k);
    RunRefinesAppendLog(run, i, k);
    ReachableInv(run, k);
    ReplayFreezes(run.states[k], run.labels[k], r, i);
  }

  lemma ReceivedBytes(run: Run, r: RequestId, i: ItemId, c: Checkpoint, j: nat)
    requires FromStart(run) && QuietThroughout(run, i) && j < |run.labels| && run.labels[j] == Receive(r, i, c)
    ensures i in run.states[j].items && i in run.states[j + 1].items
    ensures Bytes(run.states[j + 1], i) == Bytes(run.states[j], i)
  {
    assert StepAt(run, j);
    RunRefinesAppendLog(run, i, j);
  }

  /** The confirmed bytes stand still from the arrival of the repeat to its last segment,
      whatever other requests do meanwhile. */
  lemma {:induction false} ReplayKeepsBytes(run: Run, r: RequestId, i: ItemId, c: Checkpoint, j: nat, k: nat)
    requires InFlight(run, r, i, c, j, k) && Judge(run.states[j], i, c).Replayed? && QuietThroughout(run, i)
    ensures i in run.states[j].items && i in run.states[k].items
    ensures Bytes(run.states[k], i) == Bytes(run.states[j], i)
  {
    if k == j + 1 {
      ReceivedBytes(run, r, i, c, j);
    } else {
      ReplayKeepsBytes(run, r, i, c, j, k - 1);
      FrozenStep(run, r, i, c, j, k - 1);
    }
  }

  /** A repeat of a committed checkpoint, over every one of its segments: whatever it still
      completes, each segment leaves ledger, recorded offset, locks and confirmed bytes as
      they are, and if it answers, the answer covers the range of the repeat. */
  lemma RepeatAppendsNothing(run: Run, r: RequestId, i: ItemId, c: Checkpoint, j: nat, k: nat)
    requires OwnStep(run, r, i, c, j, k) && Judge(run.states[j], i, c).Replayed?
    ensures var s0, s, s' := run.states[j], run.states[k], run.states[k + 1];
      && StepAt(run, k) && i in s0.items && i in s.items && i in s'.items
      && s'.items[i].ledger == s.items[i].ledger && s'.locks == s.locks
      && s'.items[i].row.confirmed == s0.items[i].row.confirmed
      && (QuietThroughout(run, i) ==> Bytes(s', i) == Bytes(s0, i))
      && (Reply(s, run.labels[k]).Some? ==>
            c.start + c.length <= Reply(s, run.labels[k]).value <= s'.items[i].row.confirmed)
  {
    var s0, s, l := run.states[j], run.states[k], run.labels[k];
    assert StepAt(run, k) && StepAt(run, j);
    ReachableInv(run, j);
    ReachableInv(run, k);
    if k == j {
      ReplayReceived(s, r, i, c);
    } else {
      ReplayOnTheWay(run, r, i, c, j, k);
      ReplaySegment(s, r, l.event, l.now, i);
    }
    if QuietThroughout(run, i) {
      ReplayStepBytes(run, r, i, c, j, k);
    }
    if Reply(s, l).Some? {
      ReplyCovers(s, l, r, i, c);
    }
  }

  /** The item of a replay is fully confirmed all the way. */
  lemma ReplayIsFull(run: Run, r: RequestId, i: ItemId, c: Checkpoint, j: nat, k: nat)
    requires InFlight(run, r, i, c, j, k) && Judge(run.states[j], i, c).Replayed?
    ensures Runs(run.states[k], r, i, Replay) && i in run.states[j].items && i in run.states[k].items
    ensures run.states[k].items[i].row.confirmed == run.states[k].items[i].row.size == run.states[j].items[i].row.size
  {
    KeepsRunning(run, r, i, c, j, k);
    ReachableInv(run, k);
    assert RequestOk(i, run.states[k].items[i], run.states[k].requests[r]);
  }

  lemma ReplayOnTheWay(run: Run, r: RequestId, i: ItemId, c: Checkpoint, j: nat, k: nat)
    requires InFlight(run, r, i, c, j, k) && Judge(run.states[j], i, c).Replayed?
    ensures Runs(run.states[k], r, i, Replay) && i in run.states[j].items && i in run.states[k].items
    ensures run.states[k].items[i].row.size == run.states[j].items[i].row.size
    ensures run.states[k].items[i].row.confirmed == run.states[j].items[i].row.confirmed
  {
    ReplayIsFull(run, r, i, c, j, k);
    ReplayIsFull(run, r, i, c, j, j + 1);
    assert StepAt(run, j);
    ReplayReceived(run.states[j], r, i, c);
  }

  lemma ReplayStepBytes(run: Run, r: RequestId, i: ItemId, c: Checkpoint, j: nat, k: nat)
    requires OwnStep(run, r, i, c, j, k) && Judge(run.states[j], i, c).Replayed? && QuietThroughout(run, i)
    requires i in run.states[j].items && i in run.states[k].items && i in run.states[k + 1].items
    ensures Bytes(run.states[k + 1], i) == Bytes(run.states[j], i)
  {
    if k == j {
      ReceivedBytes(run, r, i, c, j);
    } else {
      ReplayKeepsBytes(run, r, i, c, j, k);
      FrozenStep(run, r, i, c, j, k);
    }
  }

  /* ------------------------------- failures ------------------------------ */

  /** The checkpoint that step `j` admitted has not been committed by state `k`. */
  ghost predicate Uncommitted(run: Run, r: RequestId, i: ItemId, c: Checkpoint, j: nat, k: nat) {
    && InFlight(run, r, i, c, j, k) && Judge(run.states[j], i, c).Accepted?
    && forall m | j < m <= k :: r in run.states[m].requests && PreCommit(run.states[m].requests[r].stage)
  }

  /** What an uncommitted writer rules out for everybody else. */
  lemma WriterExcludes(s: State, l: Label, r: RequestId, i: ItemId, c: Checkpoint)
    requires Inv(s) && Enabled(s, l) && Runs(s, r, i, Upload(c)) && PreCommit(s.requests[r].stage)
    ensures !Loses(l, i) && i in s.items && s.requests[r].snap == s.items[i].row
    ensures l.Advance? && l.request in s.requests && l.request != r ==> s.requests[l.request].item != i
  {
    assert Busy(s, i) && Writes(s, r);
  }

  lemma WriterSnapStays(i: ItemId, item: Item, dir: Dir, q: Request, e: Event, now: int)
    requires RequestOk(i, item, q) && CanStep(item, dir, q, e) && q.job.Upload? && PreCommit(q.stage)
    ensures var f := Step(i, item, dir, q, e, now);
      (f.next.None? || PreCommit(f.next.value.stage)) ==>
        f.item.row == item.row && f.item.ledger == item.ledger && (f.next.Some? ==> f.next.value.snap == q.snap)
  {
  }

  /** One step of the run while the checkpoint is uncommitted, or the step that fails it. */
  lemma UncommittedStep(s: State, l: Label, r: RequestId, i: ItemId, c: Checkpoint)
    requires Inv(s) && Enabled(s, l) && Runs(s, r, i, Upload(c)) && PreCommit(s.requests[r].stage)
    requires var s' := Apply(s, l);
             (r in s'.requests && PreCommit(s'.requests[r].stage)) || (l.Advance? && l.request == r && l.event.Fail?)
    ensures var s' := Apply(s, l);
      && i in s.items && i in s'.items && s'.items[i].row == s.items[i].row
      && SubLedger(s'.items[i].ledger, s.items[i].ledger)
      && !(l.Advance? && l.request == r && CommitsNow(s.requests[r], l.event))
  {
    WriterExcludes(s, l, r, i, c);
    if l.Advance? && l.request == r {
      OwnSegment(s, r, l.event, l.now, i, c);
    } else if l.Advance? {
      SegmentItems(s, l.request, l.event, l.now);
    } else {
      LabelKeeps(s, l, i);
    }
  }

  lemma OwnSegment(s: State, r: RequestId, e: Event, now: int, i: ItemId, c: Checkpoint)
    requires Inv(s) && Enabled(s, Advance(r, e, now)) && Runs(s, r, i, Upload(c)) && PreCommit(s.requests[r].stage)
    requires var s' := AfterAdvance(s, r, e, now);
             (r in s'.requests && PreCommit(s'.requests[r].stage)) || e.Fail?
    ensures var s' := AfterAdvance(s, r, e, now);
      && i in s.items && i in s'.items && s'.items[i].row == s.items[i].row
      && s'.items[i].ledger == s.items[i].ledger
      && !CommitsNow(s.requests[r], e)
  {
    SegmentItems(s, r, e, now);
    WriterSnapStays(i, s.items[i], s.dir, s.requests[r], e, now);
  }

  lemma {:induction false} UncommittedKeeps(run: Run, r: RequestId, i: ItemId, c: Checkpoint, j: nat, k: nat)
    requires Uncommitted(run, r, i, c, j, k)
    ensures i in run.states[j].items && i in run.states[k].items
    ensures run.states[k].items[i].row == run.states[j].items[i].row
    ensures SubLedger(run.states[k].items[i].ledger, run.states[j].items[i].ledger)
    ensures QuietThroughout(run, i) ==> Bytes(run.states[k], i) == Bytes(run.states[j], i)
  {
    KeepsRunning(run, r, i, c, j, k);
    if k > j + 1 {
      UncommittedKeeps(run, r, i, c, j, k - 1);
      UncommittedOnce(run, r, i, c, j, k - 1);
    } else {
      assert StepAt(run, j);
      LabelKeeps(run.states[j], run.labels[j], i);
    }
    if QuietThroughout(run, i) {
      UncommittedBytes(run, r, i, c, j, k - 1);
    }
  }

  lemma UncommittedOnce(run: Run, r: RequestId, i: ItemId, c: Checkpoint, j: nat, k: nat)
    requires k < |run.labels| && Uncommitted(run, r, i, c, j, k) && Uncommitted(run, r, i, c, j, k + 1)
    ensures i in run.states[k].items && i in run.states[k + 1].items
    ensures run.states[k + 1].items[i].row == run.states[k].items[i].row
    ensures SubLedger(run.states[k + 1].items[i].ledger, run.states[k].items[i].ledger)
    ensures !(&& run.labels[k].Advance? && run.labels[k].request == r
              && CommitsNow(run.states[k].requests[r], run.labels[k].event))
  {
    assert StepAt(run, k);
    KeepsRunning(run, r, i, c, j, k);
    ReachableInv(run, k);
    UncommittedStep(run.states[k], run.labels[k], r, i, c);
  }

  lemma UncommittedBytes(run: Run, r: RequestId, i: ItemId, c: Checkpoint, j: nat, k: nat)
    requires FromStart(run) && QuietThroughout(run, i) && j <= k < |run.labels| && run.labels[j] == Receive(r, i, c)
    requires i in run.states[k].items
    requires k > j ==> Uncommitted(run, r, i, c, j, k)
    requires k > j ==> !(&& run.labels[k].Advance? && run.labels[k].request == r
                         && CommitsNow(run.states[k].requests[r], run.labels[k].event))
    ensures i in run.states[k + 1].items && Bytes(run.states[k + 1], i) == Bytes(run.states[k], i)
  {
    RunRefinesAppendLog(run, i, k);
    if k > j {
      KeepsRunning(run, r, i, c, j, k);
      ReachableInv(run, k);
      WriterExcludes(run.states[k], run.labels[k], r, i, c);
    }
  }

  /** A checkpoint that fails before its commit, at whatever segment and whether or not the
      truncate works: from its admission to the end of its failure the row does not change,
      no commit record appears or changes, the confirmed bytes are the same, and its lock
      is free again. */
  lemma FailureIsHarmless(run: Run, r: RequestId, i: ItemId, c: Checkpoint, j: nat, k: nat)
    requires k < |run.labels| && Uncommitted(run, r, i, c, j, k)
    requires run.labels[k].Advance? && run.labels[k].request == r && run.labels[k].event.Fail?
    ensures var s0, s' := run.states[j], run.states[k + 1];
      && i in s0.items && i in s'.items && s'.items[i].row == s0.items[i].row
      && SubLedger(s'.items[i].ledger, s0.items[i].ledger)
      && (QuietThroughout(run, i) ==> Bytes(s', i) == Bytes(s0, i))
      && r !in s'.requests && i !in s'.locks
  {
    var s, l := run.states[k], run.labels[k];
    assert StepAt(run, k);
    ReachableInv(run, k);
    KeepsRunning(run, r, i, c, j, k);
    UncommittedKeeps(run, r, i, c, j, k);
    UncommittedStep(s, l, r, i, c);
    if QuietThroughout(run, i) {
      UncommittedBytes(run, r, i, c, j, k);
    }
    SegmentItems(s, r, l.event, l.now);
  }
}
