/** The upload half of the room store, in the form the service runs it: a repository of rows
    and commit records, files, write locks, and methods that change them step by step.

    Every method records the machine label of each of its segments in the ghost `history`,
    and `Valid` says that this history is a run of the upload machine that ends in the
    object's present state.  Whatever is proved about runs therefore holds of the object. */
module RoomStore {
  import opened Basics
  import opened CommitLedger
  import opened UploadMachine
  import opened UploadInvariant
  import opened UploadBytes
  import opened UploadRuns
  import opened UploadRecovery
  import opened FileNames

  datatype CommitFault = NoFault | AfterItemUpdate | BeforeCommit

  class SqliteRoomRepository {
    var rows: map<ItemId, Row>
    var commits: map<ItemId, Ledger>

    constructor ()
      ensures rows == map[] && commits == map[]
    {
      rows, commits := map[], map[];
    }

    method InsertItem(i: ItemId, row: Row)
      modifies this
      ensures rows == old(rows)[i := row] && commits == old(commits)[i := map[]]
    {
      rows := rows[i := row];
      commits := commits[i := map[]];
    }

    method UpdateItem(i: ItemId, row: Row)
      modifies this
      ensures rows == old(rows)[i := row] && commits == old(commits)
    {
      rows := rows[i := row];
    }

    /** BEGIN IMMEDIATE ... COMMIT: both tables change, or neither does. */
    method CommitUploadCheckpoint(i: ItemId, row: Row, key: Key, commit: Commit, fault: CommitFault) returns (ok: bool)
      requires i in commits
      modifies this
      ensures ok <==> fault.NoFault? && key !in old(commits)[i]
      ensures ok ==> rows == old(rows)[i := row] && commits == old(commits)[i := old(commits)[i][key := commit]]
      ensures !ok ==> rows == old(rows) && commits == old(commits)
    {
      var rowsAtBegin, commitsAtBegin := rows, commits;
      UpdateItem(i, row);
      ok := !fault.AfterItemUpdate?;
      if ok {
        ok := key !in commits[i];  // PRIMARY KEY(item_id, idempotency_key)
      }
      if ok {
        commits := commits[i := commits[i][key := commit]];
        ok := !fault.BeforeCommit?;
      }
      if !ok {
        rows, commits := rowsAtBegin, commitsAtBegin;
      }
    }

    method GetUploadCommit(i: ItemId, key: Key) returns (found: Option<Commit>)
      requires i in commits
      ensures found == if key in commits[i] then Some(commits[i][key]) else None
    {
      found := if key in commits[i] then Some(commits[i][key]) else None;
    }

    method DeleteUploadCommitsAfter(i: ItemId, offset: nat)
      requires i in commits
      modifies this
      ensures rows == old(rows) && commits == old(commits)[i := RewindTo(old(commits)[i], offset)]
      ensures KeptWithin(old(commits)[i], commits[i], offset)
    {
      commits := commits[i := RewindTo(commits[i], offset)];
    }

    method TrimUploadCommits(i: ItemId, keep: nat)
      requires i in commits
      modifies this
      ensures rows == old(rows) && commits == old(commits)[i := Trim(old(commits)[i], keep)]
    {
      commits := commits[i := Trim(commits[i], keep)];
    }

    method DeleteUploadCommitsBefore(cutoff: int)
      modifies this
      ensures rows == old(rows) && commits == map i | i in old(commits) :: DropBefore(old(commits)[i], cutoff)
      ensures forall i | i in commits :: KeptSince(old(commits)[i], commits[i], cutoff)
    {
      commits := map i | i in commits :: DropBefore(commits[i], cutoff);
    }
  }

  function Rows(s: State): map<ItemId, Row> {
    map i | i in s.items :: s.items[i].row
  }

  function Ledgers(s: State): map<ItemId, Ledger> {
    map i | i in s.items :: s.items[i].ledger
  }

  function Partials(s: State): map<ItemId, File> {
    map i | i in s.items :: s.items[i].partial
  }

  /** What may go wrong during one checkpoint. */
  datatype Plan = Plan(
    beforeWrite: bool, breakAt: Option<nat>, rollbackWorks: bool, fsyncFails: bool,
    beforeCommit: bool, commitFault: CommitFault, afterCommit: bool, finalizeFails: bool)

  /** Rejected before the lock is taken, or failed later, each with its status. */
  datatype Answer = Acknowledged(offset: nat) | Rejected(status: nat) | Failed(status: nat)

  datatype Recovery = Recovery(
    truncations: nat, truncatedBytes: nat, rewinds: nat, rewoundBytes: nat,
    checkpointRollbacks: nat, idempotentReplays: nat, recoveredCompletions: nat)

  function One(counts: bool): nat {
    if counts then 1 else 0
  }

  /** With so many more completions. */
  function MoreCompletions(recovery: Recovery, more: nat): Recovery {
    recovery.(recoveredCompletions := recovery.recoveredCompletions + more)
  }

  function MoreRollbacks(recovery: Recovery, more: nat): Recovery {
    recovery.(checkpointRollbacks := recovery.checkpointRollbacks + more)
  }

  /** With what cutting a longer file back to `confirmed`, or missing bytes up to there, counts. */
  function MoreCuts(recovery: Recovery, file: File, confirmed: nat): Recovery {
    var length := if file.Present? then |file.bytes| else confirmed;
    recovery.(truncations := recovery.truncations + One(length > confirmed),
              truncatedBytes := recovery.truncatedBytes + Max(0, length - confirmed),
              rewinds := recovery.rewinds + One(length < confirmed),
              rewoundBytes := recovery.rewoundBytes + Max(0, confirmed - length))
  }

  /** The history has grown, and only request `r` and item `i` have moved. */
  ghost predicate Progress(before: Run, after: Run, r: RequestId, i: ItemId) {
    && before.states != [] && after.states != [] && Continues(before, after)
    && Confined(Last(before), Last(after), r, i)
  }

  ghost predicate SameItem(before: State, after: State, j: ItemId) {
    (j in before.items <==> j in after.items) && (j in before.items ==> after.items[j] == before.items[j])
  }

  ghost predicate SameRequest(before: State, after: State, t: RequestId) {
    && (t in before.requests <==> t in after.requests)
    && (t in before.requests ==> after.requests[t] == before.requests[t])
  }

  ghost predicate Confined(before: State, after: State, r: RequestId, i: ItemId) {
    && after.chunkLimit == before.chunkLimit && (i in before.items <==> i in after.items)
    && (forall j {:trigger SameItem(before, after, j)} | j != i :: SameItem(before, after, j))
    && (forall t {:trigger SameRequest(before, after, t)} | t != r :: SameRequest(before, after, t))
  }

  lemma ProgressFromHere(run: Run, r: RequestId, i: ItemId)
    requires run.states != []
    ensures Progress(run, run, r, i)
  {
  }

  lemma ProgressTwice(a: Run, b: Run, c: Run, r: RequestId, i: ItemId)
    requires Progress(a, b, r, i) && Progress(b, c, r, i)
    ensures Progress(a, c, r, i)
  {
    ContinuesTwice(a, b, c);
    forall j | j != i
      ensures SameItem(Last(a), Last(c), j)
    {
      assert SameItem(Last(a), Last(b), j) && SameItem(Last(b), Last(c), j);
    }
    forall t | t != r
      ensures SameRequest(Last(a), Last(c), t)
    {
      assert SameRequest(Last(a), Last(b), t) && SameRequest(Last(b), Last(c), t);
    }
  }

  /** `after` is the first `c.start` bytes of `before`, then the body, all synced. */
  predicate Extends(before: File, c: Checkpoint, after: File) {
    && after.Present? && after.synced == |after.bytes| == c.start + |c.body|
    && after.bytes[c.start..] == c.body
    && (c.start > 0 ==> before.Present? && |before.bytes| == c.start && after.bytes[..c.start] == before.bytes)
  }

  datatype CompletionOutcome = Done | Declined | NoName

  /** The end of a recovery request takes its item off the list. */
  function Resumed(mode: Mode, job: Job, i: ItemId): Mode {
    if job.Recover? && mode.Recovering? then Recovering(mode.todo - {i}) else mode
  }

  /** A settled item that turns out to be whole is completed after all. */
  function Finished(i: ItemId, settled: Item, dir: Dir, spare: Path): (Item, Dir) {
    if settled.row.confirmed == settled.row.size && CanComplete(settled, dir) then Completed(i, settled, dir, spare)
    else (settled, dir)
  }

  /** The row of an upload that has become the file `bytes` under `path`. */
  predicate BecameFile(before: Row, after: Row, path: Path, bytes: seq<Byte>) {
    after == Row(before.size, before.size, Ready, false, path, Some(Sha256(bytes)))
  }

  /** The file under the registered name, which has the right size, is taken for the upload. */
  predicate TakenOver(before: Item, dir: Dir, after: Item, dir': Dir) {
    && before.row.finalPath in dir && |dir[before.row.finalPath].bytes| == before.row.size && dir' == dir
    && BecameFile(before.row, after.row, before.row.finalPath, dir[before.row.finalPath].bytes)
    && after.partial == before.partial && after.ledger == before.ledger
  }

  /** The partial file, up to the size of the upload, becomes a new file: under the registered
      name, or under its first free variant if that is taken. */
  ghost predicate MovedOver(i: ItemId, before: Item, dir: Dir, after: Item, dir': Dir) {
    && before.partial.Present? && before.row.size <= |before.partial.bytes| && after.partial.Absent?
    && var bytes := before.partial.bytes[..before.row.size];
       && Chosen(dir.Keys, before.row.finalPath, after.row.finalPath)
       && dir' == dir[after.row.finalPath := Entry(bytes, Min(before.partial.synced, before.row.size), Published(i))]
       && BecameFile(before.row, after.row, after.row.finalPath, bytes) && after.ledger == before.ledger
  }

  /** What a repeat of a committed checkpoint leaves.  A complete upload that is not ready yet
      becomes ready, with the file that has its size under its registered name if there is
      one, otherwise with its own bytes; in all other cases nothing changes. */
  ghost predicate Repeats(i: ItemId, before: Item, dir: Dir, after: Item, dir': Dir, answer: Answer) {
    var row := before.row;
    if row.confirmed == row.size && !row.state.Ready? && row.finalPath in dir && |dir[row.finalPath].bytes| == row.size
    then TakenOver(before, dir, after, dir')
    else if row.confirmed == row.size && !row.state.Ready? && row.partialPath && FileOfSize(before.partial, row.size)
            && answer.Acknowledged?
    then MovedOver(i, before, dir, after, dir')
    else after == before && dir' == dir
  }

  /** The file of a complete upload has nowhere to go: neither is there a file to adopt, nor a
      name to rename to. */
  ghost predicate CannotBeNamed(row: Row, dir: Dir) {
    && row.confirmed == row.size && !row.state.Ready? && NoNameLeft(dir.Keys, row.finalPath)
    && |dir[row.finalPath].bytes| != row.size
  }

  /** The checks that look at the request and the size alone. */
  predicate InOrder(i: ItemId, c: Checkpoint, size: nat, chunkLimit: nat) {
    && 1 <= c.length <= chunkLimit && c.start + c.length <= size
    && c.key == CheckpointKey(i, c.start, c.length, c.checksum)
  }

  predicate TakesBytes(row: Row) {
    row.partialPath && row.state != Ready && row.state != Cancelled
  }

  /** What a checkpoint in order for item `i` meets: a record of its key makes it a repeat, which
      is never refused; without one it is refused when the upload takes no more bytes, when
      it names another size, when it does not start at the recorded offset or somebody else
      is writing, and when four others are. */
  predicate RefusedInOrder(i: ItemId, c: Checkpoint, row: Row, ledger: Ledger, locks: set<ItemId>,
                           status: Option<nat>) {
    if c.key in ledger then status == None
    else if !TakesBytes(row) then status == Some(409)
    else if c.total != row.size then status == Some(400)
    else if c.start != row.confirmed || i in locks then status == Some(409)
    else if |locks| >= 4 then status == Some(503)
    else status == None
  }

  /** With which status a checkpoint is refused, if it is: tables and locks decide. */
  predicate RightlyRefused(i: ItemId, c: Checkpoint, rows: map<ItemId, Row>, commits: map<ItemId, Ledger>,
                           locks: set<ItemId>, chunkLimit: nat, status: Option<nat>) {
    if i !in rows || i !in commits then status == Some(404)
    else if InOrder(i, c, rows[i].size, chunkLimit)
    then RefusedInOrder(i, c, rows[i], commits[i], locks, status)
    else status == Some(if c.length > chunkLimit then 413 else 400)
  }

  function RefusalOf(answer: Answer): Option<nat> {
    if answer.Rejected? then Some(answer.status) else None
  }

  /** The machine's verdict is right, because a record always agrees with its key. */
  lemma VerdictIsRight(run: Run, i: ItemId, c: Checkpoint)
    requires FromStart(run)
    ensures var s := Last(run);
      var verdict := Judge(s, i, c);
      && RightlyRefused(i, c, Rows(s), Ledgers(s), s.locks, s.chunkLimit,
                        if verdict.Refused? then Some(verdict.status) else None)
      && (verdict.Replayed? <==>
            i in s.items && InOrder(i, c, s.items[i].row.size, s.chunkLimit) && c.key in s.items[i].ledger)
  {
    ReachableInv(run, |run.states| - 1);
  }

  lemma CompletedIsRepeated(i: ItemId, item: Item, dir: Dir, spare: Path, answer: Answer)
    requires CanComplete(item, dir) && item.row.confirmed == item.row.size && !item.row.state.Ready?
    requires Spares(dir, Completed(i, item, dir, spare).1, item.row.finalPath, spare)
    requires spare !in dir && answer.Acknowledged? && ItemOk(i, item)
    ensures var (item', dir') := Completed(i, item, dir, spare); Repeats(i, item, dir, item', dir', answer)
  {
    if !Occupied(item, dir) {
      assert item.partial.bytes[..item.row.size] == item.partial.bytes;
      assert Completed(i, item, dir, spare).1 != dir;
    }
  }

  /** A file that could not get the registered name has got its first free variant. */
  ghost predicate Spares(dir: Dir, dir': Dir, registered: Path, spare: Path) {
    dir' != dir && registered in dir ==> FirstFree(dir.Keys, Sanitized(registered), spare)
  }

  /** Item `i` has been recovered, and is off the list. */
  ghost predicate Recovers(before: State, after: State, r: RequestId, i: ItemId, spare: Path)
    requires i in before.items && i in after.items
  {
    && spare !in before.dir && r !in after.requests && before.mode.Recovering?
    && after.mode == Recovering(before.mode.todo - {i})
    && (after.items[i].(acked := 0), after.dir) == Recovered(i, before.items[i].(acked := 0), before.dir, spare)
    && Spares(before.dir, after.dir, before.items[i].row.finalPath, spare)
  }

  /** What recoverCommittedCompletion does to item `i`: it computes `Completed` and ends, or
      declines and changes nothing, or finds no name and stops half way, with nothing changed. */
  ghost predicate Completes(before: State, after: State, r: RequestId, i: ItemId, job: Job,
                            outcome: CompletionOutcome, spare: Path)
    requires i in before.items && i in after.items
  {
    var item, item' := before.items[i].(acked := 0), after.items[i].(acked := 0);
    && spare !in before.dir
    && (job.Replay? && !outcome.NoName? ==> item.row.confirmed <= after.items[i].acked)
    && match outcome
       case Done =>
         && CanComplete(item, before.dir) && r !in after.requests && after.mode == Resumed(before.mode, job, i)
         && (item', after.dir) == Completed(i, item, before.dir, spare)
         && Spares(before.dir, after.dir, item.row.finalPath, spare)
       case Declined =>
         && !CanComplete(item, before.dir) && after.dir == before.dir && item' == item
         && (if job == Recover(false) then
               && after.items == before.items && after.mode == before.mode
               && r in after.requests && after.requests[r] == Request(i, job, item.row, Inspecting)
             else r !in after.requests && after.mode == Resumed(before.mode, job, i))
       case NoName =>
         && after.items == before.items && after.dir == before.dir && after.mode == before.mode
         && CanComplete(item, before.dir) && !Occupied(item, before.dir)
         && NoNameLeft(before.dir.Keys, item.row.finalPath)
         && r in after.requests && after.requests[r].item == i
         && after.requests[r].job == job && after.requests[r].stage.Hashed?
  }

  /** Some path that is not in the directory. */
  ghost function FreshPath(dir: Dir): (p: Path)
    ensures p !in dir
  {
    FreshPathExists(dir.Keys);
    var p :| p !in dir.Keys;
    p
  }

  /** No fault is injected up to the commit. */
  predicate CanCommit(plan: Plan) {
    !plan.beforeWrite && !plan.fsyncFails && !plan.beforeCommit && plan.commitFault.NoFault?
  }

  /** The status of an admitted checkpoint that fails before its commit while its connection
      holds: the file does not end where it starts, the body is too short or too long, or it
      is another body; anything else is an internal error. */
  function FailureStatus(plan: Plan, file: File, c: Checkpoint): nat {
    if plan.beforeWrite || (c.start > 0 && file.Absent?) then 500
    else if c.start > 0 && |file.bytes| != c.start then 409
    else if |c.body| != c.length then 400
    else if Sha256(c.body) != c.checksum then 460
    else 500
  }

  /** Nothing goes wrong between the commit of `c` and its answer. */
  ghost predicate CanAnswer(plan: Plan, row: Row, c: Checkpoint, dir: Dir) {
    && !plan.afterCommit
    && (c.start + c.length == row.size ==> !plan.finalizeFails && !NoNameLeft(dir.Keys, row.finalPath))
  }

  function LedgerAfter(l: Ledger, c: Checkpoint, now: int): Ledger {
    Trim(l[c.key := Commit(c.start, c.start + c.length, c.checksum, now)], MAX_COMMITS_PER_ITEM)
  }

  /** A committed checkpoint: the row has advanced to its end, and `file`, the synced partial
      file, is still there or is the published file of a ready row. */
  predicate CommittedRow(before: Row, c: Checkpoint, row: Row, partial: File, dir: Dir, file: File) {
    && file.Present? && row.confirmed == c.start + c.length && row.size == before.size
    && if row.state.Ready? then
         && partial.Absent? && row.confirmed == row.size
         && row.finalPath in dir && dir[row.finalPath].bytes == file.bytes && row.sha256 == Some(Sha256(file.bytes))
       else row == before.(confirmed := c.start + c.length, state := Transferring) && partial == file
  }

  /** The file is in order for the checkpoint, and its body is the announced one. */
  predicate Fits(file: File, c: Checkpoint) {
    (c.start == 0 || FileOfSize(file, c.start)) && |c.body| == c.length && Sha256(c.body) == c.checksum
  }

  /** What a failing checkpoint leaves of the file that ended at its start. */
  predicate KeepsStart(before: File, c: Checkpoint, after: File) {
    c.start > 0 && before.Present? && c.start <= |before.bytes| ==>
      after.Present? && c.start <= |after.bytes| && after.bytes[..c.start] == before.bytes[..c.start]
  }

  /** The last checkpoint has been finalized, or row and files are as they were. */
  predicate Answered(row: Row, file: File, dir: Dir, row': Row, partial': File, dir': Dir, finalized: bool) {
    if finalized then
      && file.Present? && row'.state.Ready? && row'.confirmed == row'.size == row.size && partial'.Absent?
      && row'.finalPath in dir' && dir'[row'.finalPath].bytes == file.bytes && row'.sha256 == Some(Sha256(file.bytes))
    else row' == row && partial' == file && dir' == dir
  }

  lemma AnsweredIsCommitted(before: Row, c: Checkpoint, row: Row, file: File, dir: Dir, row': Row, partial': File,
                            dir': Dir, finalized: bool)
    requires Answered(row, file, dir, row', partial', dir', finalized) && file.Present?
    requires row == before.(confirmed := c.start + c.length, state := Transferring)
    requires finalized ==> row.confirmed == row.size
    ensures CommittedRow(before, c, row', partial', dir', file) && (finalized ==> row'.state.Ready?)
  {
  }

  /** A committed checkpoint as its caller sees it: exactly the verified body behind the old
      file, the new row, and the trimmed ledger with the new record. */
  ghost predicate Stored(before: Row, ledger: Ledger, partial: File, c: Checkpoint, now: int,
                         row: Row, ledger': Ledger, partial': File, dir: Dir) {
    && before.confirmed == c.start && |c.body| == c.length && Sha256(c.body) == c.checksum
    && (exists file :: Extends(partial, c, file) && CommittedRow(before, c, row, partial', dir, file))
    && ledger' == LedgerAfter(ledger, c, now)
  }

  /** The whole partial file has become the published file `target` of a ready row. */
  ghost predicate PublishedAs(i: ItemId, before: Item, dir: Dir, after: Item, dir': Dir, row: Row, target: Path) {
    && before.partial.Present?
    && dir' == dir[target := Entry(before.partial.bytes, before.partial.synced, Published(i))]
    && BecameFile(row, after.row, target, before.partial.bytes)
    && after.partial.Absent? && after.ledger == before.ledger
  }

  function Flushed(f: File): File
    requires f.Present?
  {
    Present(f.bytes, |f.bytes|)
  }

  lemma FlushedExtends(f: File, c: Checkpoint)
    requires FileOfSize(f, c.start)
    ensures Extends(f, c, Flushed(Appended(f, c.body)))
  {
  }

  function Appended(f: File, piece: seq<Byte>): File
    requires f.Present?
  {
    f.(bytes := f.bytes + piece)
  }

  /** A broken or refused body leaves the file that it was appended to, whether or not it is cut. */
  lemma AppendedKeepsStart(f: File, piece: seq<Byte>, c: Checkpoint)
    requires FileOfSize(f, c.start)
    ensures KeepsStart(f, c, Appended(f, piece)) && KeepsStart(f, c, Truncated(Appended(f, piece), c.start))
  {
  }

  lemma NothingAppended(f: File, body: seq<Byte>)
    requires f.Present?
    ensures Appended(f, body[..0]) == f
  {
  }

  lemma PieceAppended(f: File, body: seq<Byte>, written: nat, count: nat)
    requires written + count <= |body| && f.Present?
    ensures Appended(Appended(f, body[..written]), body[written..written + count])
      == Appended(f, body[..written + count])
  {
    assert body[..written + count] == body[..written] + body[written..written + count];
    assert f.bytes + body[..written + count] == (f.bytes + body[..written]) + body[written..written + count];
  }

  /** The row of a new upload; an empty file is ready at once. */
  predicate NewRow(row: Row, size: nat, path: Path) {
    row == if size == 0 then Row(0, 0, Ready, false, path, Some(Sha256([])))
           else Row(size, 0, Pending, true, path, None)
  }

  class RoomStore {
    const repository: SqliteRoomRepository
    const chunkLimit: nat
    var partials: map<ItemId, File>
    var dir: Dir
    var writeLocks: set<ItemId>
    var recovery: Recovery
    ghost var history: Run

    ghost function Now(): State
      requires history.states != []
      reads this`history
    {
      Last(history)
    }

    ghost predicate Mirrors(s: State)
      reads this, repository
    {
      && repository.rows == Rows(s) && repository.commits == Ledgers(s) && partials == Partials(s)
      && dir == s.dir && writeLocks == s.locks && chunkLimit == s.chunkLimit
    }

    ghost predicate Valid()
      reads this, repository
    {
      FromStart(history) && Mirrors(Now())
    }

    predicate Holds(i: ItemId)
      reads this, repository
    {
      i in repository.rows && i in repository.commits && i in partials
    }

    /** What tables and files say about an item. */
    ghost function StoredItem(i: ItemId): Item
      requires Holds(i)
      reads this, repository
    {
      Item(repository.rows[i], repository.commits[i], partials[i], 0)
    }

    constructor (chunkLimit: nat)
      ensures Valid() && Now() == Initial(chunkLimit) && fresh(repository)
    {
      this.repository := new SqliteRoomRepository();
      this.chunkLimit := chunkLimit;
      partials, dir, writeLocks := map[], map[], {};
      recovery := Recovery(0, 0, 0, 0, 0, 0, 0);
      history := Run([Initial(chunkLimit)], []);
    }

    ghost method Record(l: Label)
      requires FromStart(history) && Enabled(Now(), l) && Mirrors(Apply(Now(), l))
      modifies this`history
      ensures Valid() && Now() == Apply(old(Now()), l) && Continues(old(history), history)
    {
      history := Extended(history, l);
    }

    /** Request `r` has finished one segment with event `e`. */
    ghost method Segment(r: RequestId, e: Event, now: int)
      requires FromStart(history) && Enabled(Now(), Advance(r, e, now))
      requires var q := Now().requests[r];
               var f := Step(q.item, Now().items[q.item], Now().dir, q, e, now);
               && repository.rows == Rows(Now())[q.item := f.item.row]
               && repository.commits == Ledgers(Now())[q.item := f.item.ledger]
               && partials == Partials(Now())[q.item := f.item.partial]
               && dir == f.dir && chunkLimit == Now().chunkLimit
               && writeLocks == (if f.next.None? && q.job.Upload? then Now().locks - {q.item} else Now().locks)
      modifies this`history
      ensures Valid() && Progress(old(history), history, r, old(Now()).requests[r].item)
      ensures var q := old(Now()).requests[r];
              Now() == Moved(old(Now()), r, Step(q.item, old(Now()).items[q.item], old(Now()).dir, q, e, now))
    {
      var q := Now().requests[r];
      var f := Step(q.item, Now().items[q.item], Now().dir, q, e, now);
      MovedProjections(Now(), r, f);
      assert Apply(Now(), Advance(r, e, now)) == Moved(Now(), r, f);
      Record(Advance(r, e, now));
    }

    /** Request `r` works on item `i` and has reached `stage`. */
    ghost predicate At(r: RequestId, i: ItemId, job: Job, stage: Stage)
      reads this, repository
    {
      && Valid() && r in Now().requests && i in Now().items && !Now().mode.Down?
      && Now().requests[r].item == i && Now().requests[r].job == job && Now().requests[r].stage == stage
    }

    /** The checks in front of the write lock. */
    method CheckCheckpoint(i: ItemId, c: Checkpoint) returns (verdict: Verdict)
      requires Valid()
      ensures verdict == Judge(Now(), i, c)
    {
      if i !in repository.rows {
        return Refused(404);
      }
      var row := repository.rows[i];
      if c.length < 1 {
        return Refused(400);
      } else if c.length > chunkLimit {
        return Refused(413);
      } else if c.key != KeyOf(i, c) || c.start + c.length > row.size {
        return Refused(400);
      }
      var existing := repository.GetUploadCommit(i, c.key);
      if existing.Some? {
        var known := existing.value;
        if known.start != c.start || known.end != c.start + c.length || known.checksum != c.checksum {
          return Refused(409);
        }
        return Replayed;
      } else if !row.partialPath || row.state.Ready? || row.state.Cancelled? {
        return Refused(409);
      } else if c.total != row.size {
        return Refused(400);
      } else if c.start != row.confirmed || i in writeLocks {
        return Refused(409);
      } else if |writeLocks| >= MAX_ACTIVE_WRITES {
        return Refused(503);
      }
      return Accepted;
    }

    /** The first segment of an accepted checkpoint takes the write lock. */
    method TakeLock(ghost r: RequestId, i: ItemId, c: Checkpoint)
      requires Valid() && Now().mode.Serving? && r !in Now().requests && Judge(Now(), i, c).Accepted?
      modifies this`writeLocks, this`history
      ensures Progress(old(history), history, r, i) && Now().mode.Serving?
      ensures At(r, i, Upload(c), Admitted) && Now().requests[r].snap == repository.rows[i]
      ensures i !in old(writeLocks) && writeLocks == old(writeLocks) + {i}
    {
      writeLocks := writeLocks + {i};
      ReceiveProjections(Now(), r, i, c);
      Record(Receive(r, i, c));
    }

    /** The first segment of a repeat only counts it. */
    method BeginRepeat(ghost r: RequestId, i: ItemId, c: Checkpoint)
      requires Valid() && Now().mode.Serving? && r !in Now().requests && Judge(Now(), i, c).Replayed?
      modifies this`history, this`recovery
      ensures Valid() && Progress(old(history), history, r, i) && Now().mode.Serving?
      ensures Holds(i) && i in Now().items && Arrived(r, i, repository.rows[i])
      ensures recovery == old(recovery).(idempotentReplays := old(recovery).idempotentReplays + 1)
    {
      recovery := recovery.(idempotentReplays := recovery.idempotentReplays + 1);
      RecordRepeat(r, i, c);
    }

    ghost method RecordRepeat(r: RequestId, i: ItemId, c: Checkpoint)
      requires Valid() && Now().mode.Serving? && r !in Now().requests && Judge(Now(), i, c).Replayed?
      modifies this`history
      ensures Valid() && Progress(old(history), history, r, i) && Now().mode.Serving?
      ensures Holds(i) && i in Now().items && Arrived(r, i, repository.rows[i])
    {
      ghost var before := Now();
      ReceiveProjections(before, r, i, c);
      Record(Receive(r, i, c));
      RepeatReceived(before, r, i, c);
    }

    /** A repeat is answered by the recorded offset at once, or goes on to complete the item. */
    ghost predicate Arrived(r: RequestId, i: ItemId, row: Row)
      requires Valid() && i in Now().items
      reads this, repository
    {
      if row.confirmed != row.size || row.state.Ready?
      then row.confirmed <= Now().items[i].acked && r !in Now().requests
      else At(r, i, Replay, Probing) && Now().requests[r].snap == row
    }

    /* -------- segments of a checkpoint that holds the write lock -------- */

    /** The request fails without touching the file; `finally` releases its lock. */
    method Abandon(ghost r: RequestId, i: ItemId, ghost job: Job, ghost stage: Stage, locked: bool)
      requires At(r, i, job, stage) && Now().mode.Serving? && !job.Recover? && !RecoveryStage(stage)
      requires (WriterStage(stage) ==> job.Upload?) && (locked <==> job.Upload?)
      modifies this`writeLocks, this`history
      ensures Valid() && Progress(old(history), history, r, i) && Now().mode == old(Now()).mode && r !in Now().requests
      ensures Now().items == old(Now()).items && dir == old(dir)
      ensures writeLocks == if locked then old(writeLocks) - {i} else old(writeLocks)
    {
      if locked {
        writeLocks := writeLocks - {i};
      }
      Segment(r, Fail(false), 0);
    }

    /** The request fails and tries to truncate the partial file back to its start. */
    method RollBack(ghost r: RequestId, i: ItemId, c: Checkpoint, ghost stage: Stage, works: bool)
      requires At(r, i, Upload(c), stage) && Now().mode.Serving? && RollsBack(stage)
      modifies this`writeLocks, this`history, this`partials
      ensures Valid() && Progress(old(history), history, r, i) && Now().mode == old(Now()).mode && r !in Now().requests
      ensures Now().items[i] == old(Now()).items[i].(partial := partials[i]) && dir == old(dir)
      ensures partials[i] == if works then Truncated(old(partials)[i], c.start) else old(partials)[i]
      ensures writeLocks == old(writeLocks) - {i}
    {
      if works {
        partials := partials[i := Truncated(partials[i], c.start)];
      }
      writeLocks := writeLocks - {i};
      Segment(r, Fail(works), 0);
    }

    /** stat of the partial file, then createWriteStream with flag "w" or "a". */
    method OpenPartial(ghost r: RequestId, i: ItemId, c: Checkpoint) returns (ok: bool)
      requires At(r, i, Upload(c), Admitted) && Now().mode.Serving?
      modifies this`writeLocks, this`history, this`partials
      ensures Valid() && Progress(old(history), history, r, i) && Now().mode == old(Now()).mode && dir == old(dir)
      ensures ok <==> c.start == 0 || FileOfSize(old(partials)[i], c.start)
      ensures Now().items[i] == old(Now()).items[i].(partial := partials[i])
      ensures ok ==> At(r, i, Upload(c), Writing(0)) && FileOfSize(partials[i], c.start)
                     && (c.start > 0 ==> partials[i] == old(partials)[i]) && writeLocks == old(writeLocks)
      ensures !ok ==> r !in Now().requests && partials == old(partials) && writeLocks == old(writeLocks) - {i}
    {
      if c.start > 0 && !FileOfSize(partials[i], c.start) {
        writeLocks := writeLocks - {i};
        ok := false;
      } else {
        if c.start == 0 {
          partials := partials[i := Present([], 0)];
        }
        ok := true;
      }
      Segment(r, Proceed, 0);
    }

    method WritePiece(ghost r: RequestId, i: ItemId, c: Checkpoint, written: nat, count: nat)
      requires At(r, i, Upload(c), Writing(written)) && Now().mode.Serving? && partials[i].Present?
      requires 0 < count && written + count <= |c.body|
      modifies this`history, this`partials
      ensures At(r, i, Upload(c), Writing(written + count)) && Progress(old(history), history, r, i)
      ensures Now().mode == old(Now()).mode
      ensures dir == old(dir)
      ensures partials[i] == Appended(old(partials)[i], c.body[written..written + count])
      ensures Now().items[i] == old(Now()).items[i].(partial := partials[i])
    {
      partials := partials[i := Appended(partials[i], c.body[written..written + count])];
      Segment(r, Write(count), 0);
    }

    /** The comparison of length and checksum after the body has ended. */
    method VerifyBody(ghost r: RequestId, i: ItemId, c: Checkpoint, written: nat) returns (ok: bool)
      requires At(r, i, Upload(c), Writing(written)) && Now().mode.Serving? && written == |c.body|
      modifies this`history
      ensures ok <==> written == c.length && Sha256(c.body) == c.checksum
      ensures ok ==> At(r, i, Upload(c), Written) && Progress(old(history), history, r, i)
      ensures ok ==> Now().mode == old(Now()).mode && Now().items == old(Now()).items
      ensures !ok ==> history == old(history)
      ensures Valid()
    {
      ok := written == c.length && Sha256(c.body) == c.checksum;
      if ok {
        Segment(r, Proceed, 0);
      }
    }

    /** Between two pieces: the file is `base` and what has been written of the body. */
    ghost predicate Streaming(start: Run, base: File, r: RequestId, i: ItemId, c: Checkpoint, written: nat)
      requires start.states != []
      reads this, repository
    {
      && At(r, i, Upload(c), Writing(written)) && Progress(start, history, r, i)
      && Now().mode == Last(start).mode == Serving && dir == Last(start).dir
      && base.Present? && written <= |c.body| && partials[i] == Appended(base, c.body[..written])
      && i in Last(start).items && Now().items[i] == Last(start).items[i].(partial := partials[i])
    }

    lemma StreamingBegins(r: RequestId, i: ItemId, c: Checkpoint)
      requires At(r, i, Upload(c), Writing(0)) && Now().mode.Serving? && FileOfSize(partials[i], c.start)
      ensures Streaming(history, partials[i], r, i, c, 0)
    {
      NothingAppended(partials[i], c.body);
      ProgressFromHere(history, r, i);
    }

    /** Some more of the body arrives. */
    method StreamPiece(ghost start: Run, ghost base: File, ghost r: RequestId, i: ItemId, c: Checkpoint, written: nat)
      returns (next: nat)
      requires start.states != [] && Streaming(start, base, r, i, c, written) && written < |c.body|
      modifies this`history, this`partials
      ensures written < next <= |c.body| && Streaming(start, base, r, i, c, next)
    {
      ghost var before := history;
      var count :| 0 < count <= |c.body| - written;
      PieceAppended(base, c.body, written, count);
      WritePiece(r, i, c, written, count);
      ProgressTwice(start, before, history, r, i);
      next := written + count;
    }

    /** The pipeline: pieces of the body arrive until it ends or the connection breaks. */
    method StreamBody(ghost r: RequestId, i: ItemId, c: Checkpoint, breakAt: Option<nat>) returns (written: nat)
      requires At(r, i, Upload(c), Writing(0)) && Now().mode.Serving? && FileOfSize(partials[i], c.start)
      modifies this`history, this`partials
      ensures written <= |c.body| && (breakAt.None? ==> written == |c.body|)
      ensures Streaming(old(history), old(partials)[i], r, i, c, written)
    {
      StreamingBegins(r, i, c);
      written := StreamPieces(history, partials[i], r, i, c, breakAt);
    }

    method StreamPieces(ghost start: Run, ghost base: File, ghost r: RequestId, i: ItemId, c: Checkpoint,
                        breakAt: Option<nat>)
      returns (written: nat)
      requires start.states != [] && Streaming(start, base, r, i, c, 0)
      modifies this`history, this`partials
      ensures written <= |c.body| && (breakAt.None? ==> written == |c.body|)
      ensures Streaming(start, base, r, i, c, written)
    {
      written := 0;
      while written < |c.body| && !(breakAt.Some? && breakAt.value <= written)
        invariant written <= |c.body| && Streaming(start, base, r, i, c, written)
      {
        written := StreamPiece(start, base, r, i, c, written);
      }
    }

    method SyncPartial(ghost r: RequestId, i: ItemId, c: Checkpoint)
      requires At(r, i, Upload(c), Written) && Now().mode.Serving? && partials[i].Present?
      modifies this`history, this`partials
      ensures At(r, i, Upload(c), Synced) && Progress(old(history), history, r, i) && Now().mode == old(Now()).mode
      ensures partials[i] == old(partials)[i].(synced := |old(partials)[i].bytes|)
      ensures Now().items[i] == old(Now()).items[i].(partial := partials[i]) && dir == old(dir)
    {
      partials := partials[i := partials[i].(synced := |partials[i].bytes|)];
      Segment(r, Proceed, 0);
    }

    /** The SQLite transaction; a failing one tries to truncate the file back. */
    method CommitCheckpoint(ghost r: RequestId, i: ItemId, c: Checkpoint, row: Row, now: int, fault: CommitFault)
      returns (ok: bool)
      requires At(r, i, Upload(c), Synced) && Now().mode.Serving? && Now().requests[r].snap == row
      modifies this`history, repository
      ensures Valid() && dir == old(dir)
      ensures ok <==> fault.NoFault? && c.key !in old(repository.commits)[i]
      ensures ok ==>
        && At(r, i, Upload(c), Committed) && Progress(old(history), history, r, i) && Now().mode == old(Now()).mode
        && Now().requests[r].snap == row.(confirmed := c.start + c.length, state := Transferring) == repository.rows[i]
        && repository.commits[i]
          == old(repository.commits)[i][c.key := Commit(c.start, c.start + c.length, c.checksum, now)]
        && Now().items[i].partial == old(Now()).items[i].partial
      ensures !ok ==> history == old(history)
      ensures !ok ==> repository.rows == old(repository.rows) && repository.commits == old(repository.commits)
    {
      var next := row.(confirmed := c.start + c.length, state := Transferring);
      ok := repository.CommitUploadCheckpoint(i, next, c.key,
                                              Commit(c.start, c.start + c.length, c.checksum, now), fault);
      if ok {
        Segment(r, Proceed, now);
      }
    }

    method TrimCommits(ghost r: RequestId, i: ItemId, c: Checkpoint)
      requires At(r, i, Upload(c), Committed) && Now().mode.Serving?
      modifies this`history, repository
      ensures At(r, i, Upload(c), Trimmed) && Progress(old(history), history, r, i) && Now().mode == old(Now()).mode
      ensures Now().requests[r].snap == old(Now()).requests[r].snap && repository.rows == old(repository.rows)
      ensures repository.commits[i] == Trim(old(repository.commits)[i], MAX_COMMITS_PER_ITEM)
      ensures Now().items[i].partial == old(Now()).items[i].partial && dir == old(dir)
    {
      repository.TrimUploadCommits(i, MAX_COMMITS_PER_ITEM);
      Segment(r, Proceed, 0);
    }

    /** The acknowledgement of a checkpoint that does not complete the file. */
    method Acknowledge(ghost r: RequestId, i: ItemId, c: Checkpoint, row: Row) returns (offset: nat)
      requires At(r, i, Upload(c), Trimmed) && Now().mode.Serving? && Now().requests[r].snap == row
      requires row.confirmed != row.size
      modifies this`history, this`writeLocks
      ensures Valid() && Progress(old(history), history, r, i) && Now().mode == old(Now()).mode && r !in Now().requests
      ensures offset == row.confirmed <= Now().items[i].acked && writeLocks == old(writeLocks) - {i}
      ensures Now().items[i].(acked := 0) == old(Now()).items[i].(acked := 0) && dir == old(dir)
    {
      offset := row.confirmed;
      writeLocks := writeLocks - {i};
      Segment(r, Proceed, 0);
    }

    /* ------------- completion: finalizeUpload and its recovery ----------- */

    method HashPartial(ghost r: RequestId, i: ItemId, ghost job: Job, ghost row: Row) returns (sha: Digest)
      requires At(r, i, job, Finalizing) && Now().requests[r].snap == row && partials[i].Present?
      modifies this`history
      ensures At(r, i, job, Hashed(sha)) && Now().requests[r].snap == row && sha == Sha256(partials[i].bytes)
      ensures Progress(old(history), history, r, i) && Now().mode == old(Now()).mode && Now().items == old(Now()).items
    {
      sha := Sha256(partials[i].bytes);
      Segment(r, Proceed, 0);
    }

    /** The registered name, or the first free variant of it when it is occupied. */
    method ChooseName(ghost r: RequestId, i: ItemId, ghost job: Job, row: Row, ghost sha: Digest)
      returns (target: Option<Path>)
      requires At(r, i, job, Hashed(sha)) && Now().requests[r].snap == row
      modifies this`history
      ensures Valid()
      ensures Progress(old(history), history, r, i) && Now().mode == old(Now()).mode && Now().items == old(Now()).items
      ensures target.Some? ==> At(r, i, job, Named(sha, target.value)) && Now().requests[r].snap == row
                               && Chosen(dir.Keys, row.finalPath, target.value)
      ensures target.None? ==> history == old(history)
      ensures target.None? <==> NoNameLeft(old(dir).Keys, row.finalPath)
    {
      target := ChoosePath(dir.Keys, row.finalPath);
      if target.Some? {
        RecordName(r, i, job, row, sha, target.value);
      }
    }

    ghost method RecordName(r: RequestId, i: ItemId, job: Job, row: Row, sha: Digest, target: Path)
      requires At(r, i, job, Hashed(sha)) && Now().requests[r].snap == row
      requires if row.finalPath in dir then target !in dir else target == row.finalPath
      modifies this`history
      ensures At(r, i, job, Named(sha, target)) && Now().requests[r].snap == row
      ensures Progress(old(history), history, r, i) && Now().mode == old(Now()).mode && Now().items == old(Now()).items
    {
      Segment(r, Target(target), 0);
    }

    /** availableFilePath in the one destination directory, nothing being reserved. */
    method FindName(name: string) returns (target: Option<Path>)
      ensures target.Some? ==> FirstFree(dir.Keys, Sanitized(name), target.value) && target.value !in dir
      ensures target.None? ==> AllTaken(dir.Keys, Sanitized(name))
    {
      assert dir.Keys + {} == dir.Keys;
      target := AvailableFilePath(dir.Keys, name, {});
      if target.Some? {
        FirstFreeIsFree(dir.Keys, Sanitized(name), target.value);
      }
    }

    method RenamePartial(ghost r: RequestId, i: ItemId, ghost job: Job, row: Row, sha: Digest, target: Path)
      requires At(r, i, job, Named(sha, target)) && Now().requests[r].snap == row && partials[i].Present?
      modifies this`history, this`partials, this`dir
      ensures At(r, i, job, Renamed(sha, target)) && Now().requests[r].snap == row
      ensures Progress(old(history), history, r, i) && Now().mode == old(Now()).mode
      ensures Now().items[i] == old(Now()).items[i].(partial := Absent)
      ensures dir == old(dir)[target := Entry(old(partials)[i].bytes, old(partials)[i].synced, Published(i))]
    {
      dir := dir[target := Entry(partials[i].bytes, partials[i].synced, Published(i))];
      partials := partials[i := Absent];
      Segment(r, Proceed, 0);
    }

    /** The row update that makes the upload ready, and the end of its request. */
    method PublishRow(ghost r: RequestId, i: ItemId, ghost job: Job, row: Row, sha: Digest, target: Path, locked: bool)
      requires At(r, i, job, Renamed(sha, target)) && Now().requests[r].snap == row && (locked <==> job.Upload?)
      requires !job.Recover? ==> Now().mode.Serving?
      requires job.Recover? ==> Now().mode.Recovering?
      modifies this`history, this`writeLocks, repository
      ensures Valid() && dir == old(dir) && r !in Now().requests
      ensures Progress(old(history), history, r, i)
      ensures !job.Recover? ==> Now().mode == old(Now()).mode
      ensures job.Recover? ==> Now().mode == Recovering(old(Now()).mode.todo - {i})
      ensures Now().items[i].(acked := 0) == old(Now()).items[i].(row := ReadyRow(row, sha, target), acked := 0)
      ensures !job.Recover? ==> row.size <= Now().items[i].acked
      ensures writeLocks == if locked then old(writeLocks) - {i} else old(writeLocks)
    {
      repository.UpdateItem(i, ReadyRow(row, sha, target));
      if locked {
        writeLocks := writeLocks - {i};
      }
      Segment(r, Proceed, 0);
    }

    method Publish(ghost r: RequestId, i: ItemId, ghost job: Job, row: Row, sha: Digest, target: Path, locked: bool)
      requires At(r, i, job, Named(sha, target)) && Now().requests[r].snap == row && partials[i].Present?
      requires sha == Sha256(partials[i].bytes)
      requires (locked <==> job.Upload?) && if job.Recover? then Now().mode.Recovering? else Now().mode.Serving?
      modifies this`history, this`partials, this`dir, this`writeLocks, repository
      ensures Valid() && Progress(old(history), history, r, i) && r !in Now().requests
      ensures i in Now().items && PublishedAs(i, old(Now()).items[i], old(dir), Now().items[i], dir, row, target)
      ensures Now().mode == Resumed(old(Now()).mode, job, i) && (!job.Recover? ==> row.size <= Now().items[i].acked)
      ensures writeLocks == if locked then old(writeLocks) - {i} else old(writeLocks)
    {
      RenamePartial(r, i, job, row, sha, target);
      ghost var renamed := history;
      PublishRow(r, i, job, row, sha, target, locked);
      ProgressTwice(old(history), renamed, history, r, i);
    }

    /** finalizeUpload: the whole partial file becomes the final file. */
    method FinalizeUpload(ghost r: RequestId, i: ItemId, ghost job: Job, row: Row, locked: bool)
      returns (target: Option<Path>)
      requires At(r, i, job, Finalizing) && Now().requests[r].snap == row && partials[i].Present?
      requires (locked <==> job.Upload?) && if job.Recover? then Now().mode.Recovering? else Now().mode.Serving?
      modifies this`history, this`partials, this`dir, this`writeLocks, repository
      ensures Valid() && Progress(old(history), history, r, i)
      ensures target.None? <==> NoNameLeft(old(dir).Keys, row.finalPath)
      ensures target.None? ==>
        && At(r, i, job, Hashed(Sha256(old(partials)[i].bytes))) && Now().mode == old(Now()).mode
        && Now().items == old(Now()).items && dir == old(dir) && writeLocks == old(writeLocks)
      ensures target.Some? ==>
        && r !in Now().requests && Chosen(old(dir).Keys, row.finalPath, target.value)
        && i in Now().items && PublishedAs(i, old(Now()).items[i], old(dir), Now().items[i], dir, row, target.value)
        && Now().mode == Resumed(old(Now()).mode, job, i) && (!job.Recover? ==> row.size <= Now().items[i].acked)
        && writeLocks == if locked then old(writeLocks) - {i} else old(writeLocks)
    {
      var sha;
      sha, target := HashAndName(r, i, job, row);
      if target.Some? {
        ghost var named := history;
        Publish(r, i, job, row, sha, target.value, locked);
        ProgressTwice(old(history), named, history, r, i);
      }
    }

    method HashAndName(ghost r: RequestId, i: ItemId, ghost job: Job, row: Row)
      returns (sha: Digest, target: Option<Path>)
      requires At(r, i, job, Finalizing) && Now().requests[r].snap == row && partials[i].Present?
      modifies this`history
      ensures Valid() && Progress(old(history), history, r, i) && Now().mode == old(Now()).mode
      ensures Now().items == old(Now()).items
      ensures sha == Sha256(partials[i].bytes)
      ensures target.Some? ==> At(r, i, job, Named(sha, target.value)) && Now().requests[r].snap == row
                               && Chosen(dir.Keys, row.finalPath, target.value)
      ensures target.None? ==> At(r, i, job, Hashed(sha))
      ensures target.None? <==> NoNameLeft(old(dir).Keys, row.finalPath)
    {
      sha := HashPartial(r, i, job, row);
      ghost var hashed := history;
      target := ChooseName(r, i, job, row, sha);
      if target.Some? {
        ProgressTwice(old(history), hashed, history, r, i);
      }
    }

    /** After the body: compare, roll back or sync. */
    method VerifyAndSync(ghost r: RequestId, i: ItemId, c: Checkpoint, plan: Plan) returns (ok: bool, status: nat)
      requires At(r, i, Upload(c), Writing(|c.body|)) && Now().mode.Serving? && partials[i].Present?
      modifies this`writeLocks, this`history, this`partials
      ensures Valid() && Progress(old(history), history, r, i) && Now().mode.Serving? && dir == old(dir)
      ensures Now().items[i] == old(Now()).items[i].(partial := partials[i])
      ensures ok <==> |c.body| == c.length && Sha256(c.body) == c.checksum && !plan.fsyncFails
      ensures ok ==>
        At(r, i, Upload(c), Synced) && writeLocks == old(writeLocks) && partials[i] == Flushed(old(partials)[i])
      ensures !ok ==> r !in Now().requests && writeLocks == old(writeLocks) - {i}
      ensures !ok ==> status == if |c.body| != c.length then 400 else if Sha256(c.body) != c.checksum then 460 else 500
      // a mismatch is truncated away if that works; a failing sync leaves the tail
      ensures !ok ==> partials[i] == if !(|c.body| == c.length && Sha256(c.body) == c.checksum) && plan.rollbackWorks
                                     then Truncated(old(partials)[i], c.start) else old(partials)[i]
    {
      status := if |c.body| != c.length then 400 else if Sha256(c.body) != c.checksum then 460 else 500;
      ok := VerifyBody(r, i, c, |c.body|);
      if ok {
        ghost var verified := history;
        ok := SyncOrFail(r, i, c, plan.fsyncFails);
        ProgressTwice(old(history), verified, history, r, i);
      } else {
        RollBack(r, i, c, Writing(|c.body|), plan.rollbackWorks);
      }
    }

    /** A failing fsync is not rolled back: the tail stays in the file. */
    method SyncOrFail(ghost r: RequestId, i: ItemId, c: Checkpoint, fails: bool) returns (ok: bool)
      requires At(r, i, Upload(c), Written) && Now().mode.Serving? && partials[i].Present?
      modifies this`writeLocks, this`history, this`partials
      ensures Valid() && Progress(old(history), history, r, i) && Now().mode.Serving? && dir == old(dir)
      ensures Now().items[i] == old(Now()).items[i].(partial := partials[i]) && ok == !fails
      ensures ok ==>
        At(r, i, Upload(c), Synced) && writeLocks == old(writeLocks) && partials[i] == Flushed(old(partials)[i])
      ensures !ok ==> r !in Now().requests && writeLocks == old(writeLocks) - {i} && partials[i] == old(partials)[i]
    {
      ok := !fails;
      if fails {
        Abandon(r, i, Upload(c), Written, true);
      } else {
        SyncPartial(r, i, c);
      }
    }

    /* ------------------------- the whole checkpoint ---------------------- */

    method StreamAndSync(ghost r: RequestId, i: ItemId, c: Checkpoint, plan: Plan) returns (ok: bool, status: nat)
      requires At(r, i, Upload(c), Writing(0)) && Now().mode.Serving? && FileOfSize(partials[i], c.start)
      modifies this`writeLocks, this`history, this`partials
      ensures Valid() && Progress(old(history), history, r, i) && Now().mode.Serving? && dir == old(dir)
      ensures Now().items[i] == old(Now()).items[i].(partial := partials[i])
      ensures ok ==> At(r, i, Upload(c), Synced) && writeLocks == old(writeLocks)
                     && partials[i] == Flushed(Appended(old(partials)[i], c.body))
                     && |c.body| == c.length && Sha256(c.body) == c.checksum
      ensures !ok ==> r !in Now().requests && writeLocks == old(writeLocks) - {i}
      ensures ok ==> !plan.fsyncFails
      ensures plan.breakAt.None? ==>
        && (ok <==> |c.body| == c.length && Sha256(c.body) == c.checksum && !plan.fsyncFails)
        && (!ok ==> status == if |c.body| != c.length then 400 else if Sha256(c.body) != c.checksum then 460 else 500)
      ensures !ok ==> KeepsStart(old(partials)[i], c, partials[i])
    {
      var written := StreamBody(r, i, c, plan.breakAt);
      ghost var streamed := history;
      AppendedKeepsStart(old(partials)[i], c.body[..written], c);
      if written < |c.body| {
        RollBack(r, i, c, Writing(written), plan.rollbackWorks);
        ok, status := false, 500;
      } else {
        assert c.body[..written] == c.body;
        ok, status := VerifyAndSync(r, i, c, plan);
      }
      ProgressTwice(old(history), streamed, history, r, i);
    }

    /** From the lock to the fsync: stat, open, stream, compare, sync. */
    method WriteAndSync(ghost r: RequestId, i: ItemId, c: Checkpoint, plan: Plan) returns (ok: bool, status: nat)
      requires At(r, i, Upload(c), Admitted) && Now().mode.Serving?
      modifies this`writeLocks, this`history, this`partials
      ensures Valid() && Progress(old(history), history, r, i) && Now().mode.Serving? && dir == old(dir)
      ensures Now().items[i] == old(Now()).items[i].(partial := partials[i])
      ensures ok ==>
        At(r, i, Upload(c), Synced) && writeLocks == old(writeLocks) && Extends(old(partials)[i], c, partials[i])
                     && |c.body| == c.length && Sha256(c.body) == c.checksum
      ensures !ok ==> r !in Now().requests && writeLocks == old(writeLocks) - {i}
      ensures ok ==> !plan.beforeWrite && !plan.fsyncFails
      ensures !plan.beforeWrite && plan.breakAt.None? && !plan.fsyncFails && Fits(old(partials)[i], c) ==> ok
      ensures !ok && plan.breakAt.None? ==> status == FailureStatus(plan, old(partials)[i], c)
      ensures !ok ==> KeepsStart(old(partials)[i], c, partials[i])
    {
      if plan.beforeWrite {
        Abandon(r, i, Upload(c), Admitted, true);
        return false, 500;
      }
      ok := OpenPartial(r, i, c);
      status := if partials[i].Absent? then 500 else 409;
      if ok {
        ghost var file, atOpen := partials[i], history;
        ok, status := StreamAndSync(r, i, c, plan);
        ProgressTwice(old(history), atOpen, history, r, i);
        if ok {
          FlushedExtends(file, c);
        }
      }
    }

    /** The transaction and what follows it up to the fault boundary before the answer. */
    method CommitAndTrim(ghost r: RequestId, i: ItemId, c: Checkpoint, row: Row, plan: Plan, now: int)
      returns (committed: bool, ok: bool)
      requires At(r, i, Upload(c), Synced) && Now().mode.Serving? && Now().requests[r].snap == row
      modifies this`writeLocks, this`history, this`partials, this`recovery, repository
      ensures Valid() && Progress(old(history), history, r, i) && Now().mode.Serving? && dir == old(dir)
      ensures committed <==> plan.commitFault.NoFault? && !plan.beforeCommit && c.key !in old(repository.commits)[i]
      ensures ok <==> committed && !plan.afterCommit
      ensures committed ==>
        && repository.rows[i] == row.(confirmed := c.start + c.length, state := Transferring)
        && repository.commits[i]
           == Trim(old(repository.commits)[i][c.key := Commit(c.start, c.start + c.length, c.checksum, now)],
                   MAX_COMMITS_PER_ITEM)
        && partials[i] == old(partials)[i]
      ensures !committed ==>
        repository.rows[i] == old(repository.rows)[i] && repository.commits[i] == old(repository.commits)[i]
      ensures !committed ==> i in partials && KeepsStart(old(partials)[i], c, partials[i])
      ensures ok ==>
        At(r, i, Upload(c), Trimmed) && Now().requests[r].snap == repository.rows[i] && writeLocks == old(writeLocks)
      ensures !ok ==> r !in Now().requests && writeLocks == old(writeLocks) - {i}
    {
      committed := CommitOrAbort(r, i, c, row, plan, now);
      ok := committed;
      if committed {
        ghost var atCommit := history;
        ok := TrimAndCross(r, i, c, plan);
        ProgressTwice(old(history), atCommit, history, r, i);
      }
    }

    method CommitOrAbort(ghost r: RequestId, i: ItemId, c: Checkpoint, row: Row, plan: Plan, now: int)
      returns (committed: bool)
      requires At(r, i, Upload(c), Synced) && Now().mode.Serving? && Now().requests[r].snap == row
      modifies this`writeLocks, this`history, this`partials, this`recovery, repository
      ensures Valid() && Progress(old(history), history, r, i) && Now().mode.Serving? && dir == old(dir)
      ensures committed <==> plan.commitFault.NoFault? && !plan.beforeCommit && c.key !in old(repository.commits)[i]
      ensures committed ==>
        && At(r, i, Upload(c), Committed) && writeLocks == old(writeLocks) && partials[i] == old(partials)[i]
        && Now().requests[r].snap == repository.rows[i] == row.(confirmed := c.start + c.length, state := Transferring)
        && repository.commits[i]
          == old(repository.commits)[i][c.key := Commit(c.start, c.start + c.length, c.checksum, now)]
      ensures !committed ==>
        && r !in Now().requests && writeLocks == old(writeLocks) - {i} && i in Now().items
        && repository.rows[i] == old(repository.rows)[i] && repository.commits[i] == old(repository.commits)[i]
        && partials[i] == (if plan.beforeCommit || !plan.rollbackWorks then old(partials)[i]
                           else Truncated(old(partials)[i], c.start))
      ensures recovery == if committed || plan.beforeCommit || !plan.rollbackWorks then old(recovery)
                          else MoreRollbacks(old(recovery), 1)
    {
      committed := false;
      if !plan.beforeCommit {
        committed := CommitCheckpoint(r, i, c, row, now, plan.commitFault);
      }
      if !committed {
        AbortCommit(r, i, c, plan);
      }
    }

    /** A fault before the transaction leaves the tail; a failing transaction truncates it. */
    method AbortCommit(ghost r: RequestId, i: ItemId, c: Checkpoint, plan: Plan)
      requires At(r, i, Upload(c), Synced) && Now().mode.Serving?
      modifies this`writeLocks, this`history, this`partials, this`recovery
      ensures Valid() && Progress(old(history), history, r, i) && Now().mode.Serving? && dir == old(dir)
      ensures r !in Now().requests && writeLocks == old(writeLocks) - {i} && i in Now().items && i in old(Now()).items
      ensures Now().items[i] == old(Now()).items[i].(partial := partials[i])
      ensures partials[i] == if plan.beforeCommit || !plan.rollbackWorks then old(partials)[i]
                             else Truncated(old(partials)[i], c.start)
      ensures recovery == MoreRollbacks(old(recovery), One(!plan.beforeCommit && plan.rollbackWorks))
    {
      if plan.beforeCommit {
        Abandon(r, i, Upload(c), Synced, true);
        return;
      }
      if plan.rollbackWorks {
        recovery := recovery.(checkpointRollbacks := recovery.checkpointRollbacks + 1);
      }
      RollBack(r, i, c, Synced, plan.rollbackWorks);
    }

    method TrimAndCross(ghost r: RequestId, i: ItemId, c: Checkpoint, plan: Plan) returns (ok: bool)
      requires At(r, i, Upload(c), Committed) && Now().mode.Serving?
      modifies this`writeLocks, this`history, repository
      ensures Valid() && Progress(old(history), history, r, i) && Now().mode.Serving? && dir == old(dir)
      ensures repository.rows == old(repository.rows) && i in repository.rows && i in partials
      ensures i in repository.commits && repository.commits[i] == Trim(old(repository.commits)[i], MAX_COMMITS_PER_ITEM)
      ensures ok <==> !plan.afterCommit
      ensures ok ==> At(r, i, Upload(c), Trimmed) && Now().requests[r].snap == old(Now()).requests[r].snap
                     && writeLocks == old(writeLocks)
      ensures !ok ==> r !in Now().requests && writeLocks == old(writeLocks) - {i}
    {
      TrimCommits(r, i, c);
      ok := !plan.afterCommit;
      if !ok {
        ghost var trimmed := history;
        Abandon(r, i, Upload(c), Trimmed, true);
        ProgressTwice(old(history), trimmed, history, r, i);
      }
    }

    method BeginFinalize(ghost r: RequestId, i: ItemId, c: Checkpoint, ghost row: Row)
      requires At(r, i, Upload(c), Trimmed) && Now().mode.Serving? && Now().requests[r].snap == row
      requires row.confirmed == row.size
      modifies this`history
      ensures At(r, i, Upload(c), Finalizing) && Now().requests[r].snap == row && Now().mode.Serving?
      ensures Progress(old(history), history, r, i) && Now().items == old(Now()).items
    {
      Segment(r, Proceed, 0);
    }

    /** The answer to a committed checkpoint; the last one also finalizes the file. */
    method AnswerCheckpoint(ghost r: RequestId, i: ItemId, c: Checkpoint, row: Row, plan: Plan) returns (answer: Answer)
      requires At(r, i, Upload(c), Trimmed) && Now().mode.Serving? && Now().requests[r].snap == row
      requires partials[i].Present?
      requires row.size == repository.rows[i].size
      modifies this`writeLocks, this`history, this`partials, this`dir, repository
      ensures Valid() && Progress(old(history), history, r, i) && Now().mode.Serving? && r !in Now().requests
      ensures writeLocks == old(writeLocks) - {i} && (answer.Acknowledged? || answer == Failed(500))
      ensures i in Now().items && repository.commits[i] == old(repository.commits)[i]
      ensures answer.Acknowledged? ==> answer.offset == row.confirmed <= Now().items[i].acked
      ensures answer.Failed? <==>
        row.confirmed == row.size && (plan.finalizeFails || NoNameLeft(old(dir).Keys, row.finalPath))
      ensures Answered(old(repository.rows)[i], old(partials)[i], old(dir), repository.rows[i], partials[i], dir,
                       answer.Acknowledged? && row.confirmed == row.size)
    {
      if row.confirmed != row.size {
        var offset := Acknowledge(r, i, c, row);
        return Acknowledged(offset);
      }
      BeginFinalize(r, i, c, row);
      ghost var begun := history;
      answer := FinalizeAndAnswer(r, i, c, row, plan);
      ProgressTwice(old(history), begun, history, r, i);
    }

    method FinalizeAndAnswer(ghost r: RequestId, i: ItemId, c: Checkpoint, row: Row, plan: Plan)
      returns (answer: Answer)
      requires At(r, i, Upload(c), Finalizing) && Now().mode.Serving? && Now().requests[r].snap == row
      requires partials[i].Present?
      requires row.confirmed == row.size == repository.rows[i].size
      modifies this`writeLocks, this`history, this`partials, this`dir, repository
      ensures Valid() && Progress(old(history), history, r, i) && Now().mode.Serving? && r !in Now().requests
      ensures writeLocks == old(writeLocks) - {i} && (answer.Acknowledged? || answer == Failed(500)) && i in Now().items
      ensures repository.commits[i] == old(repository.commits)[i]
      ensures answer.Acknowledged? ==> answer.offset == row.confirmed <= Now().items[i].acked
      ensures answer.Failed? <==> plan.finalizeFails || NoNameLeft(old(dir).Keys, row.finalPath)
      ensures Answered(old(repository.rows)[i], old(partials)[i], old(dir), repository.rows[i], partials[i], dir,
                       answer.Acknowledged?)
    {
      if plan.finalizeFails {
        Abandon(r, i, Upload(c), Finalizing, true);
        return Failed(500);
      }
      answer := PublishAndAnswer(r, i, c, row);
    }

    method PublishAndAnswer(ghost r: RequestId, i: ItemId, c: Checkpoint, row: Row) returns (answer: Answer)
      requires At(r, i, Upload(c), Finalizing) && Now().mode.Serving? && Now().requests[r].snap == row
      requires partials[i].Present?
      requires row.confirmed == row.size == repository.rows[i].size
      modifies this`writeLocks, this`history, this`partials, this`dir, repository
      ensures Valid() && Progress(old(history), history, r, i) && Now().mode.Serving? && r !in Now().requests
      ensures writeLocks == old(writeLocks) - {i} && (answer.Acknowledged? || answer == Failed(500)) && i in Now().items
      ensures repository.commits[i] == old(repository.commits)[i]
      ensures answer.Acknowledged? ==> answer.offset == row.confirmed <= Now().items[i].acked
      ensures answer.Failed? <==> NoNameLeft(old(dir).Keys, row.finalPath)
      ensures Answered(old(repository.rows)[i], old(partials)[i], old(dir), repository.rows[i], partials[i], dir,
                       answer.Acknowledged?)
    {
      var target := FinalizeUpload(r, i, Upload(c), row, true);
      if target.None? {
        ghost var hashed := history;
        Abandon(r, i, Upload(c), Hashed(Sha256(partials[i].bytes)), true);
        ProgressTwice(old(history), hashed, history, r, i);
        return Failed(500);
      }
      return Acknowledged(row.size);
    }

    method AnswerCommitted(ghost r: RequestId, i: ItemId, c: Checkpoint, row: Row, plan: Plan) returns (answer: Answer)
      requires At(r, i, Upload(c), Trimmed) && Now().mode.Serving? && partials[i].Present? && !plan.afterCommit
      requires Now().requests[r].snap == repository.rows[i]
               == row.(confirmed := c.start + c.length, state := Transferring)
      modifies this`writeLocks, this`history, this`partials, this`dir, repository
      ensures Valid() && Progress(old(history), history, r, i) && Now().mode.Serving? && r !in Now().requests
      ensures writeLocks == old(writeLocks) - {i} && (answer.Acknowledged? || answer == Failed(500)) && i in Now().items
      ensures repository.commits[i] == old(repository.commits)[i]
      ensures CommittedRow(row, c, repository.rows[i], partials[i], dir, old(partials)[i])
      ensures answer.Acknowledged? <==> CanAnswer(plan, row, c, old(dir))
      ensures answer.Acknowledged? ==> answer.offset == c.start + c.length <= Now().items[i].acked
                                       && (answer.offset == row.size ==> repository.rows[i].state.Ready?)
    {
      var next := row.(confirmed := c.start + c.length, state := Transferring);
      ghost var file, dirBefore := partials[i], dir;
      answer := AnswerCheckpoint(r, i, c, next, plan);
      AnsweredIsCommitted(row, c, next, file, dirBefore, repository.rows[i], partials[i], dir,
                          answer.Acknowledged? && next.confirmed == next.size);
    }

    /** A synced checkpoint: commit it, then answer. */
    method CommitAndAnswer(ghost r: RequestId, i: ItemId, c: Checkpoint, row: Row, plan: Plan, now: int)
      returns (answer: Answer, committed: bool)
      requires At(r, i, Upload(c), Synced) && Now().mode.Serving? && Now().requests[r].snap == row
      requires partials[i].Present?
      modifies this`writeLocks, this`history, this`partials, this`dir, this`recovery, repository
      ensures Valid() && Progress(old(history), history, r, i) && Now().mode.Serving? && r !in Now().requests
      ensures writeLocks == old(writeLocks) - {i} && (answer.Acknowledged? || answer == Failed(500)) && i in Now().items
      ensures committed <==> plan.commitFault.NoFault? && !plan.beforeCommit && c.key !in old(repository.commits)[i]
      ensures !committed ==> KeepsStart(old(partials)[i], c, partials[i]) && dir == old(dir)
      ensures !committed ==> answer.Failed? && repository.rows[i] == old(repository.rows)[i]
                             && repository.commits[i] == old(repository.commits)[i]
      ensures committed ==> CommittedRow(row, c, repository.rows[i], partials[i], dir, old(partials)[i])
                            && repository.commits[i] == LedgerAfter(old(repository.commits)[i], c, now)
      ensures committed ==> (answer.Acknowledged? <==> CanAnswer(plan, row, c, old(dir)))
      ensures answer.Acknowledged? ==> committed && answer.offset == c.start + c.length <= Now().items[i].acked
                                       && (answer.offset == row.size ==> repository.rows[i].state.Ready?)
    {
      var ok: bool;
      committed, ok := CommitAndTrim(r, i, c, row, plan, now);
      if !ok {
        return Failed(500), committed;
      }
      assert dir == old(dir) && partials[i] == old(partials)[i];
      ghost var trimmed := history;
      answer := AnswerCommitted(r, i, c, row, plan);
      ProgressTwice(old(history), trimmed, history, r, i);
    }

    /** An admitted checkpoint, from the write lock to its answer. */
    method WriteCheckpoint(ghost r: RequestId, i: ItemId, c: Checkpoint, row: Row, plan: Plan, now: int)
      returns (answer: Answer, committed: bool)
      requires At(r, i, Upload(c), Admitted) && Now().mode.Serving? && repository.rows[i] == row
      modifies this`writeLocks, this`history, this`partials, this`dir, this`recovery, repository
      ensures Valid() && Progress(old(history), history, r, i) && Now().mode.Serving? && r !in Now().requests
      ensures writeLocks == old(writeLocks) - {i} && !answer.Rejected? && i in Now().items
      ensures !committed ==> answer.Failed? && repository.rows[i] == old(repository.rows)[i]
                             && repository.commits[i] == old(repository.commits)[i]
      ensures committed ==> Stored(row, old(repository.commits)[i], old(partials)[i], c, now,
                                   repository.rows[i], repository.commits[i], partials[i], dir)
      ensures committed ==> (answer.Acknowledged? <==> CanAnswer(plan, row, c, old(dir)))
      ensures answer.Acknowledged? ==> committed && answer.offset == c.start + c.length <= Now().items[i].acked
                                       && (answer.offset == row.size ==> repository.rows[i].state.Ready?)
      ensures committed ==> CanCommit(plan) && Fits(old(partials)[i], c)
      ensures CanCommit(plan) && plan.breakAt.None? && Fits(old(partials)[i], c) ==> committed
      ensures !committed ==> KeepsStart(old(partials)[i], c, partials[i]) && dir == old(dir)
      ensures !committed && plan.breakAt.None? ==> answer == Failed(FailureStatus(plan, old(partials)[i], c))
      ensures committed && answer.Failed? ==> answer.status == 500
    {
      committed := false;
      var ok, status := WriteAndSync(r, i, c, plan);
      answer := Failed(status);
      if ok {
        ghost var synced := history;
        WriterFacts(history, r);
        ghost var file := partials[i];
        answer, committed := CommitAndAnswer(r, i, c, row, plan, now);
        ProgressTwice(old(history), synced, history, r, i);
      }
    }

    /* ------------- recoverCommittedCompletion, on replay and at startup -- */

    method ProbeFinal(ghost r: RequestId, i: ItemId, ghost job: Job, row: Row) returns (fits: bool)
      requires At(r, i, job, Probing) && Now().requests[r].snap == row
      modifies this`history
      ensures fits <==> row.finalPath in dir && |dir[row.finalPath].bytes| == row.size
      ensures At(r, i, job, if fits then Adopting else CheckingPartial) && Now().requests[r].snap == row
      ensures Progress(old(history), history, r, i) && Now().items == old(Now()).items && Now().mode == old(Now()).mode
    {
      fits := row.finalPath in dir && |dir[row.finalPath].bytes| == row.size;
      Segment(r, Proceed, 0);
    }

    method AdoptFinal(ghost r: RequestId, i: ItemId, ghost job: Job, row: Row)
      requires At(r, i, job, Adopting) && Now().requests[r].snap == row && row.finalPath in dir && !job.Upload?
      requires if job.Recover? then Now().mode.Recovering? else Now().mode.Serving?
      modifies this`history, this`recovery, repository
      ensures Valid() && Progress(old(history), history, r, i) && r !in Now().requests && i in Now().items
      ensures Now().items[i].(acked := 0) == old(Now()).items[i].(
                row := ReadyRow(row, Sha256(dir[row.finalPath].bytes), row.finalPath), acked := 0)
      ensures Now().mode == if job.Recover? then Recovering(old(Now()).mode.todo - {i}) else old(Now()).mode
      ensures job.Replay? ==> row.size <= Now().items[i].acked
      ensures recovery == old(recovery).(recoveredCompletions := old(recovery).recoveredCompletions + 1)
    {
      repository.UpdateItem(i, ReadyRow(row, Sha256(dir[row.finalPath].bytes), row.finalPath));
      recovery := recovery.(recoveredCompletions := recovery.recoveredCompletions + 1);
      Segment(r, Proceed, 0);
    }

    /** The partial file is whole and goes on to be finalized. */
    method EnterFinalize(ghost r: RequestId, i: ItemId, ghost job: Job, ghost row: Row)
      requires At(r, i, job, CheckingPartial) && Now().requests[r].snap == row && !job.Upload?
      requires row.partialPath && FileOfSize(partials[i], row.size)
      modifies this`history
      ensures At(r, i, job, Finalizing) && Now().requests[r].snap == row && Progress(old(history), history, r, i)
      ensures Now().items == old(Now()).items && Now().mode == old(Now()).mode
    {
      Segment(r, Proceed, 0);
    }

    /** There is nothing to complete; a replay is answered, recovery goes on. */
    method Decline(ghost r: RequestId, i: ItemId, ghost job: Job, ghost row: Row, ghost spare: Path)
      requires At(r, i, job, CheckingPartial) && Now().requests[r].snap == row == Now().items[i].row && !job.Upload?
      requires !CanComplete(Now().items[i], dir) && row.confirmed == row.size && spare !in dir
      requires if job.Recover? then Now().mode.Recovering? else Now().mode.Serving?
      modifies this`history
      ensures Valid() && Progress(old(history), history, r, i) && i in Now().items
      ensures Completes(old(Now()), Now(), r, i, job, Declined, spare)
    {
      Segment(r, Proceed, 0);
    }

    method RecoverCommittedCompletion(ghost r: RequestId, i: ItemId, ghost job: Job, row: Row)
      returns (outcome: CompletionOutcome, ghost spare: Path)
      requires At(r, i, job, Probing) && Now().requests[r].snap == row == Now().items[i].row && !job.Upload?
      requires row.confirmed == row.size && if job.Recover? then Now().mode.Recovering? else Now().mode.Serving?
      modifies this`history, this`partials, this`dir, this`recovery, this`writeLocks, repository
      ensures Valid() && Progress(old(history), history, r, i) && writeLocks == old(writeLocks) && i in Now().items
      ensures Completes(old(Now()), Now(), r, i, job, outcome, spare)
      ensures recovery == MoreCompletions(old(recovery), One(outcome.Done?))
    {
      spare := FreshPath(dir);
      var fits := ProbeFinal(r, i, job, row);
      ghost var probed := history;
      if fits {
        AdoptFinal(r, i, job, row);
        outcome := Done;
      } else {
        outcome, spare := CompletePartial(r, i, job, row, spare);
      }
      ProgressTwice(old(history), probed, history, r, i);
    }

    method CompletePartial(ghost r: RequestId, i: ItemId, ghost job: Job, row: Row, ghost unused: Path)
      returns (outcome: CompletionOutcome, ghost spare: Path)
      requires At(r, i, job, CheckingPartial) && Now().requests[r].snap == row == Now().items[i].row && !job.Upload?
      requires row.confirmed == row.size && if job.Recover? then Now().mode.Recovering? else Now().mode.Serving?
      requires unused !in dir && !Occupied(Now().items[i], dir)
      modifies this`history, this`partials, this`dir, this`recovery, this`writeLocks, repository
      ensures Valid() && Progress(old(history), history, r, i) && writeLocks == old(writeLocks) && i in Now().items
      ensures Completes(old(Now()), Now(), r, i, job, outcome, spare)
      ensures recovery == MoreCompletions(old(recovery), One(outcome.Done?))
    {
      spare := unused;
      if !row.partialPath || !FileOfSize(partials[i], row.size) {
        Decline(r, i, job, row, spare);
        return Declined, spare;
      }
      EnterFinalize(r, i, job, row);
      ghost var checked := history;
      outcome, spare := PublishPartial(r, i, job, row, spare);
      ProgressTwice(old(history), checked, history, r, i);
    }

    method PublishPartial(ghost r: RequestId, i: ItemId, ghost job: Job, row: Row, ghost unused: Path)
      returns (outcome: CompletionOutcome, ghost spare: Path)
      requires At(r, i, job, Finalizing) && Now().requests[r].snap == row == Now().items[i].row && !job.Upload?
      requires row.confirmed == row.size && if job.Recover? then Now().mode.Recovering? else Now().mode.Serving?
      requires row.partialPath && FileOfSize(partials[i], row.size) && unused !in dir && !Occupied(Now().items[i], dir)
      modifies this`history, this`partials, this`dir, this`recovery, this`writeLocks, repository
      ensures Valid() && Progress(old(history), history, r, i) && writeLocks == old(writeLocks) && i in Now().items
      ensures Completes(old(Now()), Now(), r, i, job, outcome, spare)
      ensures recovery == MoreCompletions(old(recovery), One(outcome.Done?))
    {
      var target := FinalizeUpload(r, i, job, row, false);
      if target.None? {
        return NoName, unused;
      }
      spare := if row.finalPath in old(dir) then target.value else unused;
      recovery := recovery.(recoveredCompletions := recovery.recoveredCompletions + 1);
      outcome := Done;
    }

    /* ----------- the other operations, and what happens around the service ---------- */

    /** registerUpload: the first free form of the name, a row and an empty ledger; an empty
        file is published at once. */
    method RegisterUpload(i: ItemId, size: nat, name: string) returns (path: Option<Path>)
      requires Valid() && Now().mode.Serving? && i !in repository.rows
      modifies this`history, this`partials, this`dir, repository
      ensures Valid() && Continues(old(history), history)
      ensures path.Some? ==> FirstFree(old(dir).Keys, Sanitized(name), path.value) && path.value !in old(dir)
      ensures path.Some? ==> Now() == Apply(old(Now()), Register(i, size, path.value))
      ensures path.None? ==> AllTaken(dir.Keys, Sanitized(name)) && history == old(history)
      ensures path.Some? ==>
        && i in repository.rows && NewRow(repository.rows[i], size, path.value)
        && repository.rows == old(repository.rows)[i := repository.rows[i]]
        && repository.commits == old(repository.commits)[i := map[]] && partials == old(partials)[i := Absent]
        && dir == if size == 0 then old(dir)[path.value := Entry([], 0, Published(i))] else old(dir)
    {
      path := FindName(name);
      if path.Some? {
        InsertUpload(i, size, path.value);
      }
    }

    method InsertUpload(i: ItemId, size: nat, path: Path)
      requires Valid() && Now().mode.Serving? && i !in repository.rows && path !in dir
      modifies this`history, this`partials, this`dir, repository
      ensures Valid() && Continues(old(history), history)
      ensures Now() == Apply(old(Now()), Register(i, size, path))
      ensures i in repository.rows && NewRow(repository.rows[i], size, path)
      ensures repository.rows == old(repository.rows)[i := repository.rows[i]]
      ensures repository.commits == old(repository.commits)[i := map[]] && partials == old(partials)[i := Absent]
      ensures dir == if size == 0 then old(dir)[path := Entry([], 0, Published(i))] else old(dir)
    {
      if size == 0 {
        dir := dir[path := Entry([], 0, Published(i))];
      }
      repository.InsertItem(i, Registered(size, path).row);
      partials := partials[i := Absent];
      RecordUpload(i, size, path);
    }

    ghost method RecordUpload(i: ItemId, size: nat, path: Path)
      requires FromStart(history) && Enabled(Now(), Register(i, size, path)) && chunkLimit == Now().chunkLimit
      requires var item := Registered(size, path);
        && repository.rows == Rows(Now())[i := item.row] && repository.commits == Ledgers(Now())[i := item.ledger]
        && partials == Partials(Now())[i := item.partial] && writeLocks == Now().locks
        && dir == if size == 0 then Now().dir[path := Entry([], 0, Published(i))] else Now().dir
      modifies this`history
      ensures Valid() && Continues(old(history), history)
      ensures Now() == Apply(old(Now()), Register(i, size, path))
    {
      PutProjections(Now(), i, Registered(size, path));
      Record(Register(i, size, path));
    }

    /** The offset a HEAD request reports. */
    method UploadOffset(i: ItemId) returns (offset: Option<nat>)
      requires Valid() && Now().mode.Serving?
      modifies this`history
      ensures Valid() && Continues(old(history), history)
      ensures i !in old(Now()).items ==> offset.None? && history == old(history)
      ensures i in old(Now()).items ==>
        && offset == Some(repository.rows[i].confirmed) && Now() == UploadMachine.Acknowledged(old(Now()), i)
    {
      if i !in repository.rows {
        return None;
      }
      PutProjections(Now(), i, UploadMachine.Acknowledged(Now(), i).items[i]);
      Record(Head(i));
      offset := Some(repository.rows[i].confirmed);
    }

    /** cancelItem, while no request is at work on the item. */
    method CancelItem(i: ItemId)
      requires Valid() && Now().mode.Serving? && i in repository.rows && !Busy(Now(), i)
      modifies this`history, this`partials, repository
      ensures Valid() && Continues(old(history), history) && Now() == Apply(old(Now()), Cancel(i))
      ensures repository.rows == old(repository.rows)[i := old(repository.rows)[i].(state := Cancelled)]
      ensures repository.commits == old(repository.commits) && i in old(partials)
      ensures partials == if old(repository.rows)[i].partialPath then old(partials)[i := Absent] else old(partials)
    {
      var row := repository.rows[i];
      if row.partialPath {
        partials := partials[i := Absent];
      }
      repository.UpdateItem(i, row.(state := Cancelled));
      PutProjections(Now(), i, Now().items[i].(row := row.(state := Cancelled), partial := partials[i]));
      Record(Cancel(i));
    }

    /** sweepExpired, as far as it touches commit records. */
    method SweepCommits(cutoff: int)
      requires Valid() && !Now().mode.Down?
      modifies this`history, repository
      ensures Valid() && Continues(old(history), history) && Now() == Swept(old(Now()), cutoff)
      ensures repository.rows == old(repository.rows) && repository.commits.Keys == old(repository.commits).Keys
      ensures forall i | i in repository.commits ::
        KeptSince(old(repository.commits)[i], repository.commits[i], cutoff)
    {
      repository.DeleteUploadCommitsBefore(cutoff);
      SweepProjections(Now(), cutoff);
      Record(Sweep(cutoff));
    }

    /** Somebody outside the service shortens or removes a partial file. */
    method DamagePartial(i: ItemId, left: Option<nat>)
      requires Valid() && Enabled(Now(), Damage(i, left))
      modifies this`history, this`partials
      ensures Valid() && Continues(old(history), history) && Now() == Apply(old(Now()), Damage(i, left))
    {
      partials := partials[i := if left.Some? then Truncated(partials[i], left.value) else Absent];
      PutProjections(Now(), i, Now().items[i].(partial := partials[i]));
      Record(Damage(i, left));
    }

    /** Somebody outside the service puts a file into the destination directory. */
    method PlaceFile(path: Path, bytes: seq<Byte>)
      requires Valid() && path !in dir
      modifies this`history, this`dir
      ensures Valid() && Continues(old(history), history) && Now() == Apply(old(Now()), ForeignFile(path, bytes))
    {
      dir := dir[path := Entry(bytes, 0, Foreign)];
      Record(ForeignFile(path, bytes));
    }

    /* ---------------------- the entry point of a PATCH -------------------- */

    /** A repeat of a committed checkpoint: nothing is written, and the answer covers it. */
    method AnswerRepeat(ghost r: RequestId, i: ItemId, c: Checkpoint, row: Row) returns (answer: Answer)
      requires Valid() && Now().mode.Serving? && Holds(i) && repository.rows[i] == row && row.confirmed <= row.size
      requires i in Now().items && Arrived(r, i, row)
      modifies this`history, this`partials, this`dir, this`recovery, this`writeLocks, repository
      ensures Valid() && Progress(old(history), history, r, i) && Now().mode.Serving?
      ensures writeLocks == old(writeLocks) && r !in Now().requests
      ensures Holds(i) && Repeats(i, old(StoredItem(i)), old(dir), StoredItem(i), dir, answer)
      ensures !answer.Rejected? && (answer.Acknowledged? ==> answer.offset == row.confirmed <= Now().items[i].acked)
      ensures answer.Failed? ==> CannotBeNamed(row, old(dir))
    {
      if row.confirmed != row.size || row.state.Ready? {
        ProgressFromHere(history, r, i);
        return Acknowledged(row.confirmed);
      }
      answer := CompleteRepeat(r, i, row);
    }

    method CompleteRepeat(ghost r: RequestId, i: ItemId, row: Row) returns (answer: Answer)
      requires At(r, i, Replay, Probing) && Now().mode.Serving? && Holds(i) && repository.rows[i] == row
      requires Now().requests[r].snap == row && row.confirmed == row.size && !row.state.Ready?
      modifies this`history, this`partials, this`dir, this`recovery, this`writeLocks, repository
      ensures Valid() && Progress(old(history), history, r, i) && Now().mode.Serving?
      ensures writeLocks == old(writeLocks) && r !in Now().requests
      ensures Holds(i) && Repeats(i, old(StoredItem(i)), old(dir), StoredItem(i), dir, answer)
      ensures i in Now().items && (answer == Acknowledged(row.size) || answer.Failed?)
      ensures answer.Acknowledged? ==> row.size <= Now().items[i].acked
      ensures answer.Failed? ==> CannotBeNamed(row, old(dir))
    {
      var named := RecoverRepeat(r, i, row);
      if named {
        return Acknowledged(row.size);
      }
      ghost var hashed := history;
      GiveUpRepeat(r, i);
      ProgressTwice(old(history), hashed, history, r, i);
      answer := Failed(500);
    }

    method RecoverRepeat(ghost r: RequestId, i: ItemId, row: Row) returns (named: bool)
      requires At(r, i, Replay, Probing) && Now().mode.Serving? && Holds(i) && repository.rows[i] == row
      requires Now().requests[r].snap == row && row.confirmed == row.size && !row.state.Ready?
      modifies this`history, this`partials, this`dir, this`recovery, this`writeLocks, repository
      ensures Valid() && Progress(old(history), history, r, i) && Now().mode.Serving? && writeLocks == old(writeLocks)
      ensures i in Now().items && Holds(i)
      ensures Repeats(i, old(StoredItem(i)), old(dir), StoredItem(i), dir, if named then Acknowledged(row.size)
                                                                                    else Failed(500))
      ensures named ==> row.size <= Now().items[i].acked && r !in Now().requests
      ensures !named ==>
        && CannotBeNamed(row, old(dir)) && r in Now().requests && Now().requests[r].item == i
        && Now().requests[r].job == Replay && Now().requests[r].stage.Hashed?
    {
      ghost var before, stored := Now(), StoredItem(i);
      assert stored == before.items[i].(acked := 0);
      ItemFacts(history, i);
      var outcome, spare := RecoverCommittedCompletion(r, i, Replay, row);
      named := !outcome.NoName?;
      RepeatCompletes(before, Now(), r, i, outcome, spare);
      StoredNow(i);
    }

    lemma StoredNow(i: ItemId)
      requires Valid() && i in Now().items
      ensures Holds(i) && StoredItem(i) == Now().items[i].(acked := 0)
    {
    }

    method GiveUpRepeat(ghost r: RequestId, i: ItemId)
      requires Valid() && Now().mode.Serving? && r in Now().requests && Holds(i) && i in Now().items
      requires Now().requests[r].item == i && Now().requests[r].job == Replay && Now().requests[r].stage.Hashed?
      modifies this`history, this`writeLocks
      ensures Valid() && Progress(old(history), history, r, i) && Now().mode.Serving?
      ensures writeLocks == old(writeLocks) && r !in Now().requests
      ensures Holds(i) && StoredItem(i) == old(StoredItem(i)) && i in Now().items
    {
      Abandon(r, i, Replay, Now().requests[r].stage, false);
    }

    method AppendRepeat(ghost r: RequestId, i: ItemId, c: Checkpoint) returns (answer: Answer)
      requires Valid() && Now().mode.Serving? && r !in Now().requests && Judge(Now(), i, c).Replayed?
      modifies this`history, this`partials, this`dir, this`recovery, this`writeLocks, repository
      ensures Valid() && Progress(old(history), history, r, i) && Now().mode.Serving?
      ensures writeLocks == old(writeLocks) && r !in Now().requests
      ensures old(Holds(i)) && Holds(i) && i in Now().items && !answer.Rejected?
      ensures Repeats(i, old(StoredItem(i)), old(dir), StoredItem(i), dir, answer)
      ensures answer.Acknowledged? ==>
        c.start + c.length <= answer.offset == repository.rows[i].confirmed && answer.offset <= Now().items[i].acked
      ensures answer.Failed? ==> CannotBeNamed(old(repository.rows)[i], old(dir))
    {
      RepeatFacts(history, i, c);
      BeginRepeat(r, i, c);
      ghost var begun := history;
      answer := AnswerRepeat(r, i, c, repository.rows[i]);
      ProgressTwice(old(history), begun, history, r, i);
    }

    method AppendAccepted(ghost r: RequestId, i: ItemId, c: Checkpoint, plan: Plan, now: int)
      returns (answer: Answer, committed: bool)
      requires Valid() && Now().mode.Serving? && r !in Now().requests && Judge(Now(), i, c).Accepted?
      modifies this`history, this`partials, this`dir, this`recovery, this`writeLocks, repository
      ensures Valid() && Progress(old(history), history, r, i) && Now().mode.Serving?
      ensures writeLocks == old(writeLocks) && r !in Now().requests
      ensures old(Holds(i)) && Holds(i) && i in Now().items && !answer.Rejected?
      ensures !committed ==>
        && answer.Failed? && repository.rows[i] == old(repository.rows)[i]
        && repository.commits[i] == old(repository.commits)[i]
      ensures committed ==> Stored(old(repository.rows)[i], old(repository.commits)[i], old(partials)[i], c, now,
                                   repository.rows[i], repository.commits[i], partials[i], dir)
      ensures answer.Acknowledged? ==> committed && answer.offset == c.start + c.length <= Now().items[i].acked
      ensures committed ==> CanCommit(plan) && Fits(old(partials)[i], c)
      ensures CanCommit(plan) && plan.breakAt.None? && Fits(old(partials)[i], c) ==> committed
      ensures !committed ==> KeepsStart(old(partials)[i], c, partials[i]) && dir == old(dir)
      ensures !committed && plan.breakAt.None? ==> answer == Failed(FailureStatus(plan, old(partials)[i], c))
      ensures committed && answer.Failed? ==> answer.status == 500
      ensures committed ==> (answer.Acknowledged? <==> CanAnswer(plan, old(repository.rows)[i], c, old(dir)))
    {
      TakeLock(r, i, c);
      ghost var taken := history;
      answer, committed := WriteCheckpoint(r, i, c, repository.rows[i], plan, now);
      ProgressTwice(old(history), taken, history, r, i);
    }

    /** appendCheckpoint, on every path: what it answers, what it leaves behind, and that it
        leaves the lock set as it found it. */
    method AppendCheckpoint(ghost r: RequestId, i: ItemId, c: Checkpoint, plan: Plan, now: int)
      returns (answer: Answer, committed: bool, ghost verdict: Verdict)
      requires Valid() && Now().mode.Serving? && r !in Now().requests
      modifies this`history, this`partials, this`dir, this`recovery, this`writeLocks, repository
      ensures Valid() && Progress(old(history), history, r, i) && Now().mode.Serving?
      ensures writeLocks == old(writeLocks) && r !in Now().requests
      ensures RightlyRefused(i, c, old(repository.rows), old(repository.commits), old(writeLocks), chunkLimit,
                             RefusalOf(answer))
      ensures old(Holds(i)) && InOrder(i, c, old(repository.rows)[i].size, chunkLimit)
              && c.key in old(repository.commits)[i] ==>
        && !committed && Holds(i) && Repeats(i, old(StoredItem(i)), old(dir), StoredItem(i), dir, answer)
        && (answer.Failed? ==> CannotBeNamed(old(repository.rows)[i], old(dir)))
      ensures verdict == Judge(old(Now()), i, c)
      ensures verdict.Refused? ==> answer == Rejected(verdict.status) && !committed && history == old(history)
      ensures verdict.Refused? ==> recovery == old(recovery)
      ensures !verdict.Refused? ==> !answer.Rejected? && old(Holds(i)) && Holds(i) && i in Now().items
      ensures !verdict.Refused? && !committed ==>
        && repository.rows[i].confirmed == old(repository.rows)[i].confirmed
        && repository.commits[i] == old(repository.commits)[i]
      ensures committed ==>
        && verdict.Accepted?
        && Stored(old(repository.rows)[i], old(repository.commits)[i], old(partials)[i], c, now,
                  repository.rows[i], repository.commits[i], partials[i], dir)
      ensures answer.Acknowledged? ==>
        && c.start + c.length <= answer.offset <= repository.rows[i].confirmed
        && answer.offset <= Now().items[i].acked
      ensures committed ==> CanCommit(plan) && Fits(old(partials)[i], c)
      ensures verdict.Accepted? && !committed ==>
        && answer.Failed? && KeepsStart(old(partials)[i], c, partials[i]) && dir == old(dir)
        && (plan.breakAt.None? ==>
              && !(CanCommit(plan) && Fits(old(partials)[i], c))
              && answer.status == FailureStatus(plan, old(partials)[i], c))
      ensures committed ==> (answer.Acknowledged? <==> CanAnswer(plan, old(repository.rows)[i], c, old(dir)))
    {
      VerdictIsRight(history, i, c);
      var judged := CheckCheckpoint(i, c);
      verdict, committed := judged, false;
      if judged.Refused? {
        ProgressFromHere(history, r, i);
        answer := Rejected(judged.status);
      } else if judged.Replayed? {
        answer := AppendRepeat(r, i, c);
      } else {
        answer, committed := AppendAccepted(r, i, c, plan, now);
      }
    }

    /* ------------------------ crash and restart -------------------------- */

    /** The process dies: `keep` and `keepDir` say how much of each file reached the disk. */
    method Crash(keep: map<ItemId, nat>, keepDir: map<Path, nat>)
      requires Valid() && CanKeep(Now().items, keep) && CanKeepDir(Now().dir, keepDir)
      modifies this`history, this`partials, this`dir, this`writeLocks
      ensures Valid() && Continues(old(history), history)
      ensures Now() == AfterCrash(old(Now()), keep, keepDir)
      ensures repository.rows == old(repository.rows) && repository.commits == old(repository.commits)
      ensures writeLocks == {} && partials.Keys == old(partials).Keys && dir.Keys == old(dir).Keys
      ensures forall i | i in partials :: BeginsWith(old(partials)[i], partials[i])
      ensures forall p | p in dir :: EntryBeginsWith(old(dir)[p], dir[p])
    {
      SurvivorsBegin(Now(), keep, keepDir);
      partials := SurvivingFiles(partials, keep);
      dir := SurvivingDir(dir, keepDir);
      writeLocks := {};
      RecordCrash(keep, keepDir);
    }

    ghost method RecordCrash(keep: map<ItemId, nat>, keepDir: map<Path, nat>)
      requires FromStart(history) && CanKeep(Now().items, keep) && CanKeepDir(Now().dir, keepDir)
      requires repository.rows == Rows(Now()) && repository.commits == Ledgers(Now()) && chunkLimit == Now().chunkLimit
      requires CanKeepFiles(Partials(Now()), keep) && partials == SurvivingFiles(Partials(Now()), keep)
      requires dir == SurvivingDir(Now().dir, keepDir) && writeLocks == {}
      modifies this`history
      ensures Valid() && Continues(old(history), history) && Now() == AfterCrash(old(Now()), keep, keepDir)
    {
      CrashKeepsTables(Now(), keep, keepDir);
      Record(UploadMachine.Crash(keep, keepDir));
    }

    /** stat of the partial file at startup: cut off the unconfirmed tail, or rewind the ledger.
        Every byte cut off or found missing is counted. */
    method CutOrRewind(i: ItemId, confirmed: nat) returns (offset: nat)
      requires i in partials && i in repository.commits
      modifies this`partials, this`recovery, repository
      ensures repository.rows == old(repository.rows)
      ensures var f := old(partials)[i];
        && partials == old(partials)[i := Truncated(f, confirmed)]
        && repository.commits == old(repository.commits)[i :=
             if f.Present? && |f.bytes| >= confirmed then old(repository.commits)[i]
             else RewindTo(old(repository.commits)[i], offset)]
        && offset == (if partials[i].Present? then |partials[i].bytes| else 0)
        && recovery == MoreCuts(old(recovery), f, confirmed)
      ensures WellFormed(old(repository.commits)[i], confirmed) ==>
        KeptWithin(old(repository.commits)[i], repository.commits[i], offset)
    {
      offset := 0;
      if partials[i].Absent? {
        repository.DeleteUploadCommitsAfter(i, 0);
      } else {
        var length := |partials[i].bytes|;
        offset := Min(length, confirmed);
        if length > confirmed {
          recovery := recovery.(truncations := recovery.truncations + 1,
                                truncatedBytes := recovery.truncatedBytes + length - confirmed);
          partials := partials[i := Truncated(partials[i], confirmed)];
        } else if length < confirmed {
          recovery := recovery.(rewinds := recovery.rewinds + 1,
                                rewoundBytes := recovery.rewoundBytes + confirmed - length);
          repository.DeleteUploadCommitsAfter(i, length);
        }
      }
    }

    method Inspect(ghost r: RequestId, i: ItemId, row: Row) returns (offset: nat)
      requires At(r, i, Recover(false), Inspecting) && Now().requests[r].snap == row == Now().items[i].row
      requires Now().mode.Recovering? && row.partialPath && row.confirmed <= row.size
      modifies this`history, this`partials, this`recovery, repository
      ensures At(r, i, Recover(false), Reconciling(offset)) && Progress(old(history), history, r, i)
      ensures Now().requests[r].snap == row && Now().mode == old(Now()).mode
      ensures dir == old(dir) && writeLocks == old(writeLocks)
      ensures Now().items[i].(row := ReconciledRow(row, offset)) == Settled(old(Now()).items[i])
      ensures recovery == MoreCuts(old(recovery), old(partials)[i], row.confirmed)
    {
      ghost var settled := Settled(Now().items[i]);
      offset := CutOrRewind(i, row.confirmed);
      assert partials[i] == settled.partial && repository.commits[i] == settled.ledger;
      assert offset == settled.row.confirmed;
      RecordInspection(r, i, row, settled);
    }

    ghost method RecordInspection(r: RequestId, i: ItemId, row: Row, settled: Item)
      requires FromStart(history) && Now().mode.Recovering? && r in Now().requests && i in Now().items
      requires Now().requests[r] == Request(i, Recover(false), row, Inspecting) && row == Now().items[i].row
      requires row.partialPath && row.confirmed <= row.size && settled == Settled(Now().items[i])
      requires repository.rows == Rows(Now()) && repository.commits == Ledgers(Now())[i := settled.ledger]
      requires partials == Partials(Now())[i := settled.partial]
      requires dir == Now().dir && chunkLimit == Now().chunkLimit && writeLocks == Now().locks
      modifies this`history
      ensures At(r, i, Recover(false), Reconciling(settled.row.confirmed)) && Progress(old(history), history, r, i)
      ensures Now().requests[r].snap == row && Now().mode == old(Now()).mode
      ensures Now().items[i] == settled.(row := row, acked := old(Now()).items[i].acked)
    {
      InspectionSettles(i, Now().items[i], Now().dir, Now().requests[r]);
      Segment(r, Proceed, 0);
    }

    method Reconcile(ghost r: RequestId, i: ItemId, row: Row, offset: nat) returns (again: bool)
      requires At(r, i, Recover(false), Reconciling(offset)) && Now().requests[r].snap == row && Now().mode.Recovering?
      modifies this`history, repository
      ensures Valid() && Progress(old(history), history, r, i) && dir == old(dir) && i in Now().items
      ensures var next := ReconciledRow(row, offset);
        && Now().items[i] == old(Now()).items[i].(row := next)
        && again == (offset == row.size && partials[i].Present?)
        && (again ==>
              At(r, i, Recover(true), Probing) && Now().requests[r].snap == next && Now().mode == old(Now()).mode)
      ensures !again ==> r !in Now().requests && Now().mode == Recovering(old(Now()).mode.todo - {i})
    {
      repository.UpdateItem(i, ReconciledRow(row, offset));
      again := offset == row.size && partials[i].Present?;
      Segment(r, Proceed, 0);
    }

    /** The row and the file are brought into agreement; a full file is looked at once more. */
    method SettleRow(ghost r: RequestId, i: ItemId, row: Row) returns (again: bool, next: Row)
      requires At(r, i, Recover(false), Inspecting) && Now().requests[r].snap == row == Now().items[i].row
      requires Now().mode.Recovering? && row.partialPath && row.confirmed <= row.size
      modifies this`history, this`partials, this`recovery, repository
      ensures Valid() && Progress(old(history), history, r, i) && i in Now().items
      ensures dir == old(dir) && writeLocks == old(writeLocks)
      ensures Now().items[i] == Settled(old(Now()).items[i]) && Now().items[i].row == next
      ensures again <==> next.confirmed == next.size && Now().items[i].partial.Present?
      ensures again ==>
        At(r, i, Recover(true), Probing) && Now().requests[r].snap == next && Now().mode == old(Now()).mode
      ensures !again ==> r !in Now().requests && Now().mode == Recovering(old(Now()).mode.todo - {i})
      ensures recovery == MoreCuts(old(recovery), old(partials)[i], row.confirmed)
    {
      var offset := Inspect(r, i, row);
      ghost var inspected := history;
      again := Reconcile(r, i, row, offset);
      ProgressTwice(old(history), inspected, history, r, i);
      next := ReconciledRow(row, offset);
    }

    /** The second half of the loop body, after completion has been declined. */
    method SettleItem(ghost r: RequestId, i: ItemId, row: Row) returns (ok: bool, ghost spare: Path)
      requires At(r, i, Recover(false), Inspecting) && Now().requests[r].snap == row == Now().items[i].row
      requires Now().mode.Recovering? && row.partialPath && 0 < row.size && row.confirmed <= row.size
      modifies this`history, this`partials, this`dir, this`recovery, this`writeLocks, repository
      ensures Valid() && Progress(old(history), history, r, i) && writeLocks == old(writeLocks) && i in Now().items
      ensures Now().mode.Recovering? && spare !in old(dir)
      ensures ok ==>
        && r !in Now().requests && Now().mode == Recovering(old(Now()).mode.todo - {i})
        && (Now().items[i].(acked := 0), dir) == Finished(i, Settled(old(Now()).items[i]).(acked := 0), old(dir), spare)
        && Spares(old(dir), dir, row.finalPath, spare)
      ensures !ok ==> NoNameLeft(dir.Keys, Now().items[i].row.finalPath)
    {
      spare := FreshPath(dir);
      var again, next := SettleRow(r, i, row);
      ok := true;
      if again {
        ghost var settled := history;
        var outcome, name := RecoverCommittedCompletion(r, i, Recover(true), next);
        ProgressTwice(old(history), settled, history, r, i);
        ok := !outcome.NoName?;
        spare := name;
      }
    }

    /** The loop body of recoverActiveRooms computes `Recovered`. */
    method RecoverItem(ghost r: RequestId, i: ItemId) returns (ok: bool, ghost spare: Path)
      requires Valid() && Now().requests == map[] && Now().mode.Recovering? && i in Now().mode.todo
      modifies this`history, this`partials, this`dir, this`recovery, this`writeLocks, repository
      ensures Valid() && Progress(old(history), history, r, i) && writeLocks == old(writeLocks)
      ensures Now().mode.Recovering? && i in Now().items && i in old(Now()).items
      ensures ok ==> Recovers(old(Now()), Now(), r, i, spare)
      ensures ok ==> RecordsKept(old(Now()), Now(), i) && KeepsFiles(old(dir), dir)
      ensures ok ==> Settles(i, old(Now()).items[i].(acked := 0), old(dir), Now().items[i].(acked := 0), dir)
      ensures !ok ==> NoNameLeft(dir.Keys, Now().items[i].row.finalPath)
    {
      RecoveryFacts(history, i);
      ghost var before := Now();
      var row := repository.rows[i];
      Reopen(r, i, row);
      ghost var reopened := history;
      ok, spare := RecoverReopened(r, i, row);
      ProgressTwice(old(history), reopened, history, r, i);
      if ok {
        RecoveredRestarts(before, Now(), r, i, spare);
      }
    }

    method RecoverReopened(ghost r: RequestId, i: ItemId, row: Row) returns (ok: bool, ghost spare: Path)
      requires At(r, i, Recover(false), if row.confirmed == row.size then Probing else Inspecting)
      requires Now().mode.Recovering?
      requires Now().requests[r].snap == row == Now().items[i].row
      requires Unfinished(row) && row.partialPath && 0 < row.size && row.confirmed <= row.size
      modifies this`history, this`partials, this`dir, this`recovery, this`writeLocks, repository
      ensures Valid() && Progress(old(history), history, r, i) && writeLocks == old(writeLocks)
      ensures Now().mode.Recovering? && i in Now().items
      ensures ok ==> Recovers(old(Now()), Now(), r, i, spare)
      ensures !ok ==> NoNameLeft(dir.Keys, Now().items[i].row.finalPath)
    {
      if row.confirmed != row.size {
        ok, spare := SettleItem(r, i, row);
        return;
      }
      ok, spare := RecoverFull(r, i, row);
    }

    /** An item that the row says is complete. */
    method RecoverFull(ghost r: RequestId, i: ItemId, row: Row) returns (ok: bool, ghost spare: Path)
      requires At(r, i, Recover(false), Probing) && Now().mode.Recovering? && row.confirmed == row.size
      requires Now().requests[r].snap == row == Now().items[i].row
      requires Unfinished(row) && row.partialPath && 0 < row.size
      modifies this`history, this`partials, this`dir, this`recovery, this`writeLocks, repository
      ensures Valid() && Progress(old(history), history, r, i) && writeLocks == old(writeLocks)
      ensures Now().mode.Recovering? && i in Now().items
      ensures ok ==> Recovers(old(Now()), Now(), r, i, spare)
      ensures !ok ==> NoNameLeft(dir.Keys, Now().items[i].row.finalPath)
    {
      var outcome;
      outcome, spare := RecoverCommittedCompletion(r, i, Recover(false), row);
      ok := !outcome.NoName?;
      if outcome.Declined? {
        ghost var declined := history;
        ok, spare := SettleItem(r, i, row);
        ProgressTwice(old(history), declined, history, r, i);
      }
    }

    ghost method Reopen(r: RequestId, i: ItemId, row: Row)
      requires Valid() && Now().requests == map[] && Now().mode.Recovering? && i in Now().mode.todo && i in Now().items
      requires row == Now().items[i].row
      modifies this`history
      ensures At(r, i, Recover(false), if row.confirmed == row.size then Probing else Inspecting)
      ensures Now().requests[r].snap == row && Progress(old(history), history, r, i)
      ensures Now().items == old(Now()).items && Now().mode == old(Now()).mode
    {
      Record(UploadMachine.Reopen(r, i));
    }

    /** listActiveRooms and listItems: the uploads that are neither ready nor cancelled. */
    method Boot() returns (todo: set<ItemId>)
      requires Valid() && Now().mode.Down?
      modifies this`history
      ensures Valid() && Continues(old(history), history) && Underway(old(Now()), Now(), todo)
    {
      BeginsUnderway(history);
      todo := set i | i in repository.rows && Unfinished(repository.rows[i]);
      assert todo == set i | i in Now().items && Unfinished(Now().items[i].row);
      Record(UploadMachine.Boot);
    }

    method RecoverNext(ghost r: RequestId, ghost start: State, todo: set<ItemId>) returns (ok: bool, rest: set<ItemId>)
      requires Valid() && Underway(start, Now(), todo) && todo != {}
      modifies this`history, this`partials, this`dir, this`recovery, this`writeLocks, repository
      ensures Valid() && Continues(old(history), history) && writeLocks == old(writeLocks)
      ensures rest < todo && (ok ==> Underway(start, Now(), rest))
      ensures !ok ==> exists i :: i in Now().items && NoNameLeft(dir.Keys, Now().items[i].row.finalPath)
    {
      var i :| i in todo;
      rest := todo - {i};
      ghost var spare;
      ok, spare := RecoverItem(r, i);
      if ok {
        StillUnderway(start, old(Now()), Now(), r, i, todo);
      }
    }

    ghost method Open()
      requires Valid() && Now().mode == Recovering({}) && Now().requests == map[]
      modifies this`history
      ensures Valid() && Continues(old(history), history) && Now() == old(Now()).(mode := Serving)
      ensures forall i | i in Now().items :: Reconciled(Now().items[i])
    {
      ReachableInv(history, |history.states| - 1);
      Record(UploadMachine.Open);
    }

    /** Startup: every unfinished upload is completed or brought into agreement, the finished
        ones are not touched, and no lock is held. */
    method RecoverActiveRooms(ghost r: RequestId) returns (ok: bool)
      requires Valid() && Now().mode.Down?
      modifies this`history, this`partials, this`dir, this`recovery, this`writeLocks, repository
      ensures Valid() && Continues(old(history), history) && writeLocks == old(writeLocks)
      ensures ok ==>
        && Now().mode.Serving? && Now().requests == map[] && KeepsFinished(old(Now()), Now())
        && (forall i | i in Now().items :: Reconciled(Now().items[i]))
        && (forall i | i in old(Now()).items :: Restarted(old(Now()), Now(), i)) && KeepsFiles(old(dir), dir)
      ensures !ok ==> exists i :: i in Now().items && NoNameLeft(dir.Keys, Now().items[i].row.finalPath)
    {
      var todo := Boot();
      ok := true;
      while todo != {}
        invariant Valid() && Continues(old(history), history) && writeLocks == old(writeLocks)
        invariant ok && Underway(old(Now()), Now(), todo)
        decreases todo
      {
        ghost var before := history;
        ok, todo := RecoverNext(r, old(Now()), todo);
        ContinuesTwice(old(history), before, history);
        if !ok {
          return;
        }
      }
      ghost var settled := history;
      Open();
      ContinuesTwice(old(history), settled, history);
      forall j | j in old(Now()).items && !Unfinished(old(Now()).items[j].row)
        ensures SameItem(old(Now()), Now(), j)
      {
        assert SameItem(old(Now()), Last(settled), j);
      }
      forall j | j in old(Now()).items
        ensures Restarted(old(Now()), Now(), j)
      {
        assert Restarted(old(Now()), Last(settled), j);
      }
    }
  }

  lemma InspectionSettles(i: ItemId, item: Item, dir: Dir, q: Request)
    requires q.job == Recover(false) && q.stage.Inspecting? && q.snap == item.row
    requires item.row.partialPath && item.row.confirmed <= item.row.size
    ensures var settled := Settled(item);
            Step(i, item, dir, q, Proceed, 0)
            == Effect(settled.(row := item.row), dir, Some(q.(stage := Reconciling(settled.row.confirmed))))
  {
  }

  /** All of a file that was synced has survived, and nothing that was not in it. */
  predicate BeginsWith(before: File, after: File) {
    && after.Present? == before.Present?
    && (before.Present? ==>
          && after.bytes <= before.bytes && before.synced <= |after.bytes| && after.synced == |after.bytes|)
  }

  predicate EntryBeginsWith(before: Entry, after: Entry) {
    && after.bytes <= before.bytes && before.synced <= |after.bytes| && after.synced == |after.bytes|
    && after.origin == before.origin
  }

  lemma SurvivorsBegin(s: State, keep: map<ItemId, nat>, keepDir: map<Path, nat>)
    requires CanKeep(s.items, keep) && CanKeepDir(s.dir, keepDir)
    ensures CanKeepFiles(Partials(s), keep)
    ensures var files, files' := Partials(s), SurvivingFiles(Partials(s), keep);
      files'.Keys == files.Keys && forall i | i in files :: BeginsWith(files[i], files'[i])
    ensures var dir' := SurvivingDir(s.dir, keepDir);
      dir'.Keys == s.dir.Keys && forall p | p in s.dir :: EntryBeginsWith(s.dir[p], dir'[p])
  {
  }

  predicate CanKeepFiles(partials: map<ItemId, File>, keep: map<ItemId, nat>) {
    forall i | i in partials && partials[i].Present? :: i in keep
  }

  function SurvivingFiles(partials: map<ItemId, File>, keep: map<ItemId, nat>): map<ItemId, File>
    requires CanKeepFiles(partials, keep)
  {
    map i | i in partials :: if partials[i].Present? then Survivor(partials[i], keep[i]) else Absent
  }

  lemma CrashKeepsTables(s: State, keep: map<ItemId, nat>, keepDir: map<Path, nat>)
    requires CanKeep(s.items, keep) && CanKeepDir(s.dir, keepDir)
    ensures CanKeepFiles(Partials(s), keep)
    ensures var s' := AfterCrash(s, keep, keepDir);
            && Rows(s') == Rows(s) && Ledgers(s') == Ledgers(s) && Partials(s') == SurvivingFiles(Partials(s), keep)
            && s'.dir == SurvivingDir(s.dir, keepDir) && s'.locks == {} && s'.chunkLimit == s.chunkLimit
  {
    CrashedItems(s.items, keep);
  }

  lemma CrashedItems(items: map<ItemId, Item>, keep: map<ItemId, nat>)
    requires CanKeep(items, keep)
    ensures var s, s' := items, SurvivingItems(items, keep);
            && s'.Keys == s.Keys
            && forall i | i in s :: s'[i].row == s[i].row && s'[i].ledger == s[i].ledger
                && s'[i].partial == if s[i].partial.Present? then Survivor(s[i].partial, keep[i]) else Absent
  {
  }

  lemma ItemFacts(run: Run, i: ItemId)
    requires FromStart(run) && i in Last(run).items
    ensures ItemOk(i, Last(run).items[i])
  {
    ReachableInv(run, |run.states| - 1);
  }

  lemma RecoveryFacts(run: Run, i: ItemId)
    requires FromStart(run) && Last(run).mode.Recovering? && i in Last(run).mode.todo
    ensures i in Last(run).items
    ensures var row := Last(run).items[i].row;
            Unfinished(row) && row.partialPath && row.confirmed <= row.size && 0 < row.size
    ensures ItemOk(i, Last(run).items[i])
  {
    ReachableInv(run, |run.states| - 1);
  }

  /** Ready and cancelled items are as they were. */
  ghost predicate KeepsFinished(before: State, after: State) {
    && after.items.Keys == before.items.Keys
    && forall j {:trigger SameItem(before, after, j)} | j in before.items && !Unfinished(before.items[j].row) ::
         SameItem(before, after, j)
  }

  /** Of the commit records of item `i` exactly those within the recorded offset are left. */
  ghost predicate RecordsKept(before: State, after: State, i: ItemId) {
    && i in before.items && i in after.items
    && KeptWithin(before.items[i].ledger, after.items[i].ledger, after.items[i].row.confirmed)
  }

  /** The row and the partial file are cut to what they have in common. */
  predicate CutBack(before: Item, dir: Dir, after: Item, dir': Dir) {
    var n := if before.partial.Present? then Min(before.row.confirmed, |before.partial.bytes|) else 0;
    && n < before.row.size && dir' == dir
    && after.row == before.row.(confirmed := n, state := if n > 0 then Transferring else Pending)
    && after.partial == (if before.partial.Absent? then Absent
                         else Present(before.partial.bytes[..n], Min(before.partial.synced, n)))
  }

  /** What startup makes of an upload.  A finished one stays as it was.  A complete one becomes
      ready, with the file that has its size under its registered name if there is one,
      otherwise with its own bytes if they are all there.  Everything else is cut back. */
  ghost predicate Settles(i: ItemId, before: Item, dir: Dir, after: Item, dir': Dir) {
    var row := before.row;
    if row.state.Ready? || row.state.Cancelled? then after == before && dir' == dir
    else if row.confirmed == row.size && row.finalPath in dir && |dir[row.finalPath].bytes| == row.size
    then TakenOver(before, dir, after, dir')
    else if row.confirmed == row.size && before.partial.Present? && row.size <= |before.partial.bytes|
    then MovedOver(i, before, dir, after, dir')
    else CutBack(before, dir, after, dir')
  }

  /** Files that were there stay there as they were. */
  predicate KeepsFiles(dir: Dir, dir': Dir) {
    forall p | p in dir :: p in dir' && dir'[p] == dir[p]
  }

  /** Item `i` has been settled in some directory between that of `before` and that of `after`. */
  ghost predicate Restarted(before: State, after: State, i: ItemId) {
    && RecordsKept(before, after, i)
    && exists dir, dir' ::
         && KeepsFiles(before.dir, dir) && KeepsFiles(dir', after.dir)
         && Settles(i, before.items[i].(acked := 0), dir, after.items[i].(acked := 0), dir')
  }

  lemma RecoveredRestarts(before: State, after: State, r: RequestId, i: ItemId, spare: Path)
    requires i in before.items && i in after.items && Recovers(before, after, r, i, spare)
    requires ItemOk(i, before.items[i]) && Unfinished(before.items[i].row)
    ensures RecordsKept(before, after, i) && KeepsFiles(before.dir, after.dir)
    ensures Settles(i, before.items[i].(acked := 0), before.dir, after.items[i].(acked := 0), after.dir)
  {
    var item := before.items[i].(acked := 0);
    RecoveredRecords(i, item, before.dir, spare);
    RecoveredSettles(i, item, before.dir, spare);
  }

  lemma RecoveredRecords(i: ItemId, item: Item, dir: Dir, spare: Path)
    requires ItemOk(i, item)
    ensures var item' := Recovered(i, item, dir, spare).0; KeptWithin(item.ledger, item'.ledger, item'.row.confirmed)
  {
    if Unfinished(item.row) {
      SettledRecords(i, item);
    }
  }

  lemma SettledRecords(i: ItemId, item: Item)
    requires ItemOk(i, item) && Unfinished(item.row)
    ensures KeptWithin(item.ledger, Settled(item).ledger, Settled(item).row.confirmed)
  {
  }

  lemma RecoveredSettles(i: ItemId, item: Item, dir: Dir, spare: Path)
    requires ItemOk(i, item) && Unfinished(item.row) && spare !in dir
    requires Spares(dir, Recovered(i, item, dir, spare).1, item.row.finalPath, spare)
    ensures var (item', dir') := Recovered(i, item, dir, spare);
      Settles(i, item, dir, item', dir') && KeepsFiles(dir, dir')
  {
    if item.row.confirmed == item.row.size && !Occupied(item, dir) && item.partial.Present?
       && item.row.size <= |item.partial.bytes| {
      WholeIsMoved(i, item, dir, spare);
    } else if !(item.row.confirmed == item.row.size && Occupied(item, dir)) {
      RestIsCutBack(i, item, dir, spare);
    }
  }

  lemma WholeIsMoved(i: ItemId, item: Item, dir: Dir, spare: Path)
    requires ItemOk(i, item) && Unfinished(item.row) && spare !in dir && item.row.confirmed == item.row.size
    requires !Occupied(item, dir) && item.partial.Present? && item.row.size <= |item.partial.bytes|
    requires Spares(dir, Recovered(i, item, dir, spare).1, item.row.finalPath, spare)
    ensures var (item', dir') := Recovered(i, item, dir, spare);
      MovedOver(i, item, dir, item', dir') && KeepsFiles(dir, dir')
  {
    WholeIsPublished(i, item, dir, spare);
    var target := if item.row.finalPath in dir then spare else item.row.finalPath;
    var dir' := Recovered(i, item, dir, spare).1;
    assert target in dir' && target !in dir;
  }

  /** The bytes up to the size are published, under `spare` if the registered name is taken. */
  lemma WholeIsPublished(i: ItemId, item: Item, dir: Dir, spare: Path)
    requires ItemOk(i, item) && Unfinished(item.row) && item.row.confirmed == item.row.size
    requires !Occupied(item, dir) && item.partial.Present? && item.row.size <= |item.partial.bytes|
    ensures var bytes, synced := item.partial.bytes[..item.row.size], Min(item.partial.synced, item.row.size);
            var target := if item.row.finalPath in dir then spare else item.row.finalPath;
            Recovered(i, item, dir, spare)
            == (item.(row := ReadyRow(item.row, Sha256(bytes), target), partial := Absent),
                dir[target := Entry(bytes, synced, Published(i))])
  {
    var whole := Present(item.partial.bytes[..item.row.size], Min(item.partial.synced, item.row.size));
    assert Truncated(item.partial, item.row.size) == whole;
    if |item.partial.bytes| != item.row.size {
      assert Settled(item) == item.(row := ReconciledRow(item.row, item.row.size), partial := whole);
    }
  }

  lemma RestIsCutBack(i: ItemId, item: Item, dir: Dir, spare: Path)
    requires ItemOk(i, item) && Unfinished(item.row)
    requires !(item.row.confirmed == item.row.size && Occupied(item, dir))
    requires !(item.row.confirmed == item.row.size && item.partial.Present? && item.row.size <= |item.partial.bytes|)
    ensures var (item', dir') := Recovered(i, item, dir, spare);
      && CutBack(item, dir, item'.(ledger := item.ledger), dir') && dir' == dir
      && item' == Settled(item)
  {
    SettledIsCutBack(item, dir);
  }

  lemma SettledIsCutBack(item: Item, dir: Dir)
    requires item.partial.Present? ==> item.partial.synced <= |item.partial.bytes|
    requires Settled(item).row.confirmed < item.row.size
    ensures CutBack(item, dir, Settled(item).(ledger := item.ledger), dir)
  {
  }

  /** Between two items of startup reconciliation. */
  ghost predicate Underway(before: State, now: State, todo: set<ItemId>) {
    && now.mode == Recovering(todo) && now.requests == map[] && KeepsFinished(before, now)
    && (forall i | i in todo :: i in before.items && Unfinished(before.items[i].row) && SameItem(before, now, i))
    && (forall i {:trigger Restarted(before, now, i)} | i in before.items && i !in todo :: Restarted(before, now, i))
    && KeepsFiles(before.dir, now.dir)
  }

  lemma BeginsUnderway(run: Run)
    requires FromStart(run) && Last(run).mode.Down?
    ensures var s := Last(run);
      var todo := set i | i in s.items && Unfinished(s.items[i].row);
      Underway(s, s.(mode := Recovering(todo)), todo)
  {
    ReachableInv(run, |run.states| - 1);
    var s := Last(run);
    forall i, todo | i in s.items
      ensures SameItem(s, s.(mode := Recovering(todo)), i)
      ensures !Unfinished(s.items[i].row) ==> Restarted(s, s.(mode := Recovering(todo)), i)
    {
      assert ItemOk(i, s.items[i]);
      var item := s.items[i].(acked := 0);
      assert !Unfinished(item.row) ==> Settles(i, item, s.dir, item, s.dir);
    }
  }

  lemma StillUnderway(a: State, b: State, c: State, r: RequestId, i: ItemId, todo: set<ItemId>)
    requires Confined(b, c, r, i) && r !in c.requests && c.mode == Recovering(todo - {i})
    requires RecordsKept(b, c, i) && KeepsFiles(b.dir, c.dir)
    requires Settles(i, b.items[i].(acked := 0), b.dir, c.items[i].(acked := 0), c.dir)
    requires Underway(a, b, todo) && i in todo
    ensures Underway(a, c, todo - {i})
  {
    forall j | j in a.items
      ensures j in todo && j != i ==> SameItem(a, c, j)
      ensures j !in todo || j == i ==> Restarted(a, c, j)
    {
      assert (j in todo ==> SameItem(a, b, j)) && (j != i ==> SameItem(b, c, j));
      assert j !in todo ==> Restarted(a, b, j);
    }
    forall t
      ensures t !in c.requests
    {
      assert t == r || SameRequest(b, c, t);
    }
    forall j
      ensures j in c.items <==> j in a.items
      ensures j in a.items && !Unfinished(a.items[j].row) ==> SameItem(a, c, j)
    {
      assert j == i || SameItem(b, c, j);
      assert j in a.items && !Unfinished(a.items[j].row) ==> SameItem(a, b, j);
    }
  }

  lemma RepeatCompletes(before: State, after: State, r: RequestId, i: ItemId, outcome: CompletionOutcome, spare: Path)
    requires i in before.items && i in after.items && Completes(before, after, r, i, Replay, outcome, spare)
    requires before.items[i].row.confirmed == before.items[i].row.size && !before.items[i].row.state.Ready?
    requires ItemOk(i, before.items[i])
    ensures var item, item' := before.items[i].(acked := 0), after.items[i].(acked := 0);
      && Repeats(i, item, before.dir, item', after.dir,
                 if outcome.NoName? then Failed(500) else Acknowledged(item.row.size))
      && (outcome.NoName? ==> CannotBeNamed(item.row, before.dir))
  {
    if outcome.Done? {
      CompletedIsRepeated(i, before.items[i].(acked := 0), before.dir, spare, Acknowledged(before.items[i].row.size));
    }
  }

  /** A retained commit record lies within the recorded offset. */
  lemma RepeatFacts(run: Run, i: ItemId, c: Checkpoint)
    requires FromStart(run) && Judge(Last(run), i, c).Replayed?
    ensures c.start + c.length <= Last(run).items[i].row.confirmed <= Last(run).items[i].row.size
  {
    ReachableInv(run, |run.states| - 1);
  }

  lemma MovedProjections(s: State, r: RequestId, f: Effect)
    requires r in s.requests && s.requests[r].item in s.items
    ensures var i, s' := s.requests[r].item, Moved(s, r, f);
            && Rows(s') == Rows(s)[i := f.item.row] && Ledgers(s') == Ledgers(s)[i := f.item.ledger]
            && Partials(s') == Partials(s)[i := f.item.partial]
            && s'.dir == f.dir && s'.chunkLimit == s.chunkLimit
            && s'.locks == if f.next.None? && s.requests[r].job.Upload? then s.locks - {i} else s.locks
  {
  }

  lemma PutProjections(s: State, i: ItemId, item: Item)
    ensures var s' := s.(items := s.items[i := item]);
            && Rows(s') == Rows(s)[i := item.row] && Ledgers(s') == Ledgers(s)[i := item.ledger]
            && Partials(s') == Partials(s)[i := item.partial]
  {
  }

  lemma SweepProjections(s: State, cutoff: int)
    ensures var s' := Swept(s, cutoff);
            && Rows(s') == Rows(s) && Partials(s') == Partials(s)
            && Ledgers(s') == map i | i in Ledgers(s) :: DropBefore(Ledgers(s)[i], cutoff)
  {
  }

  /** Receiving a repeat moves no item: its answer is recorded, or it goes on to complete the item. */
  lemma RepeatReceived(s: State, r: RequestId, i: ItemId, c: Checkpoint)
    requires Enabled(s, Receive(r, i, c)) && Judge(s, i, c).Replayed?
    ensures var s' := Apply(s, Receive(r, i, c));
            && Confined(s, s', r, i) && s'.mode == s.mode && i in s.items && i in s'.items
            && var row := s.items[i].row;
               && s'.items[i].row == row
               && if row.confirmed != row.size || row.state.Ready?
                  then row.confirmed <= s'.items[i].acked && r !in s'.requests
                  else && r in s'.requests && s'.requests[r].item == i && s'.requests[r].job.Replay?
                       && s'.requests[r].stage.Probing? && s'.requests[r].snap == row
  {
  }

  lemma ReceiveProjections(s: State, r: RequestId, i: ItemId, c: Checkpoint)
    requires Enabled(s, Receive(r, i, c))
    ensures var s' := Apply(s, Receive(r, i, c));
            && Rows(s') == Rows(s) && Ledgers(s') == Ledgers(s) && Partials(s') == Partials(s)
            && s'.dir == s.dir && s'.chunkLimit == s.chunkLimit
            && s'.locks == if Judge(s, i, c).Accepted? then s.locks + {i} else s.locks
  {
  }

  /** Before its commit a writer holds the stored row, and its key is new. */
  lemma WriterFacts(run: Run, r: RequestId)
    requires FromStart(run) && Writes(Last(run), r) && PreCommit(Last(run).requests[r].stage)
    ensures var s, q := Last(run), Last(run).requests[r];
            && q.item in s.items && q.snap == s.items[q.item].row && q.job.checkpoint.key !in s.items[q.item].ledger
            && q.job.checkpoint.start == q.snap.confirmed
  {
    ReachableInv(run, |run.states| - 1);
  }

  lemma FreshPathExists(paths: set<Path>)
    ensures exists p :: p !in paths
  {
    var p := LongerThanAll(paths);
  }

  lemma {:induction false} LongerThanAll(paths: set<Path>) returns (p: Path)
    ensures p !in paths
    ensures forall q | q in paths :: |q| < |p|
    decreases paths
  {
    p := "x";
    if q :| q in paths {
      var rest := LongerThanAll(paths - {q});
      p := rest + q + "x";
      assert forall t | t in paths :: t == q || t in paths - {q};
    }
  }
}
