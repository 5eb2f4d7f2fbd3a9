/** The durable upload protocol as a state machine over its await-delimited segments.

    Durable state is the item rows with their commit ledger, the partial files and the
    destination directory; volatile state is the requests in flight and the write locks.
    Every segment of the code is one step, so other requests, a fault or a crash may fall
    between any two of them. */
module UploadMachine {
  import opened Basics
  import opened CommitLedger

  const MAX_ACTIVE_WRITES := 4
  const MAX_COMMITS_PER_ITEM := 4096

  type Path = string
  type RequestId = nat

  /** `synced` bytes of a file are on disk; of the rest a crash may keep any prefix. */
  datatype File = Absent | Present(bytes: seq<Byte>, synced: nat)

  datatype ItemState = Pending | Transferring | Ready | Cancelled

  datatype Row = Row(
    size: nat, confirmed: nat, state: ItemState,
    partialPath: bool, finalPath: Path, sha256: Option<Digest>)

  /** `acked` is history: the highest offset a response has ever carried for this item. */
  datatype Item = Item(row: Row, ledger: Ledger, partial: File, acked: nat)

  /** Who put a file into the destination directory; no branch of the code can see it. */
  datatype Origin = Foreign | Published(item: ItemId)

  datatype Entry = Entry(bytes: seq<Byte>, synced: nat, origin: Origin)

  type Dir = map<Path, Entry>

  datatype Checkpoint = Checkpoint(
    start: nat, length: nat, total: nat, checksum: Digest, key: Key, body: seq<Byte>)

  datatype Job =
    | Upload(checkpoint: Checkpoint)
    | Replay
    | Recover(again: bool)

  datatype Stage =
    // writeUploadCheckpoint, holding the write lock
    | Admitted
    | Writing(written: nat)
    | Written
    | Synced
    | Committed
    | Trimmed
    // recoverCommittedCompletion and finalizeUpload
    | Probing
    | Adopting
    | CheckingPartial
    | Finalizing
    | Hashed(sha: Digest)
    | Named(sha: Digest, target: Path)
    | Renamed(sha: Digest, target: Path)
    // recoverActiveRooms
    | Inspecting
    | Reconciling(offset: nat)

  /** `snap` is the row object the request read and later writes back. */
  datatype Request = Request(item: ItemId, job: Job, snap: Row, stage: Stage)

  datatype Mode = Serving | Recovering(todo: set<ItemId>) | Down

  datatype State = State(
    mode: Mode, items: map<ItemId, Item>, dir: Dir,
    requests: map<RequestId, Request>, locks: set<ItemId>, chunkLimit: nat)

  datatype Event =
    | Proceed
    | Write(count: nat)
    | Target(path: Path)
    | Fail(rolledBack: bool)

  datatype Label =
    | Register(item: ItemId, size: nat, path: Path)
    | Receive(request: RequestId, item: ItemId, checkpoint: Checkpoint)
    | Advance(request: RequestId, event: Event, now: int)
    | Head(item: ItemId)
    | Cancel(item: ItemId)
    | Sweep(cutoff: int)
    | Crash(keep: map<ItemId, nat>, keepDir: map<Path, nat>)
    | Boot
    | Reopen(request: RequestId, item: ItemId)
    | Open
    | Damage(item: ItemId, left: Option<nat>)
    | ForeignFile(path: Path, bytes: seq<Byte>)

  /* ------------------------------ admission ------------------------------ */

  datatype Verdict = Accepted | Replayed | Refused(status: nat)

  function KeyOf(i: ItemId, c: Checkpoint): Key {
    CheckpointKey(i, c.start, c.length, c.checksum)
  }

  /** The PATCH checks of the route, then those of writeUploadCheckpoint up to the lock;
      they run without an await between them. */
  function Judge(s: State, i: ItemId, c: Checkpoint): Verdict {
    if i !in s.items then Refused(404) else
    var item := s.items[i];
    if c.length < 1 then Refused(400)
    else if c.length > s.chunkLimit then Refused(413)
    else if c.key != KeyOf(i, c) then Refused(400)
    else if c.start + c.length > item.row.size then Refused(400)
    else if c.key in item.ledger then
      var known := item.ledger[c.key];
      if known.start != c.start || known.end != c.start + c.length || known.checksum != c.checksum
      then Refused(409) else Replayed
    else if !item.row.partialPath || item.row.state.Ready? || item.row.state.Cancelled? then Refused(409)
    else if c.total != item.row.size then Refused(400)
    else if c.start != item.row.confirmed then Refused(409)
    else if i in s.locks then Refused(409)
    else if |s.locks| >= MAX_ACTIVE_WRITES then Refused(503)
    else Accepted
  }

  /* -------------------------- one request segment ------------------------ */

  datatype Effect = Effect(item: Item, dir: Dir, next: Option<Request>)

  function Truncated(f: File, n: nat): File {
    if f.Present? && n < |f.bytes| then Present(f.bytes[..n], Min(f.synced, n)) else f
  }

  /** Only a failing stream and a failing commit attempt to truncate back to the start. */
  predicate RollsBack(stage: Stage) {
    stage.Writing? || stage.Synced?
  }

  predicate WriterStage(stage: Stage) {
    stage.Admitted? || stage.Writing? || stage.Written? || stage.Synced? || stage.Committed? || stage.Trimmed?
  }

  predicate RecoveryStage(stage: Stage) {
    stage.Inspecting? || stage.Reconciling?
  }

  predicate FileOfSize(f: File, n: nat) {
    f.Present? && |f.bytes| == n
  }

  predicate CanStep(item: Item, dir: Dir, q: Request, e: Event) {
    && (WriterStage(q.stage) ==> q.job.Upload?)
    && (RecoveryStage(q.stage) ==> q.job.Recover?)
    && match e
       case Fail(_) => !q.job.Recover?
       case Write(n) =>
         q.stage.Writing? && item.partial.Present? && 0 < n && q.stage.written + n <= |q.job.checkpoint.body|
       case Target(p) =>
         q.stage.Hashed? && if q.snap.finalPath in dir then p !in dir else p == q.snap.finalPath
       case Proceed =>
         match q.stage
         case Writing(w) =>
           var c := q.job.checkpoint;
           w == |c.body| == c.length && Sha256(c.body) == c.checksum
         case Written => item.partial.Present?
         case Synced => q.job.checkpoint.key !in item.ledger
         case Adopting => q.snap.finalPath in dir
         case Finalizing => item.partial.Present?
         case Hashed(_) => false
         case Named(_, _) => item.partial.Present?
         case _ => true
  }

  function Step(i: ItemId, item: Item, dir: Dir, q: Request, e: Event, now: int): Effect
    requires CanStep(item, dir, q, e)
  {
    match e
    case Fail(rolledBack) =>
      Effect(if rolledBack && RollsBack(q.stage)
             then item.(partial := Truncated(item.partial, q.job.checkpoint.start)) else item, dir, None)
    case Write(n) =>
      var w := q.stage.written;
      Effect(item.(partial := item.partial.(bytes := item.partial.bytes + q.job.checkpoint.body[w..w + n])),
             dir, Some(q.(stage := Writing(w + n))))
    case Target(p) => Effect(item, dir, Some(q.(stage := Named(q.stage.sha, p))))
    case Proceed =>
      if WriterStage(q.stage) then WriterStep(item, dir, q, now)
      else if RecoveryStage(q.stage) then RecoveryStep(item, dir, q)
      else CompletionStep(i, item, dir, q)
  }

  /** The response carries the confirmed offset of the row object the request holds. */
  function Answer(item: Item, q: Request): Item {
    if q.job.Recover? then item else item.(acked := Max(item.acked, q.snap.confirmed))
  }

  function WriterStep(item: Item, dir: Dir, q: Request, now: int): Effect
    requires CanStep(item, dir, q, Proceed) && WriterStage(q.stage)
  {
    var c := q.job.checkpoint;
    match q.stage
    case Admitted =>
      if c.start > 0 && !FileOfSize(item.partial, c.start) then Effect(item, dir, None)
      else Effect(if c.start == 0 then item.(partial := Present([], 0)) else item,
                  dir, Some(q.(stage := Writing(0))))
    case Writing(_) => Effect(item, dir, Some(q.(stage := Written)))
    case Written =>
      Effect(item.(partial := item.partial.(synced := |item.partial.bytes|)), dir, Some(q.(stage := Synced)))
    case Synced =>
      // one SQLite transaction: the row and its commit record together
      var row := q.snap.(confirmed := c.start + c.length, state := Transferring);
      var commit := Commit(c.start, c.start + c.length, c.checksum, now);
      Effect(item.(row := row, ledger := item.ledger[c.key := commit]), dir,
             Some(q.(snap := row, stage := Committed)))
    case Committed =>
      Effect(item.(ledger := Trim(item.ledger, MAX_COMMITS_PER_ITEM)), dir, Some(q.(stage := Trimmed)))
    case Trimmed =>
      if q.snap.confirmed == q.snap.size then Effect(item, dir, Some(q.(stage := Finalizing)))
      else Effect(Answer(item, q), dir, None)
  }

  function ReadyRow(row: Row, sha: Digest, path: Path): Row {
    row.(confirmed := row.size, state := Ready, partialPath := false, sha256 := Some(sha), finalPath := path)
  }

  /** What follows `recoverCommittedCompletion` returning false. */
  function NotCompleted(item: Item, dir: Dir, q: Request): Effect {
    if q.job == Recover(false) then Effect(item, dir, Some(q.(stage := Inspecting)))
    else Effect(Answer(item, q), dir, None)
  }

  function CompletionStep(i: ItemId, item: Item, dir: Dir, q: Request): Effect
    requires CanStep(item, dir, q, Proceed) && !WriterStage(q.stage) && !RecoveryStage(q.stage)
  {
    var path := q.snap.finalPath;
    match q.stage
    case Probing =>
      var stage := if path in dir && |dir[path].bytes| == q.snap.size then Adopting else CheckingPartial;
      Effect(item, dir, Some(q.(stage := stage)))
    case Adopting =>
      var row := ReadyRow(q.snap, Sha256(dir[path].bytes), path);
      Effect(Answer(item.(row := row), q.(snap := row)), dir, None)
    case CheckingPartial =>
      if q.snap.partialPath && FileOfSize(item.partial, q.snap.size)
      then Effect(item, dir, Some(q.(stage := Finalizing)))
      else NotCompleted(item, dir, q)
    case Finalizing => Effect(item, dir, Some(q.(stage := Hashed(Sha256(item.partial.bytes)))))
    case Named(sha, target) =>
      Effect(item.(partial := Absent),
             dir[target := Entry(item.partial.bytes, item.partial.synced, Published(i))],
             Some(q.(stage := Renamed(sha, target))))
    case Renamed(sha, target) =>
      var row := ReadyRow(q.snap, sha, target);
      Effect(Answer(item.(row := row), q.(snap := row)), dir, None)
  }

  /** The row written at the end of startup reconciliation. */
  function ReconciledRow(row: Row, offset: nat): Row {
    row.(confirmed := offset, state := if offset > 0 then Transferring else Pending)
  }

  function RecoveryStep(item: Item, dir: Dir, q: Request): Effect
    requires RecoveryStage(q.stage) && q.job.Recover?
  {
    match q.stage
    case Inspecting =>
      var durable := Min(q.snap.confirmed, q.snap.size);
      if q.snap.partialPath && item.partial.Present? then
        var length := |item.partial.bytes|;
        if length < durable
        then Effect(item.(ledger := RewindTo(item.ledger, length)), dir, Some(q.(stage := Reconciling(length))))
        else Effect(item.(partial := Truncated(item.partial, durable)), dir, Some(q.(stage := Reconciling(durable))))
      else
        Effect(item.(ledger := RewindTo(item.ledger, 0)), dir, Some(q.(stage := Reconciling(0))))
    case Reconciling(offset) =>
      var row := ReconciledRow(q.snap, offset);
      Effect(item.(row := row), dir,
             if offset == row.size && item.partial.Present?
             then Some(Request(q.item, Recover(true), row, Probing)) else None)
  }

  /* ---------------------------- the whole system ------------------------- */

  predicate Busy(s: State, i: ItemId) {
    exists r :: r in s.requests && s.requests[r].item == i
  }

  predicate Unfinished(row: Row) {
    !row.state.Ready? && !row.state.Cancelled?
  }

  predicate Enabled(s: State, l: Label) {
    match l
    case Register(i, _, path) => s.mode.Serving? && i !in s.items && path !in s.dir
    case Receive(r, i, c) => s.mode.Serving? && r !in s.requests && !Judge(s, i, c).Refused?
    case Advance(r, e, _) =>
      && !s.mode.Down? && r in s.requests && s.requests[r].item in s.items
      && CanStep(s.items[s.requests[r].item], s.dir, s.requests[r], e)
    case Head(i) => s.mode.Serving? && i in s.items
    case Cancel(i) => s.mode.Serving? && i in s.items && !Busy(s, i)
    case Sweep(_) => !s.mode.Down?
    case Crash(keep, keepDir) => CanKeep(s.items, keep) && CanKeepDir(s.dir, keepDir)
    case Boot => s.mode.Down?
    case Reopen(r, i) => s.mode.Recovering? && i in s.mode.todo && i in s.items && s.requests == map[]
    case Open => s.mode.Recovering? && s.mode.todo == {} && s.requests == map[]
    case Damage(i, left) =>
      && i in s.items && !Busy(s, i) && s.items[i].partial.Present? && (s.mode.Recovering? ==> i in s.mode.todo)
      && (left.Some? ==> left.value <= |s.items[i].partial.bytes|)
    case ForeignFile(path, _) => path !in s.dir
  }

  function Survivor(f: File, keep: nat): File {
    if f.Present? && keep <= |f.bytes| then Present(f.bytes[..keep], keep) else Absent
  }

  predicate CanKeep(items: map<ItemId, Item>, keep: map<ItemId, nat>) {
    forall i | i in items && items[i].partial.Present? ::
      i in keep && items[i].partial.synced <= keep[i] <= |items[i].partial.bytes|
  }

  predicate CanKeepDir(dir: Dir, keepDir: map<Path, nat>) {
    forall p | p in dir :: p in keepDir && dir[p].synced <= keepDir[p] <= |dir[p].bytes|
  }

  function SurvivingItems(items: map<ItemId, Item>, keep: map<ItemId, nat>): map<ItemId, Item>
    requires CanKeep(items, keep)
  {
    map i | i in items ::
      items[i].(partial := if items[i].partial.Present? then Survivor(items[i].partial, keep[i]) else Absent)
  }

  function SurvivingDir(dir: Dir, keepDir: map<Path, nat>): Dir
    requires CanKeepDir(dir, keepDir)
  {
    map p | p in dir :: Entry(dir[p].bytes[..keepDir[p]], keepDir[p], dir[p].origin)
  }

  function AfterCrash(s: State, keep: map<ItemId, nat>, keepDir: map<Path, nat>): State
    requires Enabled(s, Crash(keep, keepDir))
  {
    State(Down, SurvivingItems(s.items, keep), SurvivingDir(s.dir, keepDir), map[], {}, s.chunkLimit)
  }

  /** A response that carries the confirmed offset of the stored row. */
  function Acknowledged(s: State, i: ItemId): State
    requires i in s.items
  {
    s.(items := s.items[i := s.items[i].(acked := Max(s.items[i].acked, s.items[i].row.confirmed))])
  }

  function AfterReceive(s: State, r: RequestId, i: ItemId, c: Checkpoint): State
    requires Enabled(s, Receive(r, i, c))
  {
    var row := s.items[i].row;
    if Judge(s, i, c).Accepted? then
      s.(requests := s.requests[r := Request(i, Upload(c), row, Admitted)], locks := s.locks + {i})
    else if row.confirmed != row.size || row.state.Ready? then Acknowledged(s, i)
    else s.(requests := s.requests[r := Request(i, Replay, row, Probing)])
  }

  /** Installs the effect of one segment of request `r`. */
  function Moved(s: State, r: RequestId, effect: Effect): State
    requires r in s.requests
  {
    var q := s.requests[r];
    var moved := s.(items := s.items[q.item := effect.item], dir := effect.dir);
    match effect.next
    case Some(q') => moved.(requests := s.requests[r := q'])
    case None =>
      moved.(requests := s.requests - {r},
             locks := if q.job.Upload? then s.locks - {q.item} else s.locks,
             mode := if s.mode.Recovering? then Recovering(s.mode.todo - {q.item}) else s.mode)
  }

  function AfterAdvance(s: State, r: RequestId, e: Event, now: int): State
    requires Enabled(s, Advance(r, e, now))
  {
    var q := s.requests[r];
    Moved(s, r, Step(q.item, s.items[q.item], s.dir, q, e, now))
  }

  function Swept(s: State, cutoff: int): State {
    s.(items := map i | i in s.items :: s.items[i].(ledger := DropBefore(s.items[i].ledger, cutoff)))
  }

  function Registered(size: nat, path: Path): Item {
    if size == 0 then Item(Row(0, 0, Ready, false, path, Some(Sha256([]))), map[], Absent, 0)
    else Item(Row(size, 0, Pending, true, path, None), map[], Absent, 0)
  }

  function Apply(s: State, l: Label): State
    requires Enabled(s, l)
  {
    match l
    case Register(i, size, path) =>
      s.(items := s.items[i := Registered(size, path)],
         dir := if size == 0 then s.dir[path := Entry([], 0, Published(i))] else s.dir)
    case Receive(r, i, c) => AfterReceive(s, r, i, c)
    case Advance(r, e, now) => AfterAdvance(s, r, e, now)
    case Head(i) => Acknowledged(s, i)
    case Cancel(i) =>
      s.(items := s.items[i := s.items[i].(row := s.items[i].row.(state := Cancelled),
                                           partial := if s.items[i].row.partialPath then Absent
                                                      else s.items[i].partial)])
    case Sweep(cutoff) => Swept(s, cutoff)
    case Crash(keep, keepDir) => AfterCrash(s, keep, keepDir)
    case Boot => s.(mode := Recovering(set i | i in s.items && Unfinished(s.items[i].row)))
    case Reopen(r, i) =>
      var row := s.items[i].row;
      s.(requests :=
           map[r := Request(i, Recover(false), row, if row.confirmed == row.size then Probing else Inspecting)])
    case Open => s.(mode := Serving)
    case Damage(i, left) =>
      var f := s.items[i].partial;
      s.(items := s.items[i := s.items[i].(partial := if left.Some? then Truncated(f, left.value) else Absent)])
    case ForeignFile(path, bytes) => s.(dir := s.dir[path := Entry(bytes, 0, Foreign)])
  }
}
