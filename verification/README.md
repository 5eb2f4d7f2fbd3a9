# Local File Transfer: a verified model of its protocols

Local File Transfer moves files between a phone and a Windows machine on the same network.  Its
hardest promise is that an upload offset which has once been acknowledged survives anything that
happens afterwards: lost answers, repeated requests, broken connections, full disks, crashes in
the middle of any step, and crashes in the middle of recovering from a crash.  Two stores, a file
and a database, have to agree for that, and they are never written together.

This project models that protocol and proves the promise.  `dafny verify dfyconfig.toml` checks
everything.

## How the model is built

**The upload protocol** is modelled twice, and the two are tied together.

* `UploadMachine` is a state machine.  Its state has the database rows with their commit ledger,
  the partial files and the destination directory (each with the number of bytes that are safely
  on disk), the requests in flight, and the write locks.  Every stretch of code between two
  `await`s is one step, so that any other request, any fault and any crash can fall between any
  two of them.  A crash keeps the synced bytes and any prefix of the rest.
* `RoomStore` is the service as it is written: a repository with tables, a store with files and
  locks, methods that change them one after the other, with the four named fault boundaries and
  the roll-backs.  A ghost history records the label of each step taken, and the class invariant
  says that this history is a run of the machine which ends in the object's own state.  What is
  proved about runs holds of the object.

`UploadInvariant` holds what no step can break, without any hypothesis.  `UploadBytes` proves that
the machine refines an append-only byte sequence, and `UploadRuns` draws the conclusions over whole
runs.  `UploadRequests` follows one request from its arrival to its end, `UploadExactlyOnce` is
about repeated delivery, `UploadRetry` shows that failures can be made good, `UploadTails` says what
a failure that could not be rolled back leaves behind and for how long, `UploadRecovery` covers
startup, and `UploadRecords` says how long a commit record lasts and that its checkpoint is answered
as a repeat that long.  `UploadEndToEnd` and `UploadClient` add the sending side: the loop of the browser
talks to the machine through a network that loses, corrupts, delays and repeats.  `CommitLedger`
is the theory of the table of commit records, and `UploadLedgers` follows it over runs.

**Hypotheses the code does not enforce** are stated where they are used and nowhere else.

* `QuietThroughout` says that whenever the item in question is complete, its registered
  destination path holds nothing or its own file.  While it is incomplete anything may be there.
  The hypothesis also constrains what the server's own finalizers do, so `UploadTidy` derives it
  from inputs that can be checked beforehand: it holds of every item if no registration and no
  file from outside uses a path that is already registered.  That it is needed is proved too, by
  three complete runs: recovery adopts a stranger's file of the same size, and it forgets a file
  that had to be renamed to another name (both in `UploadScenes`); and of two uploads registered
  under one name the second replaces the finished file of the first (`UploadCollision`).
* `Undamaged` excludes outside truncation of the item's partial file.  Only the promises about
  recorded offsets need it; what the bytes are does not depend on it.
* `Timely` says that the clock does not run backwards between two commits of an item.
* Outside truncation is a step of the machine while the service is up, down, or recovering, but
  not while a request is at work on that item, and during recovery only for items that are still
  on the list.  Cancellation is a step only while no request is at work on the item, because
  `cancelItem` takes no lock.

**The smaller components** stand by themselves: the event journal and its live streams
(`EventJournal`), the shared text and its keys (`SharedText`), the pool of hashing threads
(`SourceHashPool`), the older session upload that hashes while it writes (`RollingUpload`), the
texts under the identifying hashes (`Encodings`), range headers and chunking (`RangeHeaders`,
`ChunkRanges`), the rotating log, destination and archive names (`FileNames`, `ArchiveNames`,
`WindowsNames`) and the rate limiter.

SHA-256 is idealised as a constructor, hence injective; `Encodings` shows that the texts under it
determine their fields.  HKDF and AES-GCM are idealised as a key that determines room and token
and a box that opens only with the key and data it was sealed with.

## What the code does that its documents do not say

* `docs/PROTOCOL.md` promises a full room snapshot to a reader whose last event is older than the
  history.  The fallback in the route cannot be reached: the stored events always end at the
  room's counter, so the replay does too.  Such a reader sees a gap instead
  (`EventJournal.FollowingIsGapFree` says exactly when).
* A `publish` with an outdated room object loses its event, either with a primary-key error or in
  silence, and moves the room's counter back.  `EventJournal.RoomEvents.Publish` has the exact
  cases; the counter survives only when the object is one event behind.
* A file renamed to a free variant of its name just before a crash is forgotten, and the upload
  starts again from zero (`UploadRecovery.RenamedElsewhereIsForgotten`,
  `UploadScenes.AcknowledgedFileForgotten`).
* Registration compares a name with the files that exist, not with other uploads.  Two uploads of
  one name can both find it free when they finalize, and the second rename then replaces a file
  that has been acknowledged as ready (`UploadCollision.ReadyFileReplaced`).
* A safe archive name can still end in a dot (`ArchiveNames.EndsInDotOrSpace`).
* Shortening a destination name comes after the check for device names and can produce one, and a
  name whose extension takes up the whole limit stays too long
  (`FileNames.SanitizedIsUsable`, `FileNames.DeviceAfterCut`).
* `docs/PROTOCOL.md` speaks of 4 MiB checkpoints; the browser sends 1 MiB
  (`apps/web/src/api/uploadRequest.ts:1`), and no proof depends on either.
* With `maxFiles` 1 the log never rotates and grows without bound.
* The rate limiter admits up to `2 * limit - 1` calls in an interval as long as its window, never
  more, and that number is reached.

## Model

| member | source | states |
|---|---|---|
| UploadInvariant.StepKeepsInv | apps/server/src/v2/roomStore.ts:517-697 | every step, fault and crash keeps row, ledger, partial file, in-flight requests, locks and recovery list consistent, with no hypothesis on the environment |
| UploadInvariant.StepOk | apps/server/src/v2/roomStore.ts:585-693 | one segment of a request keeps its item well-formed and itself in step with it; a finished recovery leaves row and file in agreement |
| UploadInvariant.OtherRequestOk | apps/server/src/v2/roomStore.ts:529-541 | two requests on one item, such as a replay beside a writer, do not break each other's assumptions |
| UploadBytes.StepBytes | apps/server/src/v2/roomStore.ts:585-693 | one segment appends the whole verified checkpoint if it is the commit, and otherwise changes no confirmed byte |
| UploadBytes.StepRefines | apps/server/src/v2/roomStore.ts:517-697 | refinement of an append-only byte sequence: every step is a stutter, one atomic append, or a rewind from outside |
| UploadBytes.CrashSound | apps/server/src/v2/roomStore.ts:635-641 | a crash loses no confirmed byte, because confirmed bytes have been synced before they were committed |
| UploadRuns.RunRefinesAppendLog | apps/server/src/v2/roomStore.ts:517-697 | the refinement at every step of every run |
| UploadRuns.WriteLocksNeverLeak | apps/server/src/v2/roomStore.ts:931-944 | in every reachable state at most one writer per item and four in all; a lock is held exactly by the items with a checkpoint in flight |
| UploadRuns.ReadyIsComplete | apps/server/src/v2/roomStore.ts:993-1015 | a ready upload is the whole confirmed sequence in one published file with its digest |
| UploadRuns.OffsetsNeverDecrease | apps/server/src/v2/roomStore.ts:1072-1101 | without outside damage the recorded offset never decreases, through any number of crashes and recoveries |
| UploadRuns.AcknowledgedIsDurable | apps/server/src/v2/roomStore.ts:635-663 | whatever offset any answer ever carried, at every later time that many bytes are recorded, present and synced |
| UploadRuns.ConfirmedBytesAreFinal | apps/server/src/v2/roomStore.ts:585-631 | confirmed bytes are never rewritten: they stay a prefix of what is confirmed later |
| UploadExactlyOnce.CommitAdvancesOffset | apps/server/src/v2/sqliteRoomRepository.ts:288-320 | a commit starts at the recorded offset and moves it to its own end |
| UploadExactlyOnce.CommitWritesBehindConfirmed | apps/server/src/v2/roomStore.ts:596-663 | what a commit appends is its verified body, directly behind all bytes that were confirmed before |
| UploadExactlyOnce.OnlyRewindsLower | apps/server/src/v2/roomStore.ts:1072-1101 | nothing but the row update at the end of reconciling ever lowers a recorded offset |
| UploadExactlyOnce.CommitsAreDisjoint | apps/server/src/v2/roomStore.ts:571-575 | in every run two commits of one item are disjoint, or recovery has rewound the upload to the start of the second or below in between |
| UploadExactlyOnce.RepeatNeedsRewind | apps/server/src/v2/roomStore.ts:524-573 | in every run a checkpoint that overlaps a committed range, its record retained, trimmed or aged out, is admitted again only after such a rewind and only at the recorded offset |
| UploadExactlyOnce.RepeatIsNeverWritten | apps/server/src/v2/roomStore.ts:524-573 | without outside damage such a checkpoint is never admitted again |
| UploadExactlyOnce.ReplayIsTruthful | apps/server/src/v2/roomStore.ts:529-541 | a retained record names the very range of the repeat, lies below the recorded offset, and the stored bytes have its checksum |
| UploadRecords.RecordStep | apps/server/src/v2/sqliteRoomRepository.ts:322-351 | a step deletes a commit record exactly if it is a sweep beyond its time, a reconciliation that finds the file shorter than its end, or a trim when 4096 records end behind it; otherwise the record stays as it is |
| UploadRecords.RepeatIsRecognised | apps/server/src/v2/roomStore.ts:524-541 | in every run, after a commit whose record no step has deleted since, the same checkpoint is taken for a repeat at any later time, whatever body it brings |
| UploadRecords.ReplayGoesOnOrAnswers | apps/server/src/v2/roomStore.ts:1017-1053 | and a segment of its handling that does not fail goes on or answers |
| UploadRecords.RepeatCanBeAnswered | apps/server/src/v2/roomStore.ts:524-541 | from every such state in which the service is open the repeat can be answered, without a fault on the way, with an offset that covers its range |
| UploadRecords.RecoveryKeepsRecords | apps/server/src/v2/roomStore.ts:1072-1101 | startup, however often interrupted and whatever is damaged meanwhile, keeps of an upload that it leaves unfinished exactly the records that end within the new offset |
| UploadRecords.RepeatAfterRecovery | apps/server/src/v2/roomStore.ts:524-541 | so afterwards a checkpoint on record before is taken for a repeat if and only if its range has not been rewound |
| UploadRequests.RepeatAppendsNothing | apps/server/src/v2/roomStore.ts:529-541 | from its arrival through every segment up to its answer a retained repeat leaves ledger, recorded offset, locks and confirmed bytes as they are, although it may still publish the file, and the answer covers its range |
| UploadRequests.ReplayFreezes | apps/server/src/v2/roomStore.ts:529-541 | while a repeat completes an item nobody else can append to it |
| UploadRequests.FailureIsHarmless | apps/server/src/v2/roomStore.ts:585-678 | from the admission of a checkpoint to the end of its failure before the commit the row does not change, no commit record appears or changes, the confirmed bytes stay, and the lock is free again |
| UploadTails.TailStays | apps/server/src/v2/roomStore.ts:585-610 | in every run, once unconfirmed bytes lie behind the confirmed ones of an item in the middle of its upload, its row and its partial file stay exactly as they are until the service crashes or the item is damaged or cancelled |
| UploadTails.TailRefusesAppends | apps/server/src/v2/roomStore.ts:588-610 | and all that time nothing is committed to the item, and whatever segment one of its requests takes ends that request without an answer and without a trace |
| UploadTails.UnrepairedFailureIsStale | apps/server/src/v2/roomStore.ts:612-678 | the bytes that a checkpoint failing before its commit leaves behind, exactly: none after a truncate that worked, what was written so far or the whole body after one that failed, the whole body after a failing fsync; that state is reached if and only if there are any and the start is not 0 |
| UploadTails.UnrepairedFailureBlocks | apps/server/src/v2/roomStore.ts:585-678 | in every run, after such a failure the row stays as it was, the partial file is the confirmed bytes followed by exactly those left behind, and nothing is committed to the item, until a crash, a damage or a cancellation |
| UploadTails.RecoveryCutsTail | apps/server/src/v2/roomStore.ts:1072-1101 | such a state ends with the next crash: whatever survives, and however often recovery is interrupted, the service opens with exactly the confirmed bytes as the partial file |
| UploadRuns.RetryIsAccepted | apps/server/src/v2/roomStore.ts:616-678 | after a failure whose truncate worked the same checkpoint is accepted again |
| UploadRetry.AcceptedCanCommit | apps/server/src/v2/roomStore.ts:575-678 | from any reachable state an accepted checkpoint whose file ends at its start and whose body is right can be carried to its commit, whatever else is in flight |
| UploadRetry.FailedCanBeRetried | apps/server/src/v2/roomStore.ts:612-678 | after a failure that was truncated away, the same checkpoint sent again can be carried to its commit |
| UploadRetry.AcceptedCanBeAnswered | apps/server/src/v2/roomStore.ts:575-696 | and from there to an answer with its end, through publishing if it is the last one |
| UploadRecovery.RecoveryRestoresAgreement | apps/server/src/v2/roomStore.ts:1055-1104 | when the service opens, every upload is ready, cancelled, or strictly incomplete with row and partial file in agreement and pending exactly at offset 0 |
| UploadRecovery.RecoveryOutcome | apps/server/src/v2/roomStore.ts:1055-1104 | however often recovery was crashed and rerun, its outcome is a function of the confirmed bytes alone |
| UploadRecovery.RecoveredIsStable | apps/server/src/v2/roomStore.ts:1055-1104 | recovering an item, in any directory, leaves it reconciled, and recovering it again changes nothing |
| UploadRecovery.AdoptsWhateverFits | apps/server/src/v2/roomStore.ts:1025-1039 | a full partial file is published as it is if and only if the destination is not occupied by other content of the same size |
| UploadRecovery.RenamedElsewhereIsForgotten | apps/server/src/v2/roomStore.ts:999-1013 | after the rename to another name and before the row update, recovery keeps the upload if and only if the registered path holds a file of the right size, and otherwise starts it from nothing while the whole file stays under the other name |
| UploadScenes.AcknowledgedByteReplaced | apps/server/src/v2/roomStore.ts:1025-1039 | a complete run in which an acknowledged byte is replaced by a foreign file of the same size |
| UploadScenes.AcknowledgedFileForgotten | apps/server/src/v2/roomStore.ts:999-1013 | a complete run in which an acknowledged, complete upload is renamed to another name, the service crashes before the row update, and recovery starts the upload from nothing |
| UploadCollision.ReadyFileReplaced | apps/server/src/v2/roomStore.ts:999-1013 | a complete run of registrations and requests alone in which a ready, acknowledged upload loses its file to a second upload registered under the same name |
| UploadTidy.TidyStatesAreSound | apps/server/src/v2/roomStore.ts:447-496 | if no registration and no file from outside uses a registered path, then in every reachable state each registered path holds nothing or the file of its own item, and every item is sound, through damage, crashes and recoveries |
| UploadTidy.TidyRunsAreQuiet | apps/server/src/v2/roomStore.ts:999-1013 | so such runs meet the hypothesis of the theorems about runs for every item |
| CommitLedger.CommitKeepsLedger | apps/server/src/v2/sqliteRoomRepository.ts:288-320 | a commit keeps the recorded intervals non-empty, disjoint, bounded by the offset, and without a hole if there was none |
| CommitLedger.DeletionKeepsLedger | apps/server/src/v2/sqliteRoomRepository.ts:331-351 | rewinding, ageing and trimming keep the intervals disjoint and bounded |
| CommitLedger.TrimKeepsHighest | apps/server/src/v2/sqliteRoomRepository.ts:341-351 | trimming keeps exactly the given number of highest end offsets and opens no hole |
| CommitLedger.AgeingKeepsTail | apps/server/src/v2/sqliteRoomRepository.ts:337-339 | if commit times grow with the offset, ageing removes only the lowest records |
| CommitLedger.RewindOnBoundary | apps/server/src/v2/sqliteRoomRepository.ts:331-335 | a rewind leaves no hole if and only if it lands on the end of a retained record or empties the ledger |
| UploadLedgers.StepLeavesNoHole | apps/server/src/v2/roomStore.ts:651-682 | every step but a sweep and a rewind keeps the retained intervals end to end up to the recorded offset |
| UploadLedgers.LedgerIsAged | apps/server/src/v2/roomStore.ts:653-662 | with a clock that does not run backwards between commits, later ranges always carry later times, through rewinds, trims and sweeps |
| UploadLedgers.LedgerHasNoHoles | apps/server/src/v2/roomStore.ts:651-682 | with such a clock the retained intervals lie end to end up to the recorded offset in every state before recovery first has to rewind |
| UploadLedgers.NoHolesFromThere | apps/server/src/v2/roomStore.ts:1080-1099 | and again from any later state without holes, such as after a rewind to a retained end |
| UploadEndToEnd.ServerBytesAreSource | apps/web/src/api/roomClient.ts:221-302 | if only checksums of one source are offered for an item, what the server vouches for is always the beginning of that source, and exactly the recorded part of it whenever file and row agree, damage included; without damage they agree and every answered offset is recorded |
| UploadEndToEnd.OpenedBytesAreSource | apps/server/src/v2/roomStore.ts:1055-1104 | after every start of the service they agree, whatever was damaged before |
| UploadEndToEnd.WholeWasThere | apps/web/src/api/roomClient.ts:221-302 | when the whole size has been recorded, the server has had the whole source |
| UploadEndToEnd.ReadyIsTheSource | apps/web/src/api/roomClient.ts:221-302 | a ready upload is the source byte for byte, with the source's digest in its row |
| UploadRequests.ReplyCovers | apps/server/src/v2/routes.ts:251-265 | an offset in an answer covers the checkpoint it answers and is recorded on the server |
| UploadClient.Network.Patch | apps/web/src/api/roomClient.ts:234-253 | whatever the network and server do meanwhile, a returned offset lies behind the chunk and has been recorded |
| UploadClient.Network.Head | apps/web/src/api/roomClient.ts:310-334 | a returned offset and state were those of the row at some moment; without damage the offset lies between what was recorded before and after the request |
| UploadClient.UploadChunk | apps/web/src/api/roomClient.ts:230-301 | one stay at a chunk sends it at most three times and asks for the offset after each time without an answer; it ends at the first answer that reports another offset, with that offset, or because the upload is paused or cancelled, or after three tries in vain with no news in between |
| UploadClient.UploadRoomFile | apps/web/src/api/roomClient.ts:206-306 | in the whole exchange every checkpoint starts at the offset reported last and is the due part of the source, and the loop stops only with the whole size reported, when paused or cancelled, or after three tries in vain; it always ends; success means that the whole size was recorded and the server had the whole file; without damage it takes at most one round per byte and the file is still there; if every request is answered and nobody pauses it succeeds |
| ChunkRanges.NextChunkRange | packages/protocol/src/transfer.ts:84-108 | invalid bounds exactly when a bound is unsafe or out of order; otherwise the next chunk is full or reaches the end |
| ChunkRanges.ChunksTile | packages/protocol/src/transfer.ts:84-108 | the contents of the chunks, in order, are exactly the rest of the file |
| ChunkRanges.ChunksAreFull | packages/protocol/src/transfer.ts:84-108 | chunk k starts k whole chunks on, and only the last may be short |
| RangeHeaders.ContentRangeRoundTrip | packages/protocol/src/transfer.ts:54-82 | a written Content-Range reads back as the same range, and is refused exactly when impossible or not a safe integer |
| RangeHeaders.OnlyContentRanges | packages/protocol/src/transfer.ts:54-82 | no other header is accepted than three numerals of safe integers in order, in this form |
| RangeHeaders.ChunksTravel | packages/protocol/src/transfer.ts:54-108 | every chunk the sender cuts survives the header |
| RangeHeaders.ByteRangesSelect | packages/protocol/src/transfer.ts:13-52 | the three forms of a Range header, with any numerals, select exactly the positions that section 14.1.2 of RFC 9110 names |
| RangeHeaders.OnlyTheseForms | packages/protocol/src/transfer.ts:13-52 | no other header is accepted |
| RangeHeaders.ValueOfParts | packages/protocol/src/transfer.ts:13-52 | a numeral has its decimal value: digits in front weigh ten times as much for each digit behind |
| RoomStore.SqliteRoomRepository.CommitUploadCheckpoint | apps/server/src/v2/sqliteRoomRepository.ts:288-320 | both tables change or neither; it fails on an injected fault and on a key that is already there |
| RoomStore.RoomStore.CheckCheckpoint | apps/server/src/v2/routes.ts:224-250 | the route's and the store's checks, on tables and locks, give the verdict of the machine |
| RoomStore.VerdictIsRight | apps/server/src/v2/roomStore.ts:517-575 | that verdict, said by the tables and locks alone: 404, 413 and 400 for the request itself; never a refusal for a checkpoint whose key is on record, because a record always agrees with its key; otherwise 409, 400 and 503 in this order |
| RoomStore.RoomStore.OpenPartial | apps/server/src/v2/roomStore.ts:588-610 | writing starts exactly at offset 0 (which empties the file) or at the file's end |
| RoomStore.RoomStore.StreamBody | apps/server/src/v2/roomStore.ts:596-619 | the pieces of the body are appended in order until the body ends or the connection breaks |
| RoomStore.RoomStore.VerifyAndSync | apps/server/src/v2/roomStore.ts:621-641 | synced if and only if length and checksum match and the sync works; a mismatch truncates if that works, a failing sync leaves the tail |
| RoomStore.RoomStore.CommitOrAbort | apps/server/src/v2/roomStore.ts:643-678 | row and record are committed together, or neither is; a failing transaction truncates the file if that works, a fault before it leaves the tail |
| RoomStore.RoomStore.FinalizeUpload | apps/server/src/v2/roomStore.ts:993-1015 | the whole partial file appears under the registered name, or under its first free variant if that is taken, with its own digest in the ready row |
| RoomStore.RoomStore.WriteCheckpoint | apps/server/src/v2/roomStore.ts:575-696 | an admitted checkpoint commits exactly its verified body after the confirmed bytes, if no fault is injected and file and body are in order, or changes neither row nor ledger and keeps the confirmed bytes; a failure has the status of its cause; the lock is released on every path |
| RoomStore.RoomStore.AppendCheckpoint | apps/server/src/v2/roomStore.ts:507-697 | which checkpoints are refused, and with which status, by tables and locks alone; one whose key is on record is answered with an offset that covers it, or fails only where no name is left for the whole file, and leaves everything as it is but for a completion, which is stated exactly; an accepted one commits its body and is answered, or fails with the status of its cause; only this item and this request change, and the locks are as before |
| RoomStore.RoomStore.RecoverCommittedCompletion | apps/server/src/v2/roomStore.ts:1017-1053 | completes by adopting the final file or publishing the full partial file, and otherwise changes nothing |
| RoomStore.RoomStore.CutOrRewind | apps/server/src/v2/roomStore.ts:1072-1101 | cuts the unconfirmed tail, or deletes exactly the records beyond what is there; every byte cut off or missing is counted |
| RoomStore.RoomStore.RecoverItem | apps/server/src/v2/roomStore.ts:1059-1102 | the loop body of recovery: a finished upload stays; a complete one takes over the file of its size under its registered name, or becomes a new file under that name or its first free variant; any other has row, file and records cut back to what row and file have in common; it fails only if no name is left |
| RoomStore.RoomStore.RecoverActiveRooms | apps/server/src/v2/roomStore.ts:1055-1104 | afterwards every upload has been settled in that way, finished ones are untouched, files that were there are as they were, exactly the records within the new offsets are left, and no lock is held; it fails only if no name is left for some upload |
| RoomStore.RecoveredSettles | apps/server/src/v2/roomStore.ts:1017-1104 | the two attempts at completion with the reconciliation between them amount to one decision on row, file and directory |
| RoomStore.RoomStore.Crash | apps/server/src/v2/roomStore.ts:635-641 | each file keeps its synced bytes and any prefix of the rest; locks are gone, tables stay |
| RoomStore.RoomStore.RegisterUpload | apps/server/src/v2/roomStore.ts:447-496 | the first free form of the name, a new row with nothing confirmed and an empty ledger; an empty file is published at once; nothing else changes |
| RoomStore.RoomStore.CancelItem | apps/server/src/v2/roomStore.ts:722-735 | the partial file goes and the row is cancelled |
| RoomStore.RoomStore.SweepCommits | apps/server/src/v2/roomStore.ts:764-767 | exactly the commit records older than the cut-off go, nothing else changes |
| FileNames.AvailableFilePath | apps/server/src/local/fileNames.ts:23-42 | the sanitized name, or its stem, a number in parentheses and its extension, with the smallest number for which the result is neither present nor reserved; an error exactly when ten thousand of these are taken |
| FileNames.VariantsDiffer | apps/server/src/local/fileNames.ts:29-40 | different numbers give different names |
| FileNames.AllTakenAreMany | apps/server/src/local/fileNames.ts:29-42 | so an error means that ten thousand names are in use |
| FileNames.SanitizedKeepsTheMiddle | apps/server/src/local/fileNames.ts:8-14 | before cutting, a name is what is left when invalid characters have become underscores, white space has gone at both ends, and then dots and spaces at the end; nothing becomes "file", a device gets an underscore |
| FileNames.GoodNameStays | apps/server/src/local/fileNames.ts:8-21 | a good name is left as it is |
| FileNames.SanitizedIsUsable | apps/server/src/local/fileNames.ts:4-21 | a sanitized name is non-empty and free of invalid characters; it exceeds the limit if and only if it had to be cut and its extension is as long as the limit or longer; it names a device if and only if it had to be cut, its extension leaves room for a stem of three or four characters, and the cut stem is a device |
| FileNames.DeviceAfterCut | apps/server/src/local/fileNames.ts:4-21 | such a name exists: "CONA." with an extension of 176 times the letter x is no device and becomes one |
| WindowsNames.TheDevices | apps/server/src/local/fileNames.ts:5 | the device names are CON, PRN, AUX, NUL, and COM and LPT with a digit from 1 to 9 |
| WindowsNames.ReservedNames | apps/server/src/local/fileNames.ts:5 | a name is reserved exactly if its part before the first dot is such a name, in capitals or not |
| EventJournal.PublishKeepsWindow | apps/server/src/v2/roomStore.ts:842-861 | storing the next event and trimming keeps exactly the last 256 |
| EventJournal.StaleInsertVanishes | apps/server/src/v2/sqliteRoomRepository.ts:432-459 | an old id is refused by the primary key exactly within the window, and below it is trimmed away at once |
| EventJournal.ReplayIsSuffix | apps/server/src/v2/sqliteRoomRepository.ts:439-448 | selecting beyond an id gives the log from there on, or the stored window |
| EventJournal.RoomEvents.Publish | apps/server/src/v2/roomStore.ts:835-865 | a current room object adds one event to log, table and every stream; an outdated one reaches none of them and leaves the counter right only if it was one behind |
| EventJournal.RoomEvents.Connect | apps/server/src/v2/routes.ts:139-161 | a new stream follows the log from where it asked or from the window, and the snapshot fallback is never taken |
| EventJournal.FollowingIsGapFree | apps/server/src/v2/routes.ts:139-151 | a stream's ids grow by one without duplicates; there is no gap if and only if the reader is not older than the window |
| EventJournal.ReconnectIsSeamless | apps/server/src/v2/routes.ts:108-151 | a reader that reconnects with its last id continues where it stopped if and only if the window reaches back that far |
| SharedText.NoLostUpdate | apps/server/src/v2/roomStore.ts:347-378 | of two accepted updates in any run the later expected a later revision, and the earlier content is in the history |
| SharedText.OnlyAcceptedAreKept | apps/server/src/v2/roomStore.ts:347-378 | after any run of updates the history is the earlier one and the accepted texts in order, nothing else |
| SharedText.SharedTextStore.UpdateSharedText | apps/server/src/v2/roomStore.ts:347-378 | accepted exactly at the current revision while the room lives and its key is present; then the text joins the history, and the room is open for exactly one more lease, within its hard limit; otherwise the current text or an error comes back and nothing changes |
| SharedText.SharedTextStore.ReplaceSharedText | apps/server/src/v2/sqliteRoomRepository.ts:374-413 | the second comparison and the replacement in one transaction, rolled back on a mismatch or a failing insert |
| SharedText.SharedTextStore.GetSharedText | apps/server/src/v2/roomStore.ts:340-345 | the last accepted text, or that the key is missing |
| SharedText.SharedTextStore.RememberKey | apps/server/src/v2/roomStore.ts:881-895 | afterwards the map holds the room's key in a live buffer, and every buffer not in the map is wiped |
| SharedText.SharedTextStore.Authorize | apps/server/src/v2/roomStore.ts:285-307 | 404, 401 or access by token, ticket or both; access opens the room for exactly one more lease, within its hard limit, and a matching token brings the key back |
| SharedText.SharedTextStore.PurgeRoom | apps/server/src/v2/roomStore.ts:759-761 | the room's rows and key are gone, the key is wiped, other rooms are untouched |
| SharedText.SharedTextStore.Restart | apps/server/src/v2/roomStore.ts:200-213 | texts survive, every key is wiped |
| SourceHashPool.HitKeepsNewest | apps/server/src/v2/sourceHashPool.ts:48-54 | a hit keeps the cache equal to the most recently used keys |
| SourceHashPool.MissKeepsNewest | apps/server/src/v2/sourceHashPool.ts:183-193 | a new key pushes out only the least recently used one |
| SourceHashPool.SettleOk | apps/server/src/v2/sourceHashPool.ts:123-139 | settling one task leaves every other promise with exactly one task that will settle it |
| SourceHashPool.SourceHashPool.Hash | apps/server/src/v2/sourceHashPool.ts:40-77 | a cached digest at once, a shared promise for a request under way, otherwise one new task |
| SourceHashPool.SourceHashPool.Drain | apps/server/src/v2/sourceHashPool.ts:107-121 | starts tasks in order until all workers are busy or none waits |
| SourceHashPool.SourceHashPool.Deliver | apps/server/src/v2/sourceHashPool.ts:123-139 | the promise of the hashed key settles, it had not before, and only a well-formed digest is cached |
| SourceHashPool.SourceHashPool.Close | apps/server/src/v2/sourceHashPool.ts:93-105 | exactly the promises of the queued tasks are rejected, all others are as before |
| SourceHashPool.SourceHashPool.CompleteClose | apps/server/src/v2/sourceHashPool.ts:93-105 | when the workers are gone no promise is left pending |
| SourceHashPool.SourceHashPool.Bounds | apps/server/src/v2/sourceHashPool.ts:40-121 | workers within the limit, no work beside an idle worker, distinct in-flight keys that are not cached |
| RollingUpload.LocalFile.AppendUploadChunk | apps/server/src/local/uploadStorage.ts:18-98 | which chunks are refused, with which status, and which are stored, exactly; a stored chunk is appended whole, and what a failing one leaves in the file is stated for each failure; the hash state always stands at the stored offset |
| RollingUpload.LocalFile.RollBack | apps/server/src/local/uploadStorage.ts:75-87 | the copied hash state replaces the one that ran ahead, even when the truncate fails |
| RollingUpload.LocalFile.FinalizeUpload | apps/server/src/local/uploadStorage.ts:116-145 | the digest of the running state is that of the published file |
| Encodings.KeyPreimageInjective | apps/web/src/api/contentFingerprint.ts:41-56 | the joined text of an idempotency key determines its five fields |
| Encodings.CacheKeyInjective | apps/server/src/v2/sourceHashPool.ts:216-218 | the joined cache key determines path, size and time, whatever the path contains |
| Encodings.BigEndianRoundTrip | apps/web/src/api/contentFingerprint.ts:69-79 | the eight bytes of an integer decode to it |
| Encodings.Uint64Injective | apps/web/src/api/contentFingerprint.ts:69-79 | different safe integers have different eight bytes |
| Encodings.ConcatBytes | apps/web/src/api/contentFingerprint.ts:81-91 | the filled buffer is the parts one after the other |
| Encodings.SamplesCover | apps/web/src/api/contentFingerprint.ts:17-22 | the samples are the whole file up to 128 KiB, and two full disjoint windows above |
| Encodings.FingerprintDetermines | apps/web/src/api/contentFingerprint.ts:13-35 | two files share a fingerprint pre-image if and only if name, size, time and every sampled byte agree |
| RotatingLog.RetainedIsSuffix | apps/server/src/observability/rotatingLog.ts:80-98 | the files read oldest to newest are a contiguous suffix of all lines ever written |
| RotatingLog.RotatingJsonLog.Rotate | apps/server/src/observability/rotatingLog.ts:80-98 | every file moves up by one and the oldest is dropped; with one file nothing moves |
| RotatingLog.RotatingJsonLog.Append | apps/server/src/observability/rotatingLog.ts:59-78 | exactly the bounded line is added to the log; the files move up exactly when the current one is not empty and would become too long |
| RotatingLog.BoundedLine | apps/server/src/observability/rotatingLog.ts:149-161 | a line has at most 32 KiB and a line break |
| RotatingLog.FilesAreBounded | apps/server/src/observability/rotatingLog.ts:59-98 | from two files on every file stays within its bound; a single file keeps every line |
| ArchiveNames.SafeNameIsExtractable | apps/server/src/v2/roomArchive.ts:187-205 | a safe name is non-empty, at most 240 long, without forbidden characters, and not a reserved device name |
| ArchiveNames.SafeNameKeepsTheMiddle | apps/server/src/v2/roomArchive.ts:187-205 | it is what is left when forbidden characters have become underscores, dots and spaces have gone at the end, and then white space at both ends; nothing or only dots becomes "file", a device gets an underscore, and the result is cut at 240 |
| ArchiveNames.GoodNameStays | apps/server/src/v2/roomArchive.ts:187-205 | a good name is left as it is |
| ArchiveNames.EndsInDotOrSpace | apps/server/src/v2/roomArchive.ts:187-205 | it ends in a dot or a space exactly in two cases that the cleaned name shows: a short name in which white space not ending in an ASCII space follows a dot, then only dots and spaces, with more than one dot before; or a long one with a dot or a space at the place of the cut |
| ArchiveNames.DotBeforeSpace | apps/server/src/v2/roomArchive.ts:187-205 | such names exist: any visible character but a dot, a dot and a no-break space |
| ArchiveNames.NumberedInjective | apps/server/src/v2/roomArchive.ts:174-179 | different numbers give different names, even after cutting the stem and folding case |
| ArchiveNames.NumberedFits | apps/server/src/v2/roomArchive.ts:175-178 | a numbered name keeps to the limit if and only if suffix and extension leave room for a stem |
| ArchiveNames.FreeName | apps/server/src/v2/roomArchive.ts:171-182 | a free safe name is kept; otherwise the stem, cut as far as needed, the smallest free number and the extension, found within one try more than there are names in use |
| ArchiveNames.UniqueArchiveEntryNames | apps/server/src/v2/roomArchive.ts:165-185 | as many names as came in, pairwise distinct ignoring case |
| RateLimiter.BelowTwiceTheLimit | apps/server/src/local/rateLimiter.ts:19-37 | in any half-open interval as long as the window fewer than twice the limit are admitted |
| RateLimiter.BoundIsReached | apps/server/src/local/rateLimiter.ts:19-37 | that bound is reached for every limit and every window longer than a millisecond |
| RateLimiter.WaitingReachesNewWindow | apps/server/src/local/rateLimiter.ts:33-36 | waiting as long as told always meets a new window, and a second less would not have been enough unless only one was told |
| RateLimiter.MemoryRateLimiter.Check | apps/server/src/local/rateLimiter.ts:19-37 | with sweeping the answers are those of a limiter that never forgets; closed windows are swept exactly beyond 2,000 keys |
| RateLimiter.MemoryRateLimiter.Sweep | apps/server/src/local/rateLimiter.ts:39-45 | exactly buckets whose window is over go, and none of those stays |

## Left out

- RoomStore.RoomStore.AppendCheckpoint: `appendChunk`, the form without idempotency key and ledger, is not modelled; no public route uses it.
- RoomStore.RoomStore.RegisterUpload: quotas, the disk-space check and the reuse of an incomplete upload with the same fingerprint are left out; they are separated from the insert by awaits and do not hold under concurrent registration.
- RoomStore.RoomStore.CancelItem: cancelling while a request is at work on the item is excluded, because the code takes no lock and writes back an old row.
- RoomStore.RoomStore.RecoverActiveRooms: a file error during recovery stops the start; the model has crashes between any two segments instead. Rooms are not distinguished: all items are taken to be in active rooms, and expiry and deletion of rooms are not steps of the machine.
- RoomStore.RoomStore.FinalizeUpload: the event that is published with each progress and completion is in `EventJournal`, not in the machine; that a failing publish fails a request after its row has been written is covered as a failure after the commit.
- UploadExactlyOnce.ReplayIsTruthful: the replay path checks no body, so nothing is said about bytes that arrive with a repeat.
- UploadRuns.AcknowledgedIsDurable: durability of directory entries, interference by virus scanners and clock skew are outside what the code decides; removal or rewriting of published files by others is not a step.
- UploadBytes.StepRefines: outside truncation while a request is at work on the item, and during recovery of items already dealt with, is excluded; so is a complete upload whose registered path holds another file, for which only the contracts of the methods speak.
- UploadRuns.ReadyIsComplete: an upload published under another name than the registered one is covered by `RoomStore.RoomStore.FinalizeUpload` alone.
- UploadClient.UploadRoomFile: preparing the source, the fingerprint comparison of answers, the saved resume record and the delays between attempts are left out; the upload is the one registered for this file, and a source that cannot be read counts as a request that does not arrive.
- FileNames.AvailableFilePath: normalization to form C is assumed done; a path is a name in the one destination directory.
- CommitLedger.TrimKeepsHighest: the last tie-breaker of the SQL order is left out, because distinct records of an item never end at the same offset.
- SharedText.SharedTextStore.UpdateSharedText: nonces are parameters and event publication is in `EventJournal`; a token is compared by its idealised digest.
- SourceHashPool.SourceHashPool.Deliver: a worker that exits with code 0 and no message leaves its promise pending in the code; here every worker delivers exactly one report. That the file stayed unchanged while it was hashed is the hypothesis on the delivered digest.
- RollingUpload.LocalFile.AppendUploadChunk: the session's lock makes two chunks of one file exclude each other, so a chunk is one method; session bookkeeping is left out.
- Encodings.FingerprintDetermines: names are their UTF-8 bytes; ill-formed UTF-16 names, which the encoder maps to a replacement character, are left out, as are the base64 texts of digests.
- RotatingLog.RotatingJsonLog.Append: redaction, JSON text and I/O failures are left out.
- ArchiveNames.SafeNameIsExtractable: normalization to form C is assumed done, and names are sequences of characters, not of UTF-16 units.
- ArchiveNames.UniqueArchiveEntryNames: case folding is any map from single characters to texts; the one context-dependent rule of Unicode, for the final sigma, is left out.
- RangeHeaders.ByteRangesSelect: numbers above the largest safe integer are refused by the code although section 14.1.2 of RFC 9110 would cut them at the end of the file.
- Web, desktop and release plumbing, download counters, connection gates, cookies and origin checks are not modelled.
