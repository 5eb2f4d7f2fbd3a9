/** The session upload that hashes while it writes: one mutable hash state runs along with the
    partial file, and a copy taken before each chunk undoes what a failing chunk fed into it. */
module RollingUpload {
  import opened Basics
  import opened FileNames

  /** createHash("sha256"): `absorbed` is what update has been called with. */
  class HashState {
    var absorbed: seq<Byte>

    constructor ()
      ensures absorbed == []
    {
      absorbed := [];
    }

    method Update(bytes: seq<Byte>)
      modifies this
      ensures absorbed == old(absorbed) + bytes
    {
      absorbed := absorbed + bytes;
    }

    method Copy() returns (copy: HashState)
      ensures fresh(copy) && copy.absorbed == absorbed
    {
      copy := new HashState();
      copy.Update(absorbed);
    }

    method Digest() returns (digest: Basics.Digest)
      ensures digest == Sha256(absorbed)
    {
      digest := Sha256(absorbed);
    }
  }

  datatype Range = Range(start: nat, length: nat, total: nat)

  /** What goes wrong: the stream breaks after `breakAt` pieces, of which `flushed` bytes had
      reached the file; the truncate that should undo this fails; publishing fails. */
  datatype Faults = Faults(breakAt: Option<nat>, flushed: nat, truncates: bool, publishes: bool)

  datatype Answer = Stored(receivedSize: nat) | Refused(status: nat) | Broken

  predicate Breaks(pieces: seq<seq<Byte>>, faults: Faults) {
    faults.breakAt.Some? && faults.breakAt.value < |pieces|
  }

  /** Publishing works, and there is a name for the file. */
  ghost predicate CanPublish(faults: Faults, existing: set<string>, finalPath: string) {
    faults.publishes && !NoNameLeft(existing, finalPath)
  }

  /** What a chunk that is not stored leaves: a broken or short one nothing, if it could be
      truncated away, otherwise the bytes that have reached the file; and a last chunk that
      could not be published everything. */
  predicate Undone(range: Range, pieces: seq<seq<Byte>>, faults: Faults,
                   before: seq<Byte>, after: seq<Byte>, receivedSize: nat)
    requires range.start <= |before|
  {
    var base := before[..range.start];
    if Breaks(pieces, faults) then
      var passed := Flatten(pieces[..faults.breakAt.value]);
      && receivedSize == range.start
      && after == if faults.truncates then base else base + passed[..Min(faults.flushed, |passed|)]
    else if |Flatten(pieces)| != range.length then
      receivedSize == range.start && after == if faults.truncates then base else base + Flatten(pieces)
    else receivedSize == range.start + range.length && after == base + Flatten(pieces)
  }

  class LocalFile {
    const size: nat
    const uploadChunkSize: nat
    var partial: Option<seq<Byte>>
    var finalPath: string
    var receivedSize: nat
    var ready: bool
    var sha256: Option<Basics.Digest>
    var uploadHash: HashState?
    var dir: map<string, seq<Byte>>

    /** The content of the partial file; a file that was never written is empty. */
    function Bytes(): seq<Byte>
      reads this
    {
      if partial.Some? then partial.value else []
    }

    /** Between two chunks the hash state stands at `receivedSize`, and unless the partial file
        has been cut from outside, what it has absorbed is the beginning of that file. */
    predicate HashInStep()
      reads this, uploadHash
    {
      if uploadHash == null then receivedSize == 0
      else
        && |uploadHash.absorbed| == receivedSize
        && (receivedSize <= |Bytes()| ==> uploadHash.absorbed == Bytes()[..receivedSize])
    }

    predicate Valid()
      reads this, uploadHash
    {
      && receivedSize <= size
      && (if ready then finalPath in dir && |dir[finalPath]| == size && sha256 == Some(Sha256(dir[finalPath]))
          else HashInStep())
    }

    constructor (size: nat, uploadChunkSize: nat, finalPath: string, dir: map<string, seq<Byte>>)
      requires 0 < size
      ensures Valid() && fresh(uploadHash) && !ready && receivedSize == 0
    {
      this.size, this.uploadChunkSize, this.finalPath, this.dir := size, uploadChunkSize, finalPath, dir;
      partial, receivedSize, ready, sha256 := None, 0, false, None;
      uploadHash := new HashState();
    }

    /** The transform in the pipeline: counts and hashes every piece it lets through. */
    method Pump(hash: HashState, pieces: seq<seq<Byte>>, breakAt: Option<nat>) returns (passed: seq<Byte>, broke: bool)
      modifies hash
      ensures hash.absorbed == old(hash.absorbed) + passed
      ensures broke <==> breakAt.Some? && breakAt.value < |pieces|
      ensures passed == Flatten(if broke then pieces[..breakAt.value] else pieces)
    {
      passed, broke := [], false;
      var k := 0;
      assert pieces[..0] == [];
      while k < |pieces|
        invariant k <= |pieces| && passed == Flatten(pieces[..k]) && !broke
        invariant breakAt.Some? ==> k <= breakAt.value
        invariant hash.absorbed == old(hash.absorbed) + passed
      {
        if breakAt == Some(k) {
          broke := true;
          return;
        }
        assert pieces[..k + 1][..k] == pieces[..k];
        hash.Update(pieces[k]);
        passed := passed + pieces[k];
        k := k + 1;
      }
      assert pieces[..k] == pieces;
    }

    /** Back to the state before the chunk: the copy replaces the hash state that has run ahead. */
    method RollBack(start: nat, rollbackHash: HashState, truncates: bool)
      requires start <= |Bytes()| && partial.Some? && start <= size && !ready
      requires rollbackHash.absorbed == Bytes()[..start]
      modifies this`partial, this`uploadHash, this`receivedSize
      ensures Valid() && receivedSize == start && uploadHash == rollbackHash
      ensures partial == Some(if truncates then old(Bytes())[..start] else old(Bytes()))
    {
      if truncates {
        partial := Some(partial.value[..start]);
      }
      uploadHash := rollbackHash;
      receivedSize := start;
    }

    /** The partial file ends where the chunk begins. */
    predicate Meets(range: Range)
      reads this
    {
      range.start == receivedSize && (range.start == 0 || |Bytes()| == range.start)
    }

    /** appendUploadChunk: a chunk is stored whole or not at all, and in both cases the hash
        state is that of the partial file's first `receivedSize` bytes. */
    method AppendUploadChunk(range: Range, pieces: seq<seq<Byte>>, faults: Faults) returns (answer: Answer)
      requires Valid() && range.start + range.length <= range.total && 0 < range.length
      modifies this, uploadHash
      ensures Valid() && (uploadHash == old(uploadHash) || uploadHash == null || fresh(uploadHash))
      // what it answers
      ensures answer == Refused(409) <==>
        old(ready) || (range.total == size && range.length <= uploadChunkSize && !old(Meets(range)))
      ensures answer == Refused(400) <==>
        && !old(ready)
        && (range.total == size && range.length <= uploadChunkSize ==>
              old(Meets(range)) && !Breaks(pieces, faults) && |Flatten(pieces)| != range.length)
      ensures answer.Refused? ==> answer.status in {400, 409}
      ensures answer.Stored? <==>
        && !old(ready) && range.total == size && range.length <= uploadChunkSize && old(Meets(range))
        && !Breaks(pieces, faults) && |Flatten(pieces)| == range.length
        && (range.start + range.length == size ==> CanPublish(faults, old(dir).Keys, old(finalPath)))
      // what it leaves
      ensures answer.Stored? ==>
        && receivedSize == answer.receivedSize == range.start + range.length && (ready <==> receivedSize == size)
        && (if ready then dir[finalPath] else Bytes()) == old(Bytes())[..range.start] + Flatten(pieces)
      ensures !answer.Stored? ==> ready == old(ready) && dir == old(dir)
      ensures old(ready) || range.total != size || range.length > uploadChunkSize || !old(Meets(range)) ==>
        partial == old(partial) && receivedSize == old(receivedSize)
      ensures !answer.Stored? && !old(ready) && range.total == size && range.length <= uploadChunkSize
              && old(Meets(range)) ==>
        Undone(range, pieces, faults, old(Bytes()), Bytes(), receivedSize)
    {
      if ready {
        return Refused(409);
      }
      if range.total != size || range.length > uploadChunkSize {
        return Refused(400);
      }
      if range.start != receivedSize {
        return Refused(409);
      }
      answer := WriteChunk(range, pieces, faults);
    }

    method WriteChunk(range: Range, pieces: seq<seq<Byte>>, faults: Faults) returns (answer: Answer)
      requires Valid() && !ready && range.start == receivedSize && range.start + range.length <= range.total == size
      requires 0 < range.length
      modifies this, uploadHash
      ensures Valid() && (uploadHash == old(uploadHash) || uploadHash == null || fresh(uploadHash))
      ensures answer == Refused(409) <==> !old(Meets(range))
      ensures answer == Refused(400) <==>
        old(Meets(range)) && !Breaks(pieces, faults) && |Flatten(pieces)| != range.length
      ensures answer.Refused? ==> answer.status in {400, 409}
      ensures answer.Stored? <==>
        && old(Meets(range)) && !Breaks(pieces, faults) && |Flatten(pieces)| == range.length
        && (range.start + range.length == size ==> CanPublish(faults, old(dir).Keys, old(finalPath)))
      ensures answer.Stored? ==>
        && receivedSize == answer.receivedSize == range.start + range.length && (ready <==> receivedSize == size)
        && (if ready then dir[finalPath] else Bytes()) == old(Bytes())[..range.start] + Flatten(pieces)
      ensures !answer.Stored? ==> !ready && dir == old(dir)
      ensures !old(Meets(range)) ==> partial == old(partial) && receivedSize == old(receivedSize)
      ensures !answer.Stored? && old(Meets(range)) ==>
        Undone(range, pieces, faults, old(Bytes()), Bytes(), receivedSize)
    {
      var start := range.start;
      var activeHash := uploadHash;
      if activeHash == null {
        activeHash := new HashState();
      }
      var rollbackHash := activeHash.Copy();
      uploadHash := activeHash;
      if start > 0 && |Bytes()| != start {
        return Refused(409);
      }
      var failure := StreamChunk(range, pieces, faults, activeHash, rollbackHash);
      if failure.Some? {
        return failure.value;
      }
      assert dir == old(dir) && finalPath == old(finalPath) && !ready;
      answer := FinishChunk(faults);
    }

    /** The pipeline; a break or a wrong length is rolled back. */
    method StreamChunk(range: Range, pieces: seq<seq<Byte>>, faults: Faults,
                       activeHash: HashState, rollbackHash: HashState)
      returns (failure: Option<Answer>)
      requires !ready && receivedSize <= size && Meets(range) && range.start + range.length <= size
      requires uploadHash == activeHash && activeHash != rollbackHash && range.start <= |Bytes()|
      requires activeHash.absorbed == rollbackHash.absorbed == Bytes()[..range.start]
      modifies this`partial, this`uploadHash, this`receivedSize, activeHash
      ensures Valid() && uploadHash != null && (uploadHash == activeHash || uploadHash == rollbackHash)
      ensures failure == if Breaks(pieces, faults) then Some(Broken)
                         else if |Flatten(pieces)| != range.length then Some(Refused(400)) else None
      ensures partial.Some? && Undone(range, pieces, faults, old(Bytes()), Bytes(), receivedSize)
      ensures failure.None? ==> receivedSize == |Bytes()|
    {
      var base := Bytes()[..range.start];
      var passed, broke := Pump(activeHash, pieces, faults.breakAt);
      var reached := if broke && faults.flushed < |passed| then passed[..faults.flushed] else passed;
      partial := Some(base + reached);
      assert (base + reached)[..range.start] == base;
      if broke {
        RollBack(range.start, rollbackHash, faults.truncates);
        return Some(Broken);
      }
      if |passed| != range.length {
        RollBack(range.start, rollbackHash, faults.truncates);
        return Some(Refused(400));
      }
      receivedSize := range.start + |passed|;
      assert base + reached == Bytes()[..receivedSize];
      failure := None;
    }

    /** The chunk is in the file; the last one also publishes it. */
    method FinishChunk(faults: Faults) returns (answer: Answer)
      requires Valid() && !ready && partial.Some? && receivedSize == |Bytes()| && uploadHash != null
      modifies this
      ensures Valid() && (uploadHash == old(uploadHash) || uploadHash == null) && receivedSize == old(receivedSize)
      ensures answer == if receivedSize == size && !CanPublish(faults, old(dir).Keys, old(finalPath))
                        then Broken else Stored(receivedSize)
      ensures answer.Stored? ==> (ready <==> receivedSize == size)
      ensures answer.Stored? ==> (if ready then dir[finalPath] else Bytes()) == old(Bytes())
      ensures answer.Broken? ==> !ready && dir == old(dir) && partial == old(partial)
    {
      if receivedSize == size {
        if !faults.publishes {
          return Broken;
        }
        var published := FinalizeUpload();
        if !published {
          return Broken;
        }
      }
      answer := Stored(receivedSize);
    }

    /** The digest comes from the hash state alone; the published file is never read again. */
    method FinalizeUpload() returns (ok: bool)
      requires Valid() && !ready && partial.Some? && receivedSize == size == |Bytes()| && uploadHash != null
      modifies this
      ensures Valid() && ready == ok && receivedSize == size
      ensures ok ==> uploadHash == null && dir[finalPath] == old(Bytes()) && finalPath !in old(dir)
      ensures ok ==> Chosen(old(dir).Keys, old(finalPath), finalPath)
      ensures ok <==> !NoNameLeft(old(dir).Keys, old(finalPath))
      ensures !ok ==> dir == old(dir) && partial == old(partial) && uploadHash == old(uploadHash)
    {
      var digest := uploadHash.Digest();
      var target := ChoosePath(dir.Keys, finalPath);
      if target.None? {
        return false;
      }
      assert Bytes()[..receivedSize] == Bytes();
      finalPath := target.value;
      dir := dir[finalPath := partial.value];
      partial, uploadHash := None, null;
      sha256, ready, ok := Some(digest), true, true;
    }

    /** Somebody cuts the partial file. */
    method Cut(length: nat)
      requires Valid() && partial.Some? && length <= |Bytes()|
      modifies this`partial
      ensures Valid() && Bytes() == old(Bytes())[..length]
    {
      partial := Some(partial.value[..length]);
    }
  }
}
