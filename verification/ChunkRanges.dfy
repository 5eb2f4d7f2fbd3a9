/** Cutting a file into the chunks that one request carries. */
module ChunkRanges {
  import opened Basics

  /** Number.MAX_SAFE_INTEGER */
  const MAX_SAFE_INTEGER := 0x1F_FFFF_FFFF_FFFF

  const BROWSER_CHUNK_SIZE := 1024 * 1024

  /** `end` is the last byte of the range, as in a Content-Range header. */
  datatype ContentRange = ContentRange(start: int, end: int, total: int, length: int)

  datatype NextChunk = InvalidBounds | Finished | Next(range: ContentRange)

  predicate Safe(n: int) {
    -MAX_SAFE_INTEGER <= n <= MAX_SAFE_INTEGER
  }

  function NextChunkRange(total: int, offset: int, chunkSize: int): (next: NextChunk)
    ensures next.InvalidBounds? <==> !(Safe(total) && Safe(chunkSize) && 0 <= offset <= total && 0 < chunkSize)
    ensures next.Finished? ==> offset == total
    ensures next.Next? ==>
      var r := next.range;
      && r.start == offset <= r.end < r.total == total && r.length == r.end + 1 - r.start <= chunkSize
      && (r.length == chunkSize || r.end == total - 1)
  {
    if !Safe(total) || !Safe(offset) || !Safe(chunkSize) || total < 0 || offset < 0 || offset > total || chunkSize <= 0
    then InvalidBounds
    else if offset == total then Finished
    else
      var end := (if offset + chunkSize < total then offset + chunkSize else total) - 1;
      Next(ContentRange(offset, end, total, end - offset + 1))
  }

  /** The chunks of an upload that meets no failure: each starts where the last one ended. */
  function Chunks(total: nat, offset: nat, chunkSize: nat): (chunks: seq<ContentRange>)
    requires offset <= total && Safe(total) && 0 < chunkSize && Safe(chunkSize)
    decreases total - offset
  {
    var next := NextChunkRange(total, offset, chunkSize);
    if next.Finished? then [] else [next.range] + Chunks(total, next.range.end + 1, chunkSize)
  }

  function Pieces(source: seq<Byte>, chunks: seq<ContentRange>): seq<Byte>
    requires forall r | r in chunks :: 0 <= r.start <= r.end < |source|
  {
    if chunks == [] then [] else source[chunks[0].start..chunks[0].end + 1] + Pieces(source, chunks[1..])
  }

  /** The contents of the chunks, in order, are exactly the rest of the file. */
  lemma {:induction false} ChunksTile(source: seq<Byte>, offset: nat, chunkSize: nat)
    requires offset <= |source| && Safe(|source|) && 0 < chunkSize && Safe(chunkSize)
    ensures var chunks := Chunks(|source|, offset, chunkSize);
      && (forall r | r in chunks :: offset <= r.start <= r.end < |source|)
      && Pieces(source, chunks) == source[offset..]
    decreases |source| - offset
  {
    if offset < |source| {
      var chunks := Chunks(|source|, offset, chunkSize);
      var r := chunks[0];
      var rest := Chunks(|source|, r.end + 1, chunkSize);
      ChunksTile(source, r.end + 1, chunkSize);
      assert chunks == [r] + rest && chunks[1..] == rest;
      SplitSource(source, offset, r.end + 1);
    }
  }

  lemma SplitSource(source: seq<Byte>, from: nat, to: nat)
    requires from <= to <= |source|
    ensures source[from..] == source[from..to] + source[to..]
  {
  }

  /** Every chunk but the last is full. */
  lemma {:induction false} ChunksAreFull(total: nat, offset: nat, chunkSize: nat, k: nat)
    requires offset <= total && Safe(total) && 0 < chunkSize && Safe(chunkSize)
    requires k < |Chunks(total, offset, chunkSize)|
    ensures var chunks := Chunks(total, offset, chunkSize);
      && chunks[k].start == offset + k * chunkSize
      && chunks[k].length == if k == |chunks| - 1 then total - chunks[k].start else chunkSize
    decreases k
  {
    var chunks := Chunks(total, offset, chunkSize);
    var rest := Chunks(total, chunks[0].end + 1, chunkSize);
    assert chunks == [chunks[0]] + rest;
    if k > 0 {
      ChunksAreFull(total, chunks[0].end + 1, chunkSize, k - 1);
      assert chunks[k] == rest[k - 1];
      assert (k - 1) * chunkSize + chunkSize == k * chunkSize;
    }
  }
}
