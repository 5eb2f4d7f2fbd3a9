/** The texts and byte strings that are hashed into identifiers: each determines its fields. */
module Encodings {
  import opened Basics
  import opened Text
  import opened ChunkRanges

  /* ------------------------- separated fields ---------------------------- */

  /** The first separator ends the first field. */
  lemma SplitAtFirst<T>(a: seq<T>, rest: seq<T>, a': seq<T>, rest': seq<T>, sep: T)
    requires sep !in a && sep !in a'
    requires a + [sep] + rest == a' + [sep] + rest'
    ensures a == a' && rest == rest'
  {
    var whole, whole' := a + [sep] + rest, a' + [sep] + rest';
    assert whole[|a|] == sep && whole[|a'|] == sep;
    assert forall k | 0 <= k < |a| :: whole[k] == a[k];
    assert forall k | 0 <= k < |a'| :: whole[k] == a'[k];
    assert a == whole[..|a|] && a' == whole'[..|a'|];
    assert rest == whole[|a| + 1..] && rest' == whole'[|a'| + 1..];
  }

  /** The last separator begins the last field. */
  lemma SplitAtLast<T>(rest: seq<T>, a: seq<T>, rest': seq<T>, a': seq<T>, sep: T)
    requires sep !in a && sep !in a'
    requires rest + [sep] + a == rest' + [sep] + a'
    ensures a == a' && rest == rest'
  {
    var whole, whole' := rest + [sep] + a, rest' + [sep] + a';
    assert whole[|rest|] == sep && whole[|rest'|] == sep;
    assert forall k | 0 <= k < |a| :: whole[|rest| + 1 + k] == a[k];
    assert forall k | 0 <= k < |a'| :: whole[|rest'| + 1 + k] == a'[k];
    assert rest == whole[..|rest|] && rest' == whole'[..|rest'|];
    assert a == whole[|rest| + 1..] && a' == whole'[|rest'| + 1..];
  }

  function Join(fields: seq<string>, sep: char): string
    requires fields != []
  {
    if |fields| == 1 then fields[0] else fields[0] + [sep] + Join(fields[1..], sep)
  }

  /** A join of equally many fields determines them when none but the last holds the separator. */
  lemma {:induction false} JoinInjective(fields: seq<string>, fields': seq<string>, sep: char)
    requires |fields| == |fields'| > 0 && Join(fields, sep) == Join(fields', sep)
    requires forall j | 0 <= j < |fields| - 1 :: sep !in fields[j] && sep !in fields'[j]
    ensures fields == fields'
  {
    if |fields| > 1 {
      SplitAtFirst(fields[0], Join(fields[1..], sep), fields'[0], Join(fields'[1..], sep), sep);
      JoinInjective(fields[1..], fields'[1..], sep);
    }
  }

  lemma DecimalHasNo(n: nat, c: char)
    requires !IsDigit(c)
    ensures c !in Decimal(n)
  {
  }

  /* --------------------------- idempotency keys -------------------------- */

  const KEY_TAG := "lft-checkpoint-v1"

  /** What both sides hash into the key of a checkpoint. */
  function KeyPreimage(room: string, item: string, offset: nat, length: nat, checksum: string): string {
    Join([KEY_TAG, room, item, Decimal(offset), Decimal(length), checksum], '\n')
  }

  /** Room and item identifiers match a pattern without line breaks; then the text under the
      hash determines all five fields. */
  lemma KeyPreimageInjective(room: string, item: string, offset: nat, length: nat, checksum: string,
                             room': string, item': string, offset': nat, length': nat, checksum': string)
    requires '\n' !in room && '\n' !in room' && '\n' !in item && '\n' !in item'
    requires KeyPreimage(room, item, offset, length, checksum) == KeyPreimage(room', item', offset', length', checksum')
    ensures room == room' && item == item' && offset == offset' && length == length' && checksum == checksum'
  {
    var fields := [KEY_TAG, room, item, Decimal(offset), Decimal(length), checksum];
    var fields' := [KEY_TAG, room', item', Decimal(offset'), Decimal(length'), checksum'];
    DecimalHasNo(offset, '\n');
    DecimalHasNo(offset', '\n');
    DecimalHasNo(length, '\n');
    DecimalHasNo(length', '\n');
    JoinInjective(fields, fields', '\n');
    assert fields[1] == fields'[1] && fields[2] == fields'[2] && fields[5] == fields'[5];
    assert fields[3] == fields'[3] && fields[4] == fields'[4];
    DecimalInjective(offset, offset');
    DecimalInjective(length, length');
  }

  /** The cache key of the source hash pool. */
  function CacheKey(path: string, size: nat, modifiedMs: nat): string {
    Join([path, Decimal(size), Decimal(modifiedMs)], '\0')
  }

  /** Determined whatever the path contains, because the numbers come last. */
  lemma CacheKeyInjective(path: string, size: nat, modifiedMs: nat, path': string, size': nat, modifiedMs': nat)
    requires CacheKey(path, size, modifiedMs) == CacheKey(path', size', modifiedMs')
    ensures path == path' && size == size' && modifiedMs == modifiedMs'
  {
    DecimalHasNo(size, '\0');
    DecimalHasNo(size', '\0');
    DecimalHasNo(modifiedMs, '\0');
    DecimalHasNo(modifiedMs', '\0');
    CacheKeyShape(path, size, modifiedMs);
    CacheKeyShape(path', size', modifiedMs');
    SplitAtLast(path + ['\0'] + Decimal(size), Decimal(modifiedMs),
                path' + ['\0'] + Decimal(size'), Decimal(modifiedMs'), '\0');
    SplitAtLast(path, Decimal(size), path', Decimal(size'), '\0');
    DecimalInjective(size, size');
    DecimalInjective(modifiedMs, modifiedMs');
  }

  lemma CacheKeyShape(path: string, size: nat, modifiedMs: nat)
    ensures CacheKey(path, size, modifiedMs) == path + ['\0'] + Decimal(size) + ['\0'] + Decimal(modifiedMs)
  {
    var fields := [path, Decimal(size), Decimal(modifiedMs)];
    assert fields[1..] == [Decimal(size), Decimal(modifiedMs)];
    assert fields[1..][1..] == [Decimal(modifiedMs)];
    assert Join(fields[1..], '\0') == Decimal(size) + ['\0'] + Decimal(modifiedMs);
  }

  /* ----------------------- integers as eight bytes ----------------------- */

  function BigEndian(n: nat, width: nat): (bytes: seq<Byte>)
    ensures |bytes| == width
  {
    if width == 0 then [] else BigEndian(n / 256, width - 1) + [n % 256]
  }

  function FromBigEndian(bytes: seq<Byte>): nat {
    if bytes == [] then 0 else 256 * FromBigEndian(bytes[..|bytes| - 1]) + bytes[|bytes| - 1]
  }

  function Power256(width: nat): (p: nat)
    ensures p > 0
  {
    if width == 0 then 1 else 256 * Power256(width - 1)
  }

  lemma {:induction false} BigEndianRoundTrip(n: nat, width: nat)
    requires n < Power256(width)
    ensures FromBigEndian(BigEndian(n, width)) == n
  {
    if width > 0 {
      BigEndianRoundTrip(n / 256, width - 1);
      var bytes := BigEndian(n, width);
      assert bytes[..|bytes| - 1] == BigEndian(n / 256, width - 1);
    }
  }

  /** uint64: only safe non-negative integers are encoded. */
  function Uint64(value: int): (bytes: Option<seq<Byte>>)
    ensures bytes.Some? <==> 0 <= value <= MAX_SAFE_INTEGER
    ensures bytes.Some? ==> |bytes.value| == 8
  {
    if !Safe(value) || value < 0 then None else Some(BigEndian(value, 8))
  }

  lemma Uint64Injective(m: int, n: int)
    requires Uint64(m).Some? && Uint64(m) == Uint64(n)
    ensures m == n
  {
    assert Power256(8) == 0x1_0000_0000_0000_0000;
    BigEndianRoundTrip(m, 8);
    BigEndianRoundTrip(n, 8);
  }

  /* ----------------------------- concatenation --------------------------- */

  lemma {:induction false} FlattenPrefix(parts: seq<seq<Byte>>, k: nat)
    requires k <= |parts|
    ensures |Flatten(parts[..k])| <= |Flatten(parts)|
  {
    if k < |parts| {
      FlattenPrefix(parts[..|parts| - 1], k);
      assert parts[..|parts| - 1][..k] == parts[..k];
    } else {
      assert parts[..k] == parts;
    }
  }

  /** concatBytes: the parts are copied into one buffer at a growing offset. */
  method ConcatBytes(parts: seq<seq<Byte>>) returns (result: array<Byte>)
    ensures fresh(result) && result[..] == Flatten(parts)
  {
    var total := 0;
    for k := 0 to |parts|
      invariant total == |Flatten(parts[..k])|
    {
      assert parts[..k + 1][..k] == parts[..k];
      total := total + |parts[k]|;
    }
    assert parts[..|parts|] == parts;
    result := new Byte[total];
    var offset := 0;
    assert result[..0] == [];
    for k := 0 to |parts|
      invariant offset == |Flatten(parts[..k])| <= total && result[..offset] == Flatten(parts[..k])
    {
      var part := parts[k];
      FlattenPrefix(parts, k + 1);
      assert parts[..k + 1][..k] == parts[..k];
      ghost var before := result[..offset];
      forall j | 0 <= j < |part| {
        result[offset + j] := part[j];
      }
      assert result[..offset + |part|] == before + part;
      offset := offset + |part|;
    }
    assert result[..offset] == result[..];
  }

  /* ------------------------------ fingerprint ---------------------------- */

  const SAMPLE_SIZE := 64 * 1024

  function FirstSample(source: seq<Byte>): seq<Byte> {
    source[..Min(|source|, SAMPLE_SIZE)]
  }

  function LastSample(source: seq<Byte>): seq<Byte> {
    source[Max(Min(|source|, SAMPLE_SIZE), |source| - SAMPLE_SIZE)..]
  }

  /** Position `k` is in one of the two samples. */
  predicate Sampled(size: nat, k: nat) {
    k < size && (k < SAMPLE_SIZE || size - SAMPLE_SIZE <= k)
  }

  /** The samples are the whole file up to 128 KiB, and two full disjoint windows above. */
  lemma SamplesCover(source: seq<Byte>)
    ensures |source| <= 2 * SAMPLE_SIZE ==> FirstSample(source) + LastSample(source) == source
    ensures |source| > 2 * SAMPLE_SIZE ==>
      && |FirstSample(source)| == |LastSample(source)| == SAMPLE_SIZE
      && source == FirstSample(source) + source[SAMPLE_SIZE..|source| - SAMPLE_SIZE] + LastSample(source)
  {
  }

  /** Bytes under the fingerprint's hash; `tag` and `name` are the UTF-8 of the marker (which
      ends in NUL) and of the file name. */
  function FingerprintPreimage(tag: seq<Byte>, name: seq<Byte>, lastModified: nat,
                               source: seq<Byte>): (bytes: seq<Byte>)
    requires Safe(lastModified) && Safe(|source|)
  {
    tag + (name + [0] + (Uint64(|source|).value
      + (Uint64(lastModified).value + (FirstSample(source) + LastSample(source)))))
  }

  /** Two files share a fingerprint pre-image exactly when name, size, time and every sampled
      byte agree: nothing of them is lost in the encoding, and nothing else enters it. */
  lemma FingerprintDetermines(tag: seq<Byte>, name: seq<Byte>, time: nat, source: seq<Byte>,
                              name': seq<Byte>, time': nat, source': seq<Byte>)
    requires Safe(time) && Safe(|source|) && Safe(time') && Safe(|source'|) && 0 !in name && 0 !in name'
    ensures FingerprintPreimage(tag, name, time, source) == FingerprintPreimage(tag, name', time', source')
      <==> name == name' && time == time' && |source| == |source'|
           && forall k: nat | Sampled(|source|, k) :: source[k] == source'[k]
  {
    if FingerprintPreimage(tag, name, time, source) == FingerprintPreimage(tag, name', time', source') {
      FingerprintFields(tag, name, time, source, name', time', source');
      SampledBytes(source, source');
    }
    if |source| == |source'| && forall k: nat | Sampled(|source|, k) :: source[k] == source'[k] {
      SampledBytes(source, source');
    }
  }

  lemma SampledBytes(source: seq<Byte>, source': seq<Byte>)
    requires |source| == |source'|
    ensures FirstSample(source) + LastSample(source) == FirstSample(source') + LastSample(source')
      <==> forall k: nat | Sampled(|source|, k) :: source[k] == source'[k]
  {
    var n := |source|;
    var both, both' := FirstSample(source) + LastSample(source), FirstSample(source') + LastSample(source');
    var first := Min(n, SAMPLE_SIZE);
    var last := Max(first, n - SAMPLE_SIZE);
    if both == both' {
      forall k: nat | Sampled(n, k)
        ensures source[k] == source'[k]
      {
        var at := if k < first then k else first + k - last;
        assert both[at] == source[k] && both'[at] == source'[k];
      }
    }
    if forall k: nat | Sampled(n, k) :: source[k] == source'[k] {
      assert forall k | 0 <= k < first :: Sampled(n, k);
      assert forall k | last <= k < n :: Sampled(n, k);
      assert FirstSample(source) == FirstSample(source') && LastSample(source) == LastSample(source');
    }
  }

  lemma FingerprintFields(tag: seq<Byte>, name: seq<Byte>, time: nat, source: seq<Byte>,
                          name': seq<Byte>, time': nat, source': seq<Byte>)
    requires Safe(time) && Safe(|source|) && Safe(time') && Safe(|source'|) && 0 !in name && 0 !in name'
    requires FingerprintPreimage(tag, name, time, source) == FingerprintPreimage(tag, name', time', source')
    ensures name == name' && time == time' && |source| == |source'|
    ensures FirstSample(source) + LastSample(source) == FirstSample(source') + LastSample(source')
  {
    var s, t, b := Uint64(|source|).value, Uint64(time).value, FirstSample(source) + LastSample(source);
    var s', t', b' := Uint64(|source'|).value, Uint64(time').value, FirstSample(source') + LastSample(source');
    SplitAt(tag, name + [0] + (s + (t + b)), tag, name' + [0] + (s' + (t' + b')));
    SplitAtFirst(name, s + (t + b), name', s' + (t' + b'), 0);
    SplitAt(s, t + b, s', t' + b');
    SplitAt(t, b, t', b');
    Uint64Injective(|source|, |source'|);
    Uint64Injective(time, time');
  }

  lemma SplitAt<T>(a: seq<T>, b: seq<T>, a': seq<T>, b': seq<T>)
    requires |a| == |a'| && a + b == a' + b'
    ensures a == a' && b == b'
  {
    assert a == (a + b)[..|a|] && a' == (a' + b')[..|a|];
    assert b == (a + b)[|a|..] && b' == (a' + b')[|a|..];
  }
}
