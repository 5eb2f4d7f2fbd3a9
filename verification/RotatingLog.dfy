/** The service log: appended line by line, rotated by renaming, bounded in files and bytes. */
module RotatingLog {
  import opened Basics

  type Line = seq<Byte>

  const LINE_LIMIT := 32 * 1024
  const NEWLINE: Byte := 10
  const OVERSIZED := "{\"time\":\"1970-01-01T00:00:00.000Z\",\"level\":\"warn\",\"event\":\"oversized-log-entry\"}"

  function Ascii(text: string): (bytes: seq<Byte>)
    ensures |bytes| == |text|
  {
    seq(|text|, k requires 0 <= k < |text| => var b: Byte := text[k] as int % 128; b)
  }

  /** boundedJsonLine: a record that is too long is replaced by a fixed short one. */
  function BoundedLine(serialized: seq<Byte>): (line: Line)
    ensures 0 < |line| <= LINE_LIMIT + 1
    ensures |serialized| <= 32_768 ==> line == serialized + [10]
    ensures |serialized| > 32_768 ==> line == Ascii(OVERSIZED) + [10]
  {
    if |serialized| <= LINE_LIMIT then serialized + [NEWLINE] else Ascii(OVERSIZED) + [NEWLINE]
  }

  function FileBytes(lines: seq<Line>): nat {
    if lines == [] then 0 else FileBytes(lines[..|lines| - 1]) + |lines[|lines| - 1]|
  }

  /** A generation is the content of one log file over its whole life. */
  type Generations = seq<seq<Line>>

  /** A file that does not exist reads like an empty one. */
  type File = Option<seq<Line>>

  function Content(file: File): seq<Line> {
    if file.Some? then file.value else []
  }

  /** What a reader finds who concatenates the files from the highest index down to 0. */
  function ReadAll(files: seq<File>): seq<Line> {
    if files == [] then [] else Content(files[|files| - 1]) + ReadAll(files[..|files| - 1])
  }

  lemma {:induction false} FlattenConcat(a: Generations, b: Generations)
    ensures Flatten(a + b) == Flatten(a) + Flatten(b)
  {
    if b == [] {
      assert a + b == a;
    } else {
      var front := b[..|b| - 1];
      assert (a + b)[..|a + b| - 1] == a + front;
      FlattenConcat(a, front);
    }
  }

  lemma {:induction false} FlattenFirst(generations: Generations)
    requires generations != []
    ensures Flatten(generations) == generations[0] + Flatten(generations[1..])
  {
    assert generations == [generations[0]] + generations[1..];
    FlattenConcat([generations[0]], generations[1..]);
    assert Flatten([generations[0]]) == generations[0];
  }

  /** The generation that file `i` holds: the i-th from the end. */
  function GenerationAt(generations: Generations, i: nat): seq<Line> {
    if i < |generations| then generations[|generations| - 1 - i] else []
  }

  predicate Shelved(files: seq<File>, generations: Generations) {
    forall i | 0 <= i < |files| :: Content(files[i]) == GenerationAt(generations, i)
  }

  lemma {:induction false} ReadShelved(files: seq<File>, generations: Generations)
    requires Shelved(files, generations)
    ensures ReadAll(files) == Flatten(Newest(generations, |files|))
  {
    var count := |files|;
    if count > 0 {
      ReadShelved(files[..count - 1], generations);
      if count <= |generations| {
        var tail := Newest(generations, count);
        FlattenFirst(tail);
        assert tail[1..] == Newest(generations, count - 1);
      }
    }
  }

  /** The files, read oldest to newest, are a contiguous suffix of everything ever written. */
  lemma RetainedIsSuffix(files: seq<File>, generations: Generations)
    requires Shelved(files, generations)
    ensures exists older :: Flatten(generations) == older + ReadAll(files)
    ensures |generations| <= |files| ==> ReadAll(files) == Flatten(generations)
  {
    ReadShelved(files, generations);
    var kept := Newest(generations, |files|);
    var dropped := generations[..|generations| - |kept|];
    assert generations == dropped + kept;
    FlattenConcat(dropped, kept);
  }

  /** Moving every file up by one and starting an empty generation. */
  lemma RotatedIsShelved(files: seq<File>, generations: Generations)
    requires Shelved(files, generations) && files != []
    ensures Shelved([None] + files[..|files| - 1], generations + [[]])
  {
  }

  lemma AppendedIsShelved(files: seq<File>, generations: Generations, line: Line)
    requires Shelved(files, generations) && files != [] && generations != []
    ensures var last := generations[|generations| - 1] + [line];
            Shelved(files[0 := Some(Content(files[0]) + [line])], generations[..|generations| - 1] + [last])
  {
    assert Content(files[0]) == GenerationAt(generations, 0);
  }

  /** Every generation is within the bound, and was closed only for a line that did not fit. */
  ghost predicate Rotated(generations: Generations, maxBytes: nat) {
    && (forall g | g in generations :: FileBytes(g) <= Bound(maxBytes))
    && (forall n {:trigger generations[n + 1]} | 0 <= n < |generations| - 1 && generations[n + 1] != [] ::
          FileBytes(generations[n]) + |generations[n + 1][0]| > maxBytes)
  }

  function Bound(maxBytes: nat): nat {
    if maxBytes < LINE_LIMIT + 1 then LINE_LIMIT + 1 else maxBytes
  }

  /** What the files and the counter hold between two lines. */
  ghost predicate Keeps(files: seq<File>, generations: Generations, bytes: nat, maxFiles: nat, maxBytes: nat) {
    && 0 < maxFiles == |files| && generations != [] && Shelved(files, generations)
    && if maxFiles == 1 then |generations| == 1
       else
         && Rotated(generations, maxBytes) && bytes == FileBytes(generations[|generations| - 1])
         && (|generations| > 1 ==> generations[|generations| - 1] != [])
  }

  /** The next line may be appended as it is. */
  ghost predicate Takes(files: seq<File>, generations: Generations, bytes: nat, maxFiles: nat, maxBytes: nat,
                        line: Line)
  {
    && 0 < maxFiles == |files| && generations != [] && Shelved(files, generations)
    && if maxFiles == 1 then |generations| == 1
       else Rotated(WithLine(generations, line), maxBytes) && bytes == FileBytes(generations[|generations| - 1])
  }

  class RotatingJsonLog {
    const maxBytes: nat
    const maxFiles: nat
    var files: seq<File>  // 0 is service.jsonl, i is service.jsonl.i
    var currentBytes: nat
    ghost var generations: Generations

    ghost predicate Valid()
      reads this
    {
      Keeps(files, generations, currentBytes, maxFiles, maxBytes)
    }

    constructor (maxBytes: nat, maxFiles: nat)
      requires 0 < maxBytes && 0 < maxFiles
      ensures Valid() && generations == [[]] && forall f | f in files :: f.None?
    {
      this.maxBytes, this.maxFiles := maxBytes, maxFiles;
      files, currentBytes, generations := seq(maxFiles, _ => None), 0, [[]];
    }

    /** A new process looks at the size of the current file. */
    method Initialize()
      requires Valid()
      modifies this`currentBytes
      ensures Valid() && currentBytes == FileBytes(Content(files[0]))
    {
      assert Content(files[0]) == GenerationAt(generations, 0);
      currentBytes := FileBytes(Content(files[0]));
    }

    /** The descending loop of renames; a missing source leaves its destination missing. */
    method Rotate()
      requires 0 < maxFiles == |files|
      modifies this`files, this`currentBytes
      ensures currentBytes == 0
      ensures files == if maxFiles == 1 then old(files) else [None] + old(files)[..maxFiles - 1]
    {
      var index := maxFiles - 1;
      while index >= 1
        invariant 0 <= index < maxFiles == |files|
        invariant files[..index] == old(files)[..index]
        invariant files[index + 1..] == old(files)[index..maxFiles - 1]
        invariant files[index] == if index == maxFiles - 1 then old(files)[index] else None
      {
        ghost var above := files[index + 1..];
        files := files[index := files[index - 1]][index - 1 := None];
        assert files[index..] == [old(files)[index - 1]] + above;
        assert old(files)[index - 1..maxFiles - 1] == [old(files)[index - 1]] + old(files)[index..maxFiles - 1];
        index := index - 1;
      }
      currentBytes := 0;
    }

    ghost predicate HasRoom(line: Line)
      reads this
    {
      Takes(files, generations, currentBytes, maxFiles, maxBytes, line)
    }

    method MakeRoom(line: Line)
      requires Valid() && |line| <= LINE_LIMIT + 1
      modifies this
      ensures HasRoom(line) && Flatten(generations) == Flatten(old(generations))
      ensures var full := old(currentBytes) > 0 && old(currentBytes) + |line| > maxBytes;
        && currentBytes == (if full then 0 else old(currentBytes))
        && files == if full && maxFiles > 1 then [None] + old(files)[..maxFiles - 1] else old(files)
    {
      if currentBytes > 0 && currentBytes + |line| > maxBytes {
        Rotate();
        if maxFiles > 1 {
          NewGeneration(old(files), generations, old(currentBytes), maxFiles, maxBytes, line);
          generations := generations + [[]];
        }
      } else {
        SameGeneration(files, generations, currentBytes, maxFiles, maxBytes, line);
      }
    }

    /** One line joins the log.  With two or more files, nothing but whole old generations is
        ever dropped, and every file stays within the bound. */
    method Append(serialized: seq<Byte>)
      requires Valid()
      modifies this
      ensures Valid() && Flatten(generations) == Flatten(old(generations)) + [BoundedLine(serialized)]
      // the files move up when the line would make the current one too long, and never an empty one
      ensures var line := BoundedLine(serialized);
        var full := old(currentBytes) > 0 && old(currentBytes) + |line| > maxBytes;
        && currentBytes == (if full then 0 else old(currentBytes)) + |line|
        && files == if full && maxFiles > 1 then [Some([line])] + old(files)[..maxFiles - 1]
                    else old(files)[0 := Some(Content(old(files)[0]) + [line])]
    {
      var line := BoundedLine(serialized);
      FirstOfNewFile(files, line);
      MakeRoom(line);
      AddLine(line);
    }

    method AddLine(line: Line)
      requires HasRoom(line)
      modifies this
      ensures Valid() && generations == WithLine(old(generations), line)
      ensures files == old(files)[0 := Some(Content(old(files)[0]) + [line])]
      ensures currentBytes == old(currentBytes) + |line|
    {
      AppendedIsShelved(files, generations, line);
      WithLineBytes(generations, line);
      files := files[0 := Some(Content(files[0]) + [line])];
      currentBytes := currentBytes + |line|;
      generations := WithLine(generations, line);
    }
  }

  /** After the files have moved up. */
  lemma NewGeneration(files: seq<File>, generations: Generations, bytes: nat, maxFiles: nat, maxBytes: nat, line: Line)
    requires Keeps(files, generations, bytes, maxFiles, maxBytes) && maxFiles > 1
    requires |line| <= LINE_LIMIT + 1 && bytes + |line| > maxBytes
    ensures Takes([None] + files[..maxFiles - 1], generations + [[]], 0, maxFiles, maxBytes, line)
    ensures Flatten(generations + [[]]) == Flatten(generations)
  {
    RotatedIsShelved(files, generations);
    NextGeneration(generations, line, maxBytes);
    FlattenConcat(generations, [[]]);
  }

  lemma SameGeneration(files: seq<File>, generations: Generations, bytes: nat, maxFiles: nat, maxBytes: nat, line: Line)
    requires Keeps(files, generations, bytes, maxFiles, maxBytes)
    requires |line| <= LINE_LIMIT + 1 && (bytes == 0 || bytes + |line| <= maxBytes)
    ensures Takes(files, generations, bytes, maxFiles, maxBytes, line)
  {
    if maxFiles > 1 {
      LongerGeneration(generations, line, maxBytes);
    }
  }

  lemma FirstOfNewFile(files: seq<File>, line: Line)
    requires files != []
    ensures var moved := [None] + files[..|files| - 1];
            moved[0 := Some(Content(moved[0]) + [line])] == [Some([line])] + files[..|files| - 1]
  {
    var moved := [None] + files[..|files| - 1];
    assert Content(moved[0]) + [line] == [line];
    assert moved[1..] == files[..|files| - 1];
    assert moved[0 := Some([line])] == [Some([line])] + moved[1..];
  }

  lemma WithLineBytes(generations: Generations, line: Line)
    requires generations != []
    ensures var last := generations[|generations| - 1]; FileBytes(last + [line]) == FileBytes(last) + |line|
  {
  }

  ghost function WithLine(generations: Generations, line: Line): (longer: Generations)
    requires generations != []
    ensures Flatten(longer) == Flatten(generations) + [line]
  {
    generations[..|generations| - 1] + [generations[|generations| - 1] + [line]]
  }

  lemma LongerGeneration(generations: Generations, line: Line, maxBytes: nat)
    requires generations != [] && Rotated(generations, maxBytes) && |line| <= LINE_LIMIT + 1
    requires var bytes := FileBytes(generations[|generations| - 1]); bytes == 0 || bytes + |line| <= maxBytes
    requires |generations| > 1 ==> generations[|generations| - 1] != []
    ensures Rotated(WithLine(generations, line), maxBytes)
  {
  }

  lemma NextGeneration(generations: Generations, line: Line, maxBytes: nat)
    requires generations != [] && Rotated(generations, maxBytes) && |line| <= LINE_LIMIT + 1
    requires FileBytes(generations[|generations| - 1]) + |line| > maxBytes
    ensures Rotated(WithLine(generations + [[]], line), maxBytes)
  {
  }

  /** What the log promises: its files are bounded exactly when there are at least two of
      them; a single file is never moved away and holds every byte ever written. */
  lemma FilesAreBounded(log: RotatingJsonLog)
    requires log.Valid()
    ensures log.maxFiles > 1 ==> forall f | f in log.files :: FileBytes(Content(f)) <= Max(log.maxBytes, 32_769)
    ensures log.maxFiles == 1 ==> Content(log.files[0]) == Flatten(log.generations)
    ensures exists older :: Flatten(log.generations) == older + ReadAll(log.files)
  {
    RetainedIsSuffix(log.files, log.generations);
    forall i | 0 <= i < |log.files|
      ensures Content(log.files[i]) == GenerationAt(log.generations, i)
    {
    }
    if log.maxFiles == 1 {
      assert log.generations[..0] == [];
    }
  }
}
