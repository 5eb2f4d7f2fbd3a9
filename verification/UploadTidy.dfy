/** When the hypothesis about destination paths holds by itself: it is enough that nobody uses
    a registered path again, neither another registration nor a file from outside. */
module UploadTidy {
  import opened Basics
  import opened CommitLedger
  import opened UploadMachine
  import opened UploadInvariant
  import opened UploadBytes
  import opened UploadRuns

  predicate IsRegistered(s: State, path: Path) {
    exists i :: i in s.items && s.items[i].row.finalPath == path
  }

  /** The two inputs that could bring a second file to a path, checked before the call. */
  predicate Tidy(s: State, l: Label) {
    match l
    case Register(_, _, path) => !IsRegistered(s, path)
    case ForeignFile(path, _) => !IsRegistered(s, path)
    case _ => true
  }

  ghost predicate TidyAt(run: Run, k: nat)
    requires k < |run.labels| && k < |run.states|
  {
    Tidy(run.states[k], run.labels[k])
  }

  ghost predicate TidyRun(run: Run) {
    FromStart(run) && forall k {:trigger TidyAt(run, k)} | 0 <= k < |run.labels| :: TidyAt(run, k)
  }

  /** Every registered path holds nothing, or the file of its one item. */
  ghost predicate Separate(s: State) {
    && (forall i, j | i in s.items && j in s.items && i != j :: s.items[i].row.finalPath != s.items[j].row.finalPath)
    && (forall i | i in s.items :: OnlyOwn(s, i))
  }

  predicate OnlyOwn(s: State, i: ItemId)
    requires i in s.items
  {
    var path := s.items[i].row.finalPath;
    path in s.dir ==> s.dir[path].origin == Published(i)
  }

  ghost predicate AllSound(s: State) {
    forall i | i in s.items :: Sound(s, i)
  }

  /** The directory has changed at `path` at most, where item `i` has put its file. */
  ghost predicate AddsOwnFile(i: ItemId, path: Path, dir: Dir, dir': Dir) {
    && dir.Keys <= dir'.Keys
    && (forall p | p in dir && p != path :: dir'[p] == dir[p])
    && (forall p | p in dir' && p !in dir :: p == path)
    && (path in dir' && !(path in dir && dir'[path] == dir[path]) ==> dir'[path].origin == Published(i))
  }

  lemma SegmentAddsOwn(i: ItemId, item: Item, dir: Dir, q: Request, e: Event, now: int)
    requires ItemOk(i, item) && RequestOk(i, item, q) && BytesOk(i, item, dir)
    requires CanStep(item, dir, q, e) && RequestBytesOk(i, item, dir, q)
    ensures AddsOwnFile(i, item.row.finalPath, dir, Step(i, item, dir, q, e, now).dir)
  {
  }

  lemma AdvanceAdds(s: State, r: RequestId, e: Event, now: int)
    requires Inv(s) && Enabled(s, Advance(r, e, now))
    requires var i := s.requests[r].item; Sound(s, i) && Quiet(s, i)
    ensures var i, s' := s.requests[r].item, AfterAdvance(s, r, e, now);
      && s'.items.Keys == s.items.Keys
      && (forall j | j in s.items :: s'.items[j].row.finalPath == s.items[j].row.finalPath)
      && AddsOwnFile(i, s.items[i].row.finalPath, s.dir, s'.dir)
  {
    var q := s.requests[r];
    var f := Step(q.item, s.items[q.item], s.dir, q, e, now);
    assert RequestOk(q.item, s.items[q.item], q) && RequestBytesOk(q.item, s.items[q.item], s.dir, q);
    SegmentKeepsPath(q.item, s.items[q.item], s.dir, q, e, now);
    SegmentItems(s, r, e, now);
    MovedPaths(s, r, f);
  }

  lemma SegmentKeepsPath(i: ItemId, item: Item, dir: Dir, q: Request, e: Event, now: int)
    requires ItemOk(i, item) && RequestOk(i, item, q) && BytesOk(i, item, dir) && Undisturbed(i, item.row, dir)
    requires CanStep(item, dir, q, e) && RequestBytesOk(i, item, dir, q)
    ensures var f := Step(i, item, dir, q, e, now);
      f.item.row.finalPath == item.row.finalPath && AddsOwnFile(i, item.row.finalPath, dir, f.dir)
  {
    StepBytes(i, item, dir, q, e, now);
    SegmentAddsOwn(i, item, dir, q, e, now);
  }

  lemma MovedPaths(s: State, r: RequestId, f: Effect)
    requires r in s.requests && s.requests[r].item in s.items
    requires var i := s.requests[r].item;
      f.item.row.finalPath == s.items[i].row.finalPath && AddsOwnFile(i, s.items[i].row.finalPath, s.dir, f.dir)
    ensures var i, s' := s.requests[r].item, Moved(s, r, f);
      && s'.items.Keys == s.items.Keys && s'.dir == f.dir
      && (forall j | j in s.items :: s'.items[j].row.finalPath == s.items[j].row.finalPath)
  {
  }

  lemma AdvanceSeparate(s: State, r: RequestId, e: Event, now: int)
    requires Inv(s) && Enabled(s, Advance(r, e, now)) && Separate(s)
    requires Sound(s, s.requests[r].item)
    ensures Separate(AfterAdvance(s, r, e, now))
  {
    OnlyOwnIsUndisturbed(s, s.requests[r].item);
    AdvanceAdds(s, r, e, now);
    StaysSeparate(s, AfterAdvance(s, r, e, now), s.requests[r].item);
  }

  lemma OnlyOwnIsUndisturbed(s: State, i: ItemId)
    requires i in s.items && OnlyOwn(s, i)
    ensures Quiet(s, i)
  {
  }

  /** If paths stay and only item `i` gets a file, at its own path, paths stay separate. */
  lemma StaysSeparate(s: State, s': State, i: ItemId)
    requires Separate(s) && i in s.items && s'.items.Keys == s.items.Keys
    requires forall j | j in s.items :: s'.items[j].row.finalPath == s.items[j].row.finalPath
    requires AddsOwnFile(i, s.items[i].row.finalPath, s.dir, s'.dir)
    ensures Separate(s')
  {
    forall j | j in s'.items
      ensures OnlyOwn(s', j)
    {
      assert OnlyOwn(s, j);
    }
  }

  lemma RegisterSeparate(s: State, i: ItemId, size: nat, path: Path)
    requires Separate(s) && Enabled(s, Register(i, size, path)) && !IsRegistered(s, path)
    ensures Separate(Apply(s, Register(i, size, path)))
  {
    var s' := Apply(s, Register(i, size, path));
    forall j | j in s'.items
      ensures OnlyOwn(s', j)
    {
      assert j != i ==> OnlyOwn(s, j);
    }
  }

  lemma ForeignSeparate(s: State, path: Path, bytes: seq<Byte>)
    requires Separate(s) && !IsRegistered(s, path)
    ensures Separate(s.(dir := s.dir[path := Entry(bytes, 0, Foreign)]))
  {
    var s' := s.(dir := s.dir[path := Entry(bytes, 0, Foreign)]);
    forall j | j in s'.items
      ensures OnlyOwn(s', j)
    {
      assert OnlyOwn(s, j);
    }
  }

  lemma OtherSeparate(s: State, l: Label)
    requires Inv(s) && Separate(s) && Enabled(s, l)
    requires !l.Advance? && !l.Register? && !l.ForeignFile?
    ensures Separate(Apply(s, l))
  {
    var s' := Apply(s, l);
    ItemsStay(s, l);
    SameEntries(s, l);
    forall j | j in s'.items
      ensures OnlyOwn(s', j) && s'.items[j].row.finalPath == s.items[j].row.finalPath
    {
      LabelKeeps(s, l, j);
      assert OnlyOwn(s, j);
    }
  }

  lemma SameEntries(s: State, l: Label)
    requires Enabled(s, l) && !l.Advance? && !l.Register? && !l.ForeignFile?
    ensures Apply(s, l).dir.Keys == s.dir.Keys
    ensures forall p | p in s.dir :: Apply(s, l).dir[p].origin == s.dir[p].origin
  {
    match l
    case Crash(keep, keepDir) => assert SurvivingDir(s.dir, keepDir).Keys == s.dir.Keys;
    case _ =>
  }

  lemma StepSeparate(s: State, l: Label)
    requires Inv(s) && Separate(s) && AllSound(s) && Enabled(s, l) && Tidy(s, l)
    ensures Separate(Apply(s, l))
  {
    match l
    case Advance(r, e, now) => AdvanceSeparate(s, r, e, now);
    case Register(i, size, path) => RegisterSeparate(s, i, size, path);
    case ForeignFile(path, bytes) => ForeignSeparate(s, path, bytes);
    case _ => OtherSeparate(s, l);
  }

  lemma StepAllSound(s: State, l: Label)
    requires Inv(s) && Separate(s) && AllSound(s) && Enabled(s, l) && Separate(Apply(s, l))
    ensures AllSound(Apply(s, l))
  {
    var s' := Apply(s, l);
    ItemsStay(s, l);
    forall i | i in s'.items
      ensures Sound(s', i)
    {
      OnlyOwnIsUndisturbed(s', i);
      if i in s.items {
        OnlyOwnIsUndisturbed(s, i);
        StepRefines(s, l, i);
      } else {
        RegisteredSound(s, i, l.size, l.path);
      }
    }
  }

  /** If no registration and no file from outside uses a path that is already registered, then
      in every reachable state every item is undisturbed and sound, through damage, crashes
      and recoveries.  What is proved about quiet runs then follows from the inputs alone. */
  lemma {:induction false} TidyStatesAreSound(run: Run, k: nat)
    requires TidyRun(run) && k < |run.states|
    ensures Separate(run.states[k]) && AllSound(run.states[k])
  {
    if k > 0 {
      TidyStatesAreSound(run, k - 1);
      assert StepAt(run, k - 1) && TidyAt(run, k - 1);
      ReachableInv(run, k - 1);
      StepSeparate(run.states[k - 1], run.labels[k - 1]);
      StepAllSound(run.states[k - 1], run.labels[k - 1]);
    }
  }

  lemma TidyRunsAreQuiet(run: Run, i: ItemId)
    requires TidyRun(run)
    ensures QuietThroughout(run, i)
  {
    forall k | 0 <= k < |run.states| && i in run.states[k].items
      ensures Quiet(run.states[k], i)
    {
      TidyStatesAreSound(run, k);
      OnlyOwnIsUndisturbed(run.states[k], i);
    }
  }
}
