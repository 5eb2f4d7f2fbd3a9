/** Two complete runs in which an acknowledged upload goes wrong although no partial file is
    damaged: the hypotheses about the destination path are needed. */
module UploadScenes {
  import opened Basics
  import opened CommitLedger
  import opened UploadMachine
  import opened UploadInvariant
  import opened UploadBytes
  import opened UploadRuns

  const A_PATH: Path := "f"
  const B_PATH: Path := "f (1)"
  const MINE: seq<Byte> := [7]
  const OTHERS: seq<Byte> := [9]
  const LONGER: seq<Byte> := [9, 9]

  function OneByte(): Checkpoint {
    Checkpoint(0, 1, 1, Sha256(MINE), CheckpointKey("a", 0, 1, Sha256(MINE)), MINE)
  }

  function FreshRow(): Row {
    Row(1, 0, Pending, true, A_PATH, None)
  }

  function FullRow(): Row {
    FreshRow().(confirmed := 1, state := Transferring)
  }

  function OneCommit(): Ledger {
    map[OneByte().key := Commit(0, 1, OneByte().checksum, 0)]
  }

  /** Serving the upload of item "a" (with request 0 at `stage`). */
  function Uploading(row: Row, partial: File, ledger: Ledger, acked: nat, stage: Stage, dir: Dir): State {
    State(Serving, map["a" := Item(row, ledger, partial, acked)], dir,
          map[0 := Request("a", Upload(OneByte()), row, stage)], {"a"}, 1)
  }

  /** After the crash, with the service on its way up. */
  function Restarting(mode: Mode, row: Row, ledger: Ledger, partial: File, dir: Dir,
                      requests: map<RequestId, Request>): State {
    State(mode, map["a" := Item(row, ledger, partial, 1)], dir, requests, {}, 1)
  }

  function AtWork(row: Row, stage: Stage): map<RequestId, Request> {
    map[0 := Request("a", Recover(false), row, stage)]
  }

  /* ------------------ both runs: one byte, committed and acknowledged ---- */

  function Opening(k: nat): State {
    match k
    case 0 => Initial(1)
    case 1 => State(Serving, map["a" := Item(FreshRow(), map[], Absent, 0)], map[], map[], {}, 1)
    case 2 => Uploading(FreshRow(), Absent, map[], 0, Admitted, map[])
    case 3 => Uploading(FreshRow(), Present([], 0), map[], 0, Writing(0), map[])
    case 4 => Uploading(FreshRow(), Present(MINE, 0), map[], 0, Writing(1), map[])
    case 5 => Uploading(FreshRow(), Present(MINE, 0), map[], 0, Written, map[])
    case 6 => Uploading(FreshRow(), Present(MINE, 1), map[], 0, Synced, map[])
    case 7 => Uploading(FullRow(), Present(MINE, 1), OneCommit(), 0, Committed, map[])
    case _ => Uploading(FullRow(), Present(MINE, 1), OneCommit(), 1, Committed, map[])
  }

  function OpeningStep(k: nat): Label {
    match k
    case 0 => Register("a", 1, A_PATH)
    case 1 => Receive(0, "a", OneByte())
    case 3 => Advance(0, Write(1), 0)
    case 7 => Head("a")
    case _ => Advance(0, Proceed, 0)
  }

  ghost predicate Leads(s: State, l: Label, s': State) {
    Enabled(s, l) && s' == Apply(s, l)
  }

  predicate Advances(s: State, e: Event, s': State) {
    && "a" in s.items && 0 in s.requests && !s.mode.Down? && s.requests[0].item == "a"
    && CanStep(s.items["a"], s.dir, s.requests[0], e)
    && Moved(s, 0, Step("a", s.items["a"], s.dir, s.requests[0], e, 0)) == s'
  }

  lemma AdvanceLeads(s: State, e: Event, s': State)
    requires Advances(s, e, s')
    ensures Leads(s, Advance(0, e, 0), s')
  {
  }

  lemma OpeningBegins(k: nat)
    requires k < 3
    ensures Leads(Opening(k), OpeningStep(k), Opening(k + 1))
  {
    match k
    case 0 =>
    case 1 =>
      assert Judge(Opening(1), "a", OneByte()).Accepted?;
    case 2 =>
      AdvanceLeads(Opening(2), Proceed, Opening(3));
  }

  lemma OpeningWrites(k: nat)
    requires 3 <= k < 6
    ensures Leads(Opening(k), OpeningStep(k), Opening(k + 1))
  {
    match k
    case 3 =>
      assert [] + MINE[0..1] == MINE;
      AdvanceLeads(Opening(3), Write(1), Opening(4));
    case 4 =>
      AdvanceLeads(Opening(4), Proceed, Opening(5));
    case 5 =>
      AdvanceLeads(Opening(5), Proceed, Opening(6));
  }

  lemma OpeningCommits(k: nat)
    requires 6 <= k < 8
    ensures Leads(Opening(k), OpeningStep(k), Opening(k + 1))
  {
    match k
    case 6 =>
      AdvanceLeads(Opening(6), Proceed, Opening(7));
    case 7 =>
  }

  lemma OpeningLeads(k: nat)
    requires k < 8
    ensures Leads(Opening(k), OpeningStep(k), Opening(k + 1))
  {
    if k < 3 {
      OpeningBegins(k);
    } else if k < 6 {
      OpeningWrites(k);
    } else {
      OpeningCommits(k);
    }
  }

  lemma CrashedItem(x: Item, keep: nat)
    requires x.partial.Present? ==> x.partial.synced <= keep == |x.partial.bytes|
    ensures CanKeep(map["a" := x], map["a" := keep])
    ensures SurvivingItems(map["a" := x], map["a" := keep])
         == map["a" := x.(partial := if x.partial.Present? then Present(x.partial.bytes, keep) else Absent)]
  {
    assert x.partial.Present? ==> x.partial.bytes[..keep] == x.partial.bytes;
  }

  lemma CrashLeads(s: State, keep: nat, keepDir: map<Path, nat>, dir: Dir)
    requires "a" in s.items && s.items == map["a" := s.items["a"]]
    requires CanKeepDir(s.dir, keepDir) && SurvivingDir(s.dir, keepDir) == dir
    requires var f := s.items["a"].partial; f.Present? ==> f.synced <= keep == |f.bytes|
    ensures var f := s.items["a"].partial;
      Leads(s, Crash(map["a" := keep], keepDir),
            State(Down, map["a" := s.items["a"].(partial := if f.Present? then Present(f.bytes, keep) else Absent)],
                  dir, map[], {}, s.chunkLimit))
  {
    CrashedItem(s.items["a"], keep);
  }

  lemma BootLeads(s: State)
    requires s.mode.Down? && s.items.Keys == {"a"} && Unfinished(s.items["a"].row)
    ensures Leads(s, Boot, s.(mode := Recovering({"a"})))
  {
    assert (set i | i in s.items && Unfinished(s.items[i].row)) == {"a"};
  }

  /* ------------------------- another file is adopted --------------------- */

  const OTHERS_DIR: Dir := map[A_PATH := Entry(OTHERS, 1, Foreign)]

  function Adopted(k: nat): State {
    if k <= 8 then Opening(k) else
    match k
    case 9 => Uploading(FullRow(), Present(MINE, 1), OneCommit(), 1, Committed,
                         map[A_PATH := Entry(OTHERS, 0, Foreign)])
    case 10 => Restarting(Down, FullRow(), OneCommit(), Present(MINE, 1), OTHERS_DIR, map[])
    case 11 => Restarting(Recovering({"a"}), FullRow(), OneCommit(), Present(MINE, 1), OTHERS_DIR, map[])
    case 12 => Restarting(Recovering({"a"}), FullRow(), OneCommit(), Present(MINE, 1),
                          OTHERS_DIR, AtWork(FullRow(), Probing))
    case 13 => Restarting(Recovering({"a"}), FullRow(), OneCommit(), Present(MINE, 1),
                          OTHERS_DIR, AtWork(FullRow(), Adopting))
    case 14 => Restarting(Recovering({}), ReadyRow(FullRow(), Sha256(OTHERS), A_PATH), OneCommit(), Present(MINE, 1),
                          OTHERS_DIR, map[])
    case _ => Restarting(Serving, ReadyRow(FullRow(), Sha256(OTHERS), A_PATH), OneCommit(), Present(MINE, 1),
                         OTHERS_DIR, map[])
  }

  function AdoptedStep(k: nat): Label {
    if k < 8 then OpeningStep(k) else
    match k
    case 8 => ForeignFile(A_PATH, OTHERS)
    case 9 => Crash(map["a" := 1], map[A_PATH := 1])
    case 10 => Boot
    case 11 => Reopen(0, "a")
    case 14 => Open
    case _ => Advance(0, Proceed, 0)
  }

  lemma AdoptedRestarts(k: nat)
    requires 8 <= k < 12
    ensures Leads(Adopted(k), AdoptedStep(k), Adopted(k + 1))
  {
    match k
    case 8 =>
    case 9 =>
      assert OTHERS[..1] == OTHERS;
      CrashLeads(Adopted(9), 1, map[A_PATH := 1], OTHERS_DIR);
    case 10 =>
      BootLeads(Adopted(10));
    case 11 =>
  }

  lemma AdoptedProbes()
    ensures Leads(Adopted(12), AdoptedStep(12), Adopted(13))
  {
    AdvanceLeads(Adopted(12), Proceed, Adopted(13));
  }

  lemma AdoptedAdopts()
    ensures Leads(Adopted(13), AdoptedStep(13), Adopted(14))
  {
    assert Adopted(13).requests - {0} == map[] && {"a"} - {"a"} == {};
    AdvanceLeads(Adopted(13), Proceed, Adopted(14));
  }

  lemma AdoptedOpens()
    ensures Leads(Adopted(14), AdoptedStep(14), Adopted(15))
  {
  }

  /** A one-byte upload is committed and its offset acknowledged; a file of one byte appears at
      its destination; the service restarts and publishes that file instead. */
  lemma AcknowledgedByteReplaced() returns (run: Run)
    ensures FromStart(run) && Undamaged(run, "a") && |run.labels| == 15
    ensures "a" in run.states[8].items && run.states[8].items["a"].acked == 1 && Bytes(run.states[8], "a") == MINE
    ensures var s := run.states[15];
            && s.mode.Serving? && "a" in s.items && s.items["a"].row.state.Ready?
            && s.items["a"].row.finalPath in s.dir && s.dir[s.items["a"].row.finalPath].bytes == OTHERS
  {
    run := Run(seq(16, k requires 0 <= k => Adopted(k)), seq(15, k requires 0 <= k => AdoptedStep(k)));
    forall k | 0 <= k < 15
      ensures StepAt(run, k)
    {
      if k < 8 {
        OpeningLeads(k);
      } else if k < 12 {
        AdoptedRestarts(k);
      } else if k == 12 {
        AdoptedProbes();
      } else if k == 13 {
        AdoptedAdopts();
      } else {
        AdoptedOpens();
      }
    }
  }

  /* --------------------- the renamed file is forgotten ------------------- */

  const LONGER_DIR: Dir := map[A_PATH := Entry(LONGER, 0, Foreign)]
  const BOTH_DIR: Dir := map[A_PATH := Entry(LONGER, 0, Foreign), B_PATH := Entry(MINE, 1, Published("a"))]
  const KEPT_DIR: Dir := map[A_PATH := Entry(LONGER, 2, Foreign), B_PATH := Entry(MINE, 1, Published("a"))]

  function Forgotten(k: nat): State {
    if k <= 8 then Opening(k) else if k <= 14 then Renaming(k) else Returning(k)
  }

  function Renaming(k: nat): State {
    match k
    case 9 => Uploading(FullRow(), Present(MINE, 1), OneCommit(), 1, Committed, LONGER_DIR)
    case 10 => Uploading(FullRow(), Present(MINE, 1), OneCommit(), 1, Trimmed, LONGER_DIR)
    case 11 => Uploading(FullRow(), Present(MINE, 1), OneCommit(), 1, Finalizing, LONGER_DIR)
    case 12 => Uploading(FullRow(), Present(MINE, 1), OneCommit(), 1, Hashed(Sha256(MINE)), LONGER_DIR)
    case 13 => Uploading(FullRow(), Present(MINE, 1), OneCommit(), 1, Named(Sha256(MINE), B_PATH), LONGER_DIR)
    case _ => Uploading(FullRow(), Absent, OneCommit(), 1, Renamed(Sha256(MINE), B_PATH), BOTH_DIR)
  }

  function Returning(k: nat): State {
    match k
    case 15 => Restarting(Down, FullRow(), OneCommit(), Absent, KEPT_DIR, map[])
    case 16 => Restarting(Recovering({"a"}), FullRow(), OneCommit(), Absent, KEPT_DIR, map[])
    case 17 => Restarting(Recovering({"a"}), FullRow(), OneCommit(), Absent, KEPT_DIR, AtWork(FullRow(), Probing))
    case 18 => Restarting(Recovering({"a"}), FullRow(), OneCommit(), Absent,
                          KEPT_DIR, AtWork(FullRow(), CheckingPartial))
    case 19 => Restarting(Recovering({"a"}), FullRow(), OneCommit(), Absent, KEPT_DIR, AtWork(FullRow(), Inspecting))
    case 20 => Restarting(Recovering({"a"}), FullRow(), map[], Absent, KEPT_DIR, AtWork(FullRow(), Reconciling(0)))
    case 21 => Restarting(Recovering({}), FreshRow(), map[], Absent, KEPT_DIR, map[])
    case _ => Restarting(Serving, FreshRow(), map[], Absent, KEPT_DIR, map[])
  }

  function ForgottenStep(k: nat): Label {
    if k < 8 then OpeningStep(k) else
    match k
    case 8 => ForeignFile(A_PATH, LONGER)
    case 12 => Advance(0, Target(B_PATH), 0)
    case 14 => Crash(map["a" := 0], map[A_PATH := 2, B_PATH := 1])
    case 15 => Boot
    case 16 => Reopen(0, "a")
    case 21 => Open
    case _ => Advance(0, Proceed, 0)
  }

  lemma OneCommitStays()
    ensures Trim(OneCommit(), MAX_COMMITS_PER_ITEM) == OneCommit()
    ensures RewindTo(OneCommit(), 0) == map[]
  {
    assert forall k | k in OneCommit() :: Above(OneCommit(), k) == {};
  }

  lemma ForgottenMeetsFile()
    ensures Leads(Forgotten(8), ForgottenStep(8), Forgotten(9))
  {
  }

  lemma ForgottenTrims()
    ensures Leads(Forgotten(9), ForgottenStep(9), Forgotten(10))
  {
    OneCommitStays();
    AdvanceLeads(Forgotten(9), Proceed, Forgotten(10));
  }

  lemma ForgottenFinalizes()
    ensures Leads(Forgotten(10), ForgottenStep(10), Forgotten(11))
  {
    AdvanceLeads(Forgotten(10), Proceed, Forgotten(11));
  }

  lemma ForgottenHashes()
    ensures Leads(Forgotten(11), ForgottenStep(11), Forgotten(12))
  {
    AdvanceLeads(Forgotten(11), Proceed, Forgotten(12));
  }

  lemma ForgottenNames()
    ensures Leads(Forgotten(12), ForgottenStep(12), Forgotten(13))
  {
    AdvanceLeads(Forgotten(12), Target(B_PATH), Forgotten(13));
  }

  lemma ForgottenRenames()
    ensures Leads(Forgotten(13), ForgottenStep(13), Forgotten(14))
  {
    assert LONGER_DIR[B_PATH := Entry(MINE, 1, Published("a"))] == BOTH_DIR;
    AdvanceLeads(Forgotten(13), Proceed, Forgotten(14));
  }

  lemma ForgottenRestarts(k: nat)
    requires 14 <= k < 17
    ensures Leads(Forgotten(k), ForgottenStep(k), Forgotten(k + 1))
  {
    match k
    case 14 =>
      var keepDir := map[A_PATH := 2, B_PATH := 1];
      assert LONGER[..2] == LONGER && MINE[..1] == MINE;
      assert SurvivingDir(BOTH_DIR, keepDir) == KEPT_DIR;
      CrashLeads(Forgotten(14), 0, keepDir, KEPT_DIR);
    case 15 =>
      BootLeads(Forgotten(15));
    case 16 =>
  }

  lemma ForgottenProbes()
    ensures Leads(Forgotten(17), ForgottenStep(17), Forgotten(18))
  {
    AdvanceLeads(Forgotten(17), Proceed, Forgotten(18));
  }

  lemma ForgottenDeclines()
    ensures Leads(Forgotten(18), ForgottenStep(18), Forgotten(19))
  {
    AdvanceLeads(Forgotten(18), Proceed, Forgotten(19));
  }

  lemma ForgottenRewinds()
    ensures Leads(Forgotten(19), ForgottenStep(19), Forgotten(20))
  {
    OneCommitStays();
    AdvanceLeads(Forgotten(19), Proceed, Forgotten(20));
  }

  lemma ForgottenEnds(k: nat)
    requires 20 <= k < 22
    ensures Leads(Forgotten(k), ForgottenStep(k), Forgotten(k + 1))
  {
    match k
    case 20 =>
      assert Forgotten(20).requests - {0} == map[] && {"a"} - {"a"} == {};
      AdvanceLeads(Forgotten(20), Proceed, Forgotten(21));
    case 21 =>
  }

  /** The registered path is taken by a longer file, so a complete and acknowledged upload is
      renamed to a free variant of its name; a crash before the row update makes recovery
      start it again from nothing, while the whole file lies under the other name. */
  lemma AcknowledgedFileForgotten() returns (run: Run)
    ensures FromStart(run) && Undamaged(run, "a") && |run.labels| == 22
    ensures "a" in run.states[8].items && run.states[8].items["a"].acked == 1 && Bytes(run.states[8], "a") == MINE
    ensures var s := run.states[14];
            && 0 in s.requests && s.requests[0].stage == Renamed(Sha256(MINE), B_PATH) && run.labels[14].Crash?
            && "a" in s.items && s.items["a"].row.finalPath == A_PATH != B_PATH
    ensures var s := run.states[22];
            && s.mode.Serving? && "a" in s.items && s.items["a"].row.confirmed == 0 && s.items["a"].row.state.Pending?
            && s.items["a"].ledger == map[] && s.items["a"].partial.Absent?
            && B_PATH in s.dir && s.dir[B_PATH] == Entry(MINE, 1, Published("a"))
  {
    run := Run(seq(23, k requires 0 <= k => Forgotten(k)), seq(22, k requires 0 <= k => ForgottenStep(k)));
    forall k | 0 <= k < 22
      ensures StepAt(run, k)
    {
      ForgottenLeads(k);
    }
  }

  lemma ForgottenLeads(k: nat)
    requires k < 22
    ensures Leads(Forgotten(k), ForgottenStep(k), Forgotten(k + 1))
  {
    if k < 8 {
      OpeningLeads(k);
    } else if k == 8 {
      ForgottenMeetsFile();
    } else if k == 9 {
      ForgottenTrims();
    } else if k < 14 {
      ForgottenPublishes(k);
    } else if k < 17 {
      ForgottenRestarts(k);
    } else if k < 20 {
      ForgottenSettles(k);
    } else {
      ForgottenEnds(k);
    }
  }

  lemma ForgottenPublishes(k: nat)
    requires 10 <= k < 14
    ensures Leads(Forgotten(k), ForgottenStep(k), Forgotten(k + 1))
  {
    if k == 10 {
      ForgottenFinalizes();
    } else if k == 11 {
      ForgottenHashes();
    } else if k == 12 {
      ForgottenNames();
    } else {
      ForgottenRenames();
    }
  }

  lemma ForgottenSettles(k: nat)
    requires 17 <= k < 20
    ensures Leads(Forgotten(k), ForgottenStep(k), Forgotten(k + 1))
  {
    if k == 17 {
      ForgottenProbes();
    } else if k == 18 {
      ForgottenDeclines();
    } else {
      ForgottenRewinds();
    }
  }
}
