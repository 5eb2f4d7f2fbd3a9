/** The `upload_commits` rows of one item, and the four ways the repository changes them. */
module CommitLedger {
  import opened Basics

  type ItemId = string

  /** An idempotency key binds item, offset, length and checksum.  That the real pre-image
      determines these fields is `Encodings.KeyPreimageInjective`. */
  datatype Key = CheckpointKey(item: ItemId, start: nat, length: nat, checksum: Digest) | OtherKey(text: string)

  datatype Commit = Commit(start: nat, end: nat, checksum: Digest, createdAt: int)

  type Ledger = map<Key, Commit>

  /** deleteUploadCommitsAfter */
  function RewindTo(l: Ledger, offset: nat): Ledger {
    map k | k in l && l[k].end <= offset :: l[k]
  }

  /** deleteUploadCommitsBefore */
  function DropBefore(l: Ledger, cutoff: int): Ledger {
    map k | k in l && cutoff <= l[k].createdAt :: l[k]
  }

  /** ORDER BY end_offset DESC, created_at DESC */
  predicate Outranks(a: Commit, b: Commit) {
    a.end > b.end || (a.end == b.end && a.createdAt > b.createdAt)
  }

  function Above(l: Ledger, k: Key): set<Key>
    requires k in l
  {
    set j | j in l && Outranks(l[j], l[k])
  }

  /** trimUploadCommits: a row survives exactly when fewer than `keep` rows outrank it. */
  function Trim(l: Ledger, keep: nat): Ledger {
    map k | k in l && |Above(l, k)| < keep :: l[k]
  }

  /** Every record of `a` is a record of `b`. */
  predicate SubLedger(a: Ledger, b: Ledger) {
    forall k | k in a :: k in b && a[k] == b[k]
  }

  /** Exactly the records that end at or below `offset` are left, as they were. */
  ghost predicate KeptWithin(before: Ledger, after: Ledger, offset: nat) {
    && SubLedger(after, before)
    && (forall k | k in before :: k in after <==> before[k].end <= offset)
  }

  /** Exactly the records that are not older than `cutoff` are left, as they were. */
  ghost predicate KeptSince(before: Ledger, after: Ledger, cutoff: int) {
    && SubLedger(after, before)
    && (forall k | k in before :: k in after <==> before[k].createdAt >= cutoff)
  }

  predicate Apart(a: Commit, b: Commit) {
    a.end <= b.start || b.end <= a.start
  }

  /** Every interval is non-empty and inside [0, bound], and no two overlap. */
  ghost predicate WellFormed(l: Ledger, bound: nat) {
    && (forall k | k in l :: l[k].start < l[k].end <= bound)
    && (forall j, k | j in l && k in l && j != k :: Apart(l[j], l[k]))
  }

  /** Every interval but the last is followed at once by another one. */
  ghost predicate Consecutive(l: Ledger, bound: nat) {
    forall k {:trigger Followed(l, k, bound)} | k in l :: Followed(l, k, bound)
  }

  ghost predicate Followed(l: Ledger, k: Key, bound: nat)
    requires k in l
  {
    l[k].end == bound || exists j :: j in l && l[j].start == l[k].end
  }

  lemma CommitKeepsLedger(l: Ledger, k: Key, c: Commit)
    requires WellFormed(l, c.start) && c.start < c.end
    ensures WellFormed(l[k := c], c.end)
    ensures Consecutive(l, c.start) && k !in l ==> Consecutive(l[k := c], c.end)
  {
    var l' := l[k := c];
    if Consecutive(l, c.start) && k !in l {
      forall i | i in l'
        ensures Followed(l', i, c.end)
      {
        if i != k {
          assert Followed(l, i, c.start);
          if l[i].end == c.start {
            assert k in l' && l'[k].start == l'[i].end;
          } else {
            var j :| j in l && l[j].start == l[i].end;
            assert j in l' && l'[j].start == l'[i].end;
          }
        }
      }
    }
  }

  lemma DeletionKeepsLedger(l: Ledger, offset: nat, cutoff: int, keep: nat, bound: nat)
    requires WellFormed(l, bound)
    ensures WellFormed(RewindTo(l, offset), Min(offset, bound))
    ensures WellFormed(DropBefore(l, cutoff), bound)
    ensures WellFormed(Trim(l, keep), bound)
  {
  }

  /** Distinct rows of a well-formed ledger end at distinct offsets, so the order has no ties. */
  lemma DistinctEnds(l: Ledger, bound: nat, j: Key, k: Key)
    requires WellFormed(l, bound) && j in l && k in l && j != k
    ensures l[j].end != l[k].end
  {
    assert Apart(l[j], l[k]);
  }

  lemma {:induction false} HighestRow(l: Ledger, bound: nat) returns (top: Key)
    requires WellFormed(l, bound) && l != map[]
    ensures top in l && forall k | k in l && k != top :: l[k].end < l[top].end
    decreases |l|
  {
    top :| top in l;
    var rest := l - {top};
    assert forall k | k in rest :: k in l && rest[k] == l[k];
    if rest != map[] {
      var other := HighestRow(rest, bound);
      DistinctEnds(l, bound, top, other);
      if l[top].end < l[other].end {
        top := other;
      }
    } else {
      assert forall k | k in l :: k == top || k in rest;
    }
  }

  /** Removing the highest row from the ledger leaves the others outranked by one row fewer. */
  lemma AboveWithoutTop(l: Ledger, bound: nat, top: Key, k: Key)
    requires WellFormed(l, bound) && top in l && k in l && k != top
    requires forall j | j in l && j != top :: l[j].end < l[top].end
    ensures |Above(l, k)| == 1 + |Above(l - {top}, k)|
  {
    var rest := l - {top};
    assert Above(l, k) == {top} + Above(rest, k);
    assert top !in Above(rest, k);
  }

  lemma TrimPeelsTop(l: Ledger, bound: nat, top: Key, keep: nat)
    requires WellFormed(l, bound) && top in l && keep > 0
    requires forall j | j in l && j != top :: l[j].end < l[top].end
    ensures |Trim(l, keep)| == 1 + |Trim(l - {top}, keep - 1)|
  {
    var rest := l - {top};
    assert Above(l, top) == {};
    forall k | k in rest
      ensures k in Trim(l, keep) <==> k in Trim(rest, keep - 1)
    {
      AboveWithoutTop(l, bound, top, k);
    }
    assert Trim(l, keep).Keys == {top} + Trim(rest, keep - 1).Keys;
    assert top !in Trim(rest, keep - 1).Keys;
  }

  lemma NothingKept(l: Ledger, keep: nat)
    requires l == map[] || keep == 0
    ensures Trim(l, keep) == map[]
  {
  }

  lemma WithoutRow(l: Ledger, bound: nat, k: Key)
    requires WellFormed(l, bound) && k in l
    ensures WellFormed(l - {k}, bound) && |l - {k}| == |l| - 1
  {
    assert (l - {k}).Keys == l.Keys - {k};
  }

  lemma TrimSizeStep(l: Ledger, bound: nat, top: Key, keep: nat)
    requires WellFormed(l, bound) && top in l && keep > 0
    requires forall j | j in l && j != top :: l[j].end < l[top].end
    requires |Trim(l - {top}, keep - 1)| == Min(keep - 1, |l - {top}|)
    ensures |Trim(l, keep)| == Min(keep, |l|)
  {
    WithoutRow(l, bound, top);
    TrimPeelsTop(l, bound, top, keep);
  }

  lemma {:induction false} TrimSize(l: Ledger, bound: nat, keep: nat)
    requires WellFormed(l, bound)
    ensures |Trim(l, keep)| == Min(keep, |l|)
    decreases |l|
  {
    if l == map[] || keep == 0 {
      NothingKept(l, keep);
    } else {
      var top := HighestRow(l, bound);
      WithoutRow(l, bound, top);
      TrimSize(l - {top}, bound, keep - 1);
      TrimSizeStep(l, bound, top, keep);
    }
  }

  /** Trimming keeps exactly the `keep` highest end offsets, and no hole appears between
      the rows that stay. */
  lemma TrimKeepsHighest(l: Ledger, bound: nat, keep: nat)
    requires WellFormed(l, bound)
    ensures |Trim(l, keep)| == Min(keep, |l|)
    ensures forall j, k | j in Trim(l, keep) && k in l && k !in Trim(l, keep) :: l[k].end < l[j].end
    ensures Consecutive(l, bound) ==> Consecutive(Trim(l, keep), bound)
  {
    TrimSize(l, bound, keep);
    var t := Trim(l, keep);
    forall j, k | j in t && k in l && l[j].end <= l[k].end
      ensures k in t
    {
      if j != k {
        DistinctEnds(l, bound, j, k);
        HigherRowsRankHigher(l, j, k);
      }
    }
    if Consecutive(l, bound) {
      forall k | k in t
        ensures Followed(t, k, bound)
      {
        assert Followed(l, k, bound);
        if l[k].end != bound {
          var j :| j in l && l[j].start == l[k].end;
          HigherRowsRankHigher(l, k, j);
          assert j in t && t[j].start == t[k].end;
        }
      }
    }
  }

  lemma HigherRowsRankHigher(l: Ledger, low: Key, high: Key)
    requires low in l && high in l && l[low].end < l[high].end
    ensures |Above(l, high)| < |Above(l, low)|
  {
    assert Above(l, high) + {high} <= Above(l, low);
    assert high !in Above(l, high);
    SubsetSize(Above(l, high) + {high}, Above(l, low));
  }

  /** With commit times that grow with the offset, ageing removes only the lowest rows. */
  lemma AgeingKeepsTail(l: Ledger, bound: nat, cutoff: int)
    requires WellFormed(l, bound) && Consecutive(l, bound)
    requires forall j, k | j in l && k in l && l[j].end <= l[k].start :: l[j].createdAt <= l[k].createdAt
    ensures KeptSince(l, DropBefore(l, cutoff), cutoff) && Consecutive(DropBefore(l, cutoff), bound)
  {
    var t := DropBefore(l, cutoff);
    forall k | k in t
      ensures Followed(t, k, bound)
    {
      assert Followed(l, k, bound);
      if l[k].end != bound {
        var j :| j in l && l[j].start == l[k].end;
        assert j in t && t[j].start == t[k].end;
      }
    }
  }

  /** A rewind leaves the ledger without a hole exactly when it lands on a commit boundary. */
  lemma RewindOnBoundary(l: Ledger, bound: nat, offset: nat)
    requires WellFormed(l, bound) && Consecutive(l, bound) && offset <= bound
    ensures KeptWithin(l, RewindTo(l, offset), offset)
    ensures Consecutive(RewindTo(l, offset), offset)
       <==> RewindTo(l, offset) == map[] || exists k :: k in l && l[k].end == offset
  {
    var t := RewindTo(l, offset);
    if t != map[] && Consecutive(t, offset) {
      DeletionKeepsLedger(l, offset, 0, 0, bound);
      var top := HighestRow(t, offset);
      assert forall j | j in t :: t[j].start < t[j].end <= t[top].end;
      assert Followed(t, top, offset);
      assert top in l && l[top].end == offset;
    }
    if e :| e in l && l[e].end == offset {
      forall k | k in t
        ensures Followed(t, k, offset)
      {
        assert Followed(l, k, bound);
        if l[k].end != offset {
          var j :| j in l && l[j].start == l[k].end;
          assert j == e || Apart(l[j], l[e]);
          assert j in t && t[j].start == t[k].end;
        }
      }
    }
  }
}
