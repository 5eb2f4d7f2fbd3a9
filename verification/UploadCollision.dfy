/** Two uploads registered under one name: both find the registered path free when they
    finalize, and the second rename replaces the first file. */
module UploadCollision {
  import opened Basics
  import opened CommitLedger
  import opened UploadMachine
  import opened UploadInvariant
  import opened UploadBytes
  import opened UploadRuns
  import opened UploadScenes

  const FIRST: ItemId := "a"
  const SECOND: ItemId := "b"

  /** One byte, one checkpoint. */
  function Part(i: ItemId, body: seq<Byte>): Checkpoint {
    Checkpoint(0, 1, 1, Sha256(body), CheckpointKey(i, 0, 1, Sha256(body)), body)
  }

  /** The segments of such an upload up to its digest, numbered. */
  function StageAt(body: seq<Byte>, k: nat): Stage {
    match k
    case 0 => Admitted
    case 1 => Writing(0)
    case 2 => Writing(1)
    case 3 => Written
    case 4 => Synced
    case 5 => Committed
    case 6 => Trimmed
    case 7 => Finalizing
    case _ => Hashed(Sha256(body))
  }

  function FileAt(body: seq<Byte>, k: nat): File {
    if k == 0 then Absent else if k == 1 then Present([], 0) else Present(body, if k < 4 then 0 else 1)
  }

  function LedgerAt(i: ItemId, body: seq<Byte>, k: nat): Ledger {
    if k < 5 then map[] else map[Part(i, body).key := Commit(0, 1, Sha256(body), 0)]
  }

  function ItemAt(i: ItemId, body: seq<Byte>, k: nat): Item {
    Item(if k < 5 then FreshRow() else FullRow(), LedgerAt(i, body, k), FileAt(body, k), 0)
  }

  function RequestAt(i: ItemId, body: seq<Byte>, stage: Stage, row: Row): Request {
    Request(i, Upload(Part(i, body)), row, stage)
  }

  function NumberedRequest(i: ItemId, body: seq<Byte>, k: nat): Request {
    RequestAt(i, body, StageAt(body, k), ItemAt(i, body, k).row)
  }

  function EventAt(k: nat): Event {
    if k == 1 then Write(1) else Proceed
  }

  predicate StepsTo(i: ItemId, x: Item, dir: Dir, q: Request, e: Event, x': Item, dir': Dir, q': Option<Request>) {
    CanStep(x, dir, q, e) && Step(i, x, dir, q, e, 0) == Effect(x', dir', q')
  }

  lemma WritingSteps(i: ItemId, body: seq<Byte>, k: nat, dir: Dir)
    requires |body| == 1 && k < 4
    ensures StepsTo(i, ItemAt(i, body, k), dir, NumberedRequest(i, body, k), EventAt(k),
                    ItemAt(i, body, k + 1), dir, Some(NumberedRequest(i, body, k + 1)))
  {
    assert [] + body[0..1] == body;
  }

  lemma CommittingSteps(i: ItemId, body: seq<Byte>, k: nat, dir: Dir)
    requires |body| == 1 && 4 <= k < 8
    ensures StepsTo(i, ItemAt(i, body, k), dir, NumberedRequest(i, body, k), EventAt(k),
                    ItemAt(i, body, k + 1), dir, Some(NumberedRequest(i, body, k + 1)))
  {
    SingleCommitStays(Part(i, body).key, Commit(0, 1, Sha256(body), 0));
  }

  lemma SingleCommitStays(key: Key, c: Commit)
    ensures Trim(map[key := c], MAX_COMMITS_PER_ITEM) == map[key := c]
  {
    assert forall k | k in map[key := c] :: Above(map[key := c], k) == {};
  }

  lemma UploadSteps(i: ItemId, body: seq<Byte>, k: nat, dir: Dir)
    requires |body| == 1 && k < 8
    ensures StepsTo(i, ItemAt(i, body, k), dir, NumberedRequest(i, body, k), EventAt(k),
                    ItemAt(i, body, k + 1), dir, Some(NumberedRequest(i, body, k + 1)))
  {
    if k < 4 {
      WritingSteps(i, body, k, dir);
    } else {
      CommittingSteps(i, body, k, dir);
    }
  }

  /* ------------------------- both uploads together ----------------------- */

  function Flight(q: Option<Request>, t: Option<Request>): map<RequestId, Request> {
    (if q.Some? then map[0 := q.value] else map[]) + (if t.Some? then map[1 := t.value] else map[])
  }

  function Held(q: Option<Request>, t: Option<Request>): set<ItemId> {
    (if q.Some? then {FIRST} else {}) + (if t.Some? then {SECOND} else {})
  }

  function Both(x: Item, q: Option<Request>, y: Item, t: Option<Request>, dir: Dir): State {
    State(Serving, map[FIRST := x, SECOND := y], dir, Flight(q, t), Held(q, t), 1)
  }

  lemma FirstInFlight(q: Request, q': Option<Request>, t: Option<Request>)
    ensures 0 in Flight(Some(q), t) && Flight(Some(q), t)[0] == q
    ensures Flight(q', t) == if q'.Some? then Flight(Some(q), t)[0 := q'.value] else Flight(Some(q), t) - {0}
    ensures Held(q', t) == if q'.Some? then Held(Some(q), t) else Held(Some(q), t) - {FIRST}
  {
  }

  lemma SecondInFlight(q: Option<Request>, t: Request, t': Option<Request>)
    ensures 1 in Flight(q, Some(t)) && Flight(q, Some(t))[1] == t
    ensures Flight(q, t') == if t'.Some? then Flight(q, Some(t))[1 := t'.value] else Flight(q, Some(t)) - {1}
    ensures Held(q, t') == if t'.Some? then Held(q, Some(t)) else Held(q, Some(t)) - {SECOND}
  {
  }

  lemma FirstMoves(x: Item, q: Request, y: Item, t: Option<Request>, dir: Dir, e: Event,
                   x': Item, q': Option<Request>, dir': Dir)
    requires q.item == FIRST && q.job.Upload? && StepsTo(FIRST, x, dir, q, e, x', dir', q')
    ensures Leads(Both(x, Some(q), y, t, dir), Advance(0, e, 0), Both(x', q', y, t, dir'))
  {
    FirstInFlight(q, q', t);
    assert map[FIRST := x, SECOND := y][FIRST := x'] == map[FIRST := x', SECOND := y];
    assert Moved(Both(x, Some(q), y, t, dir), 0, Effect(x', dir', q')) == Both(x', q', y, t, dir');
  }

  lemma SecondMoves(x: Item, q: Option<Request>, y: Item, t: Request, dir: Dir, e: Event,
                    y': Item, t': Option<Request>, dir': Dir)
    requires t.item == SECOND && t.job.Upload? && StepsTo(SECOND, y, dir, t, e, y', dir', t')
    ensures Leads(Both(x, q, y, Some(t), dir), Advance(1, e, 0), Both(x, q, y', t', dir'))
  {
    SecondInFlight(q, t, t');
    assert map[FIRST := x, SECOND := y][SECOND := y'] == map[FIRST := x, SECOND := y'];
    assert Moved(Both(x, q, y, Some(t), dir), 1, Effect(y', dir', t')) == Both(x, q, y', t', dir');
  }

  function HashedItem(i: ItemId, body: seq<Byte>): Item {
    ItemAt(i, body, 8)
  }

  /** Renamed, with the row not yet updated. */
  function RenamedItem(i: ItemId, body: seq<Byte>): Item {
    HashedItem(i, body).(partial := Absent)
  }

  function ReadyItem(i: ItemId, body: seq<Byte>): Item {
    RenamedItem(i, body).(row := ReadyRow(FullRow(), Sha256(body), A_PATH), acked := 1)
  }

  function Holding(i: ItemId, body: seq<Byte>): Dir {
    map[A_PATH := Entry(body, 1, Published(i))]
  }

  /** Request of item `i` in one of the last stages. */
  function Late(i: ItemId, body: seq<Byte>, stage: Stage): Option<Request> {
    Some(RequestAt(i, body, stage, FullRow()))
  }

  function Collision(k: nat): State {
    if k <= 4 then Arriving(k)
    else if k <= 12 then
      Both(ItemAt(FIRST, MINE, k - 4), Some(NumberedRequest(FIRST, MINE, k - 4)),
           ItemAt(SECOND, OTHERS, 0), Some(NumberedRequest(SECOND, OTHERS, 0)), map[])
    else if k <= 20 then
      Both(ItemAt(FIRST, MINE, 8), Some(NumberedRequest(FIRST, MINE, 8)),
           ItemAt(SECOND, OTHERS, k - 12), Some(NumberedRequest(SECOND, OTHERS, k - 12)), map[])
    else Replacing(k)
  }

  function Arriving(k: nat): State {
    match k
    case 0 => Initial(1)
    case 1 => State(Serving, map[FIRST := ItemAt(FIRST, MINE, 0)], map[], map[], {}, 1)
    case 2 => Both(ItemAt(FIRST, MINE, 0), None, ItemAt(SECOND, OTHERS, 0), None, map[])
    case 3 => Both(ItemAt(FIRST, MINE, 0), Some(NumberedRequest(FIRST, MINE, 0)),
                   ItemAt(SECOND, OTHERS, 0), None, map[])
    case _ => Both(ItemAt(FIRST, MINE, 0), Some(NumberedRequest(FIRST, MINE, 0)),
                   ItemAt(SECOND, OTHERS, 0), Some(NumberedRequest(SECOND, OTHERS, 0)), map[])
  }

  function Replacing(k: nat): State {
    var a, b := Sha256(MINE), Sha256(OTHERS);
    var x, y := HashedItem(FIRST, MINE), HashedItem(SECOND, OTHERS);
    match k
    case 21 => Both(x, Late(FIRST, MINE, Named(a, A_PATH)), y, Late(SECOND, OTHERS, Hashed(b)), map[])
    case 22 => Both(x, Late(FIRST, MINE, Named(a, A_PATH)), y, Late(SECOND, OTHERS, Named(b, A_PATH)), map[])
    case 23 => Both(RenamedItem(FIRST, MINE), Late(FIRST, MINE, Renamed(a, A_PATH)),
                    y, Late(SECOND, OTHERS, Named(b, A_PATH)), Holding(FIRST, MINE))
    case 24 => Both(ReadyItem(FIRST, MINE), None, y, Late(SECOND, OTHERS, Named(b, A_PATH)), Holding(FIRST, MINE))
    case 25 => Both(ReadyItem(FIRST, MINE), None,
                    RenamedItem(SECOND, OTHERS), Late(SECOND, OTHERS, Renamed(b, A_PATH)), Holding(SECOND, OTHERS))
    case _ => Both(ReadyItem(FIRST, MINE), None, ReadyItem(SECOND, OTHERS), None, Holding(SECOND, OTHERS))
  }

  function CollisionStep(k: nat): Label {
    match k
    case 0 => Register(FIRST, 1, A_PATH)
    case 1 => Register(SECOND, 1, A_PATH)
    case 2 => Receive(0, FIRST, Part(FIRST, MINE))
    case 3 => Receive(1, SECOND, Part(SECOND, OTHERS))
    case 20 => Advance(0, Target(A_PATH), 0)
    case 21 => Advance(1, Target(A_PATH), 0)
    case 22 => Advance(0, Proceed, 0)
    case 23 => Advance(0, Proceed, 0)
    case 24 => Advance(1, Proceed, 0)
    case 25 => Advance(1, Proceed, 0)
    case _ => if k < 12 then Advance(0, EventAt(k - 4), 0) else Advance(1, EventAt(k - 12), 0)
  }

  lemma BothRegister(k: nat)
    requires k < 2
    ensures Leads(Collision(k), CollisionStep(k), Collision(k + 1))
  {
  }

  lemma FirstArrives()
    ensures Leads(Collision(2), CollisionStep(2), Collision(3))
  {
    assert Judge(Collision(2), FIRST, Part(FIRST, MINE)).Accepted?;
  }

  lemma SecondArrives()
    ensures Leads(Collision(3), CollisionStep(3), Collision(4))
  {
    assert Judge(Collision(3), SECOND, Part(SECOND, OTHERS)).Accepted?;
  }

  lemma FirstUploads(k: nat)
    requires 4 <= k < 12
    ensures Leads(Collision(k), CollisionStep(k), Collision(k + 1))
  {
    var n := k - 4;
    UploadSteps(FIRST, MINE, n, map[]);
    FirstMoves(ItemAt(FIRST, MINE, n), NumberedRequest(FIRST, MINE, n), ItemAt(SECOND, OTHERS, 0),
               Some(NumberedRequest(SECOND, OTHERS, 0)), map[], EventAt(n),
               ItemAt(FIRST, MINE, n + 1), Some(NumberedRequest(FIRST, MINE, n + 1)), map[]);
  }

  lemma SecondUploads(k: nat)
    requires 12 <= k < 20
    ensures Leads(Collision(k), CollisionStep(k), Collision(k + 1))
  {
    var n := k - 12;
    UploadSteps(SECOND, OTHERS, n, map[]);
    SecondMoves(ItemAt(FIRST, MINE, 8), Some(NumberedRequest(FIRST, MINE, 8)), ItemAt(SECOND, OTHERS, n),
                NumberedRequest(SECOND, OTHERS, n), map[], EventAt(n),
                ItemAt(SECOND, OTHERS, n + 1), Some(NumberedRequest(SECOND, OTHERS, n + 1)), map[]);
  }

  lemma BothChoose(k: nat)
    requires 20 <= k < 22
    ensures Leads(Collision(k), CollisionStep(k), Collision(k + 1))
  {
    var a, b := Sha256(MINE), Sha256(OTHERS);
    var x, y := HashedItem(FIRST, MINE), HashedItem(SECOND, OTHERS);
    if k == 20 {
      FirstMoves(x, NumberedRequest(FIRST, MINE, 8), y, Some(NumberedRequest(SECOND, OTHERS, 8)), map[], Target(A_PATH),
                 x, Late(FIRST, MINE, Named(a, A_PATH)), map[]);
    } else {
      SecondMoves(x, Late(FIRST, MINE, Named(a, A_PATH)), y,
                  Late(SECOND, OTHERS, Hashed(b)).value, map[], Target(A_PATH),
                  y, Late(SECOND, OTHERS, Named(b, A_PATH)), map[]);
    }
  }

  lemma FirstPublishes(k: nat)
    requires 22 <= k < 24
    ensures Leads(Collision(k), CollisionStep(k), Collision(k + 1))
  {
    var a, b := Sha256(MINE), Sha256(OTHERS);
    var y, t := HashedItem(SECOND, OTHERS), Late(SECOND, OTHERS, Named(b, A_PATH));
    if k == 22 {
      FirstMoves(HashedItem(FIRST, MINE), Late(FIRST, MINE, Named(a, A_PATH)).value, y, t, map[], Proceed,
                 RenamedItem(FIRST, MINE), Late(FIRST, MINE, Renamed(a, A_PATH)), Holding(FIRST, MINE));
    } else {
      FirstMoves(RenamedItem(FIRST, MINE),
                 Late(FIRST, MINE, Renamed(a, A_PATH)).value, y, t, Holding(FIRST, MINE), Proceed,
                 ReadyItem(FIRST, MINE), None, Holding(FIRST, MINE));
    }
  }

  lemma SecondReplaces(k: nat)
    requires 24 <= k < 26
    ensures Leads(Collision(k), CollisionStep(k), Collision(k + 1))
  {
    var b, x := Sha256(OTHERS), ReadyItem(FIRST, MINE);
    if k == 24 {
      assert Holding(FIRST, MINE)[A_PATH := Entry(OTHERS, 1, Published(SECOND))] == Holding(SECOND, OTHERS);
      SecondMoves(x, None, HashedItem(SECOND, OTHERS), Late(SECOND, OTHERS, Named(b, A_PATH)).value,
                  Holding(FIRST, MINE), Proceed,
                  RenamedItem(SECOND, OTHERS), Late(SECOND, OTHERS, Renamed(b, A_PATH)), Holding(SECOND, OTHERS));
    } else {
      SecondMoves(x, None, RenamedItem(SECOND, OTHERS), Late(SECOND, OTHERS, Renamed(b, A_PATH)).value,
                  Holding(SECOND, OTHERS), Proceed, ReadyItem(SECOND, OTHERS), None, Holding(SECOND, OTHERS));
    }
  }

  lemma CollisionLeads(k: nat)
    requires k < 26
    ensures Leads(Collision(k), CollisionStep(k), Collision(k + 1))
  {
    if k < 2 {
      BothRegister(k);
    } else if k == 2 {
      FirstArrives();
    } else if k == 3 {
      SecondArrives();
    } else if k < 12 {
      FirstUploads(k);
    } else if k < 20 {
      SecondUploads(k);
    } else if k < 22 {
      BothChoose(k);
    } else if k < 24 {
      FirstPublishes(k);
    } else {
      SecondReplaces(k);
    }
  }

  /** No foreign file, no damage, no crash, no cancellation. */
  predicate OnlyServing(run: Run) {
    forall l | l in run.labels :: l.Register? || l.Receive? || l.Advance?
  }

  /** Two uploads of one byte each are registered under the same name and finalize at the same
      time.  The first becomes ready and is acknowledged, and its file is there; then the
      second is renamed to the same path.  In the end both are ready under that path, the
      first still with its own digest, and no file holds the first one's byte. */
  lemma ReadyFileReplaced() returns (run: Run)
    ensures FromStart(run) && |run.labels| == 26 && OnlyServing(run)
    ensures var s := run.states[24];
      && FIRST in s.items && s.items[FIRST].row.state.Ready? && s.items[FIRST].acked == 1
      && s.items[FIRST].row.sha256 == Some(Sha256(MINE)) && s.items[FIRST].row.finalPath == A_PATH
      && A_PATH in s.dir && s.dir[A_PATH].bytes == MINE
    ensures var s := run.states[26];
      && FIRST in s.items && s.items[FIRST] == run.states[24].items[FIRST]
      && SECOND in s.items && s.items[SECOND].row.state.Ready? && s.items[SECOND].row.finalPath == A_PATH
      && A_PATH in s.dir && s.dir[A_PATH].bytes == OTHERS
      && forall p | p in s.dir :: s.dir[p].bytes != MINE
  {
    run := Run(seq(27, k requires 0 <= k => Collision(k)), seq(26, k requires 0 <= k => CollisionStep(k)));
    forall k | 0 <= k < 26
      ensures StepAt(run, k)
    {
      CollisionLeads(k);
    }
    forall l | l in run.labels
      ensures l.Register? || l.Receive? || l.Advance?
    {
      var k :| 0 <= k < 26 && l == CollisionStep(k);
    }
  }
}
