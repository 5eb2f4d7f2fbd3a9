/** The sending loop of the browser against the upload machine, over a network that loses,
    corrupts and repeats, and a server that crashes and serves others in the meantime. */
module UploadClient {
  import opened Basics
  import opened CommitLedger
  import opened UploadMachine
  import opened UploadInvariant
  import opened UploadBytes
  import opened UploadRuns
  import opened UploadRequests
  import opened UploadEndToEnd
  import opened ChunkRanges

  const MAX_ATTEMPTS := 3

  lemma FairExtended(run: Run, l: Label, i: ItemId, source: seq<Byte>)
    requires FairRun(run, i, source) && Enabled(Last(run), l) && Fair(l, i, source)
    requires i in Last(run).items && Quiet(Apply(Last(run), l), i)
    ensures var longer := Extended(run, l); FairRun(longer, i, source) && i in Last(longer).items
  {
    var longer := Extended(run, l);
    assert longer.states == run.states + [Apply(Last(run), l)] && longer.labels == run.labels + [l];
    forall k | 0 <= k < |longer.states| && i in longer.states[k].items
      ensures Quiet(longer.states[k], i)
    {
      assert k < |run.states| ==> longer.states[k] == run.states[k];
    }
    assert StepAt(longer, |run.labels|);
    ReachableInv(run, |run.states| - 1);
    ItemsStay(Last(run), l);
  }

  /** While nobody damages the file, offsets do not fall. */
  lemma UndamagedExtended(run: Run, l: Label, i: ItemId, source: seq<Byte>)
    requires FairRun(run, i, source) && Enabled(Last(run), l) && Fair(l, i, source)
    requires i in Last(run).items && Quiet(Apply(Last(run), l), i)
    requires Undamaged(run, i) && !(l.Damage? && l.item == i)
    ensures var longer := Extended(run, l);
      && Undamaged(longer, i) && i in Last(longer).items
      && Last(run).items[i].row.confirmed <= Last(longer).items[i].row.confirmed
  {
    var longer := Extended(run, l);
    FairExtended(run, l, i, source);
    assert longer.states == run.states + [Apply(Last(run), l)] && longer.labels == run.labels + [l];
    OffsetStep(longer, i, |run.labels|);
  }

  /* ------------------------------- the link ------------------------------ */

  /** One request as the environment plays it: what the server does before the request
      arrives, which bytes arrive, what it does afterwards, whether the answer gets through,
      and whether the user presses pause meanwhile. */
  datatype Exchange = Exchange(
    before: seq<Label>, arrives: bool, request: RequestId, body: seq<Byte>,
    after: seq<Label>, answered: bool, pauses: bool)

  datatype Status = Status(offset: nat, state: ItemState)

  ghost predicate ReportedAt(run: Run, i: ItemId, status: Status, k: nat) {
    && k < |run.states| && i in run.states[k].items
    && run.states[k].items[i].row.confirmed == status.offset && run.states[k].items[i].row.state == status.state
  }

  /** At some moment of the run the stored row said so. */
  ghost predicate Reported(run: Run, i: ItemId, status: Status) {
    exists k :: ReportedAt(run, i, status, k)
  }

  ghost predicate RecordedAt(run: Run, i: ItemId, offset: nat, k: nat) {
    k < |run.states| && i in run.states[k].items && offset <= run.states[k].items[i].row.confirmed
  }

  /** At some moment of the run at least this offset was recorded. */
  ghost predicate Recorded(run: Run, i: ItemId, offset: nat) {
    exists k :: RecordedAt(run, i, offset, k)
  }

  lemma ReportedStays(a: Run, b: Run, i: ItemId, status: Status)
    requires Reported(a, i, status) && Continues(a, b)
    ensures Reported(b, i, status) && Recorded(b, i, status.offset)
  {
    var k :| ReportedAt(a, i, status, k);
    assert SameState(a, b, k);
    assert ReportedAt(b, i, status, k) && RecordedAt(b, i, status.offset, k);
  }

  lemma RecordedStays(a: Run, b: Run, i: ItemId, offset: nat)
    requires Recorded(a, i, offset) && Continues(a, b)
    ensures Recorded(b, i, offset)
  {
    var k :| RecordedAt(a, i, offset, k);
    assert SameState(a, b, k);
    assert RecordedAt(b, i, offset, k);
  }

  lemma RecordedFits(run: Run, i: ItemId, source: seq<Byte>, offset: nat)
    requires FairRun(run, i, source) && Recorded(run, i, offset)
    ensures offset <= |source|
  {
    var k :| RecordedAt(run, i, offset, k);
    ServerBytesAreSource(run, i, source, k);
  }

  ghost predicate WasCancelled(run: Run, i: ItemId) {
    exists offset :: Reported(run, i, Status(offset, Cancelled))
  }

  ghost predicate WasWholeAt(run: Run, i: ItemId, source: seq<Byte>, k: nat) {
    k < |run.states| && i in run.states[k].items && Bytes(run.states[k], i) == source
  }

  /** At some moment of the run the server had the whole source. */
  ghost predicate WasWhole(run: Run, i: ItemId, source: seq<Byte>) {
    exists k :: WasWholeAt(run, i, source, k)
  }

  lemma RecordedWhole(run: Run, i: ItemId, source: seq<Byte>)
    requires FairRun(run, i, source) && Recorded(run, i, |source|)
    ensures WasWhole(run, i, source)
  {
    var k :| RecordedAt(run, i, |source|, k);
    ServerBytesAreSource(run, i, source, k);
    var j := WholeWasThere(run, i, source, k);
    assert WasWholeAt(run, i, source, j);
  }

  /** One request of the sender and what came back. */
  datatype Contact = Sent(checkpoint: Checkpoint, offset: Option<nat>) | Asked(status: Option<Status>)

  class Network {
    const item: ItemId
    const source: seq<Byte>
    var server: State
    var script: seq<Exchange>
    var paused: bool
    ghost var history: Run
    ghost var undamaged: bool  // so far nobody has cut the item's partial file
    ghost var unanswered: nat  // requests without an answer
    ghost var contacts: seq<Contact>

    ghost predicate Valid()
      reads this
    {
      && FairRun(history, item, source) && Last(history) == server && item in server.items
      && (undamaged ==> Undamaged(history, item))
      && forall x | x in script :: Unforged(x.before) && Unforged(x.after)
    }

    /** The rest of the world does not offer other bytes for this upload. */
    predicate Unforged(labels: seq<Label>) {
      forall l | l in labels :: Fair(l, item, source)
    }

    ghost function Offset(): nat
      requires item in server.items
      reads this
    {
      server.items[item].row.confirmed
    }

    /** What every call keeps. */
    twostate predicate Onward()
      reads this
    {
      && Valid() && old(item in server.items) && Continues(old(history), history)
      && (undamaged ==> old(undamaged) && old(Offset()) <= Offset())
    }

    constructor (item: ItemId, source: seq<Byte>, ghost run: Run, server: State, script: seq<Exchange>)
      requires FairRun(run, item, source) && Last(run) == server && item in server.items
      requires forall x | x in script :: forall l | l in x.before + x.after :: Fair(l, item, source)
      ensures Valid() && this.item == item && this.source == source && this.server == server
      ensures undamaged <==> Undamaged(run, item)
      ensures contacts == []
    {
      this.item, this.source, this.server, this.script, this.paused := item, source, server, script, false;
      history, undamaged, unanswered, contacts := run, Undamaged(run, item), 0, [];
    }

    /** The server takes one step, unless it cannot or a foreign file would appear. */
    method Play(l: Label) returns (taken: bool)
      requires Valid() && Fair(l, item, source)
      modifies this`server, this`history, this`undamaged
      ensures Onward()
      ensures taken ==> Enabled(old(server), l) && server == Apply(old(server), l)
      ensures !taken ==> server == old(server)
    {
      taken := false;
      if Enabled(server, l) {
        var next := Apply(server, l);
        if Quiet(next, item) {
          FairExtended(history, l, item, source);
          if undamaged && !(l.Damage? && l.item == item) {
            UndamagedExtended(history, l, item, source);
          } else {
            undamaged := false;
          }
          history := Extended(history, l);
          server := next;
          taken := true;
        }
      }
    }

    method PlayAll(labels: seq<Label>)
      requires Valid() && Unforged(labels)
      modifies this`server, this`history, this`undamaged
      ensures Onward()
    {
      for k := 0 to |labels|
        invariant Onward()
      {
        ghost var before := history;
        var _ := Play(labels[k]);
        ContinuesTwice(old(history), before, history);
      }
    }

    /** What is known about an offset that an answer to checkpoint `c` carries. */
    ghost predicate Covered(c: Checkpoint, offset: nat)
      requires item in server.items
      reads this
    {
      && c.start + c.length <= offset && Recorded(history, item, offset)
      && (undamaged ==> offset <= Offset())
    }

    /** Plays one step and notes the answer if it belongs to request `r`. */
    method Watch(l: Label, r: RequestId, c: Checkpoint, watching: bool) returns (still: bool, reply: Option<nat>)
      requires Valid() && Fair(l, item, source) && c.start + c.length <= |source|
      requires watching ==> Handles(server, r, item, c) || l == Receive(r, item, c)
      modifies this`server, this`history, this`undamaged
      ensures Onward()
      ensures still ==> Handles(server, r, item, c)
      ensures reply.Some? ==> Covered(c, reply.value)
    {
      ghost var s, before := server, history;
      var answer := None;
      if watching && Enabled(server, l) && ((l.Advance? && l.request == r) || l == Receive(r, item, c)) {
        answer := Reply(server, l);
      }
      ServerFacts();
      var taken := Play(l);
      reply := if taken then answer else None;
      still := watching && r in server.requests;
      if taken {
        if still && l == Receive(r, item, c) {
          BeginsRunning(s, r, item, c);
        } else if still {
          StillHandles(s, l, r, item, c);
        }
        if reply.Some? {
          ReplyCovers(s, l, r, item, c);
          assert RecordedAt(before, item, reply.value, |before.states| - 1);
          RecordedStays(before, history, item, reply.value);
        }
      } else {
        still := still && l != Receive(r, item, c);
      }
    }

    lemma ServerFacts()
      requires Valid()
      ensures Inv(server) && server.items[item].row.size == |source| && Offset() <= |source|
      ensures Bytes(server, item) <= source && (Agrees(server, item) ==> Bytes(server, item) == source[..Offset()])
      ensures undamaged && !server.items[item].row.state.Cancelled? ==> Agrees(server, item)
    {
      ReachableInv(history, |history.states| - 1);
      ServerBytesAreSource(history, item, source, |history.states| - 1);
    }

    /** PATCH: the body may arrive in any shape, late, or not at all. */
    method Patch(c: Checkpoint) returns (response: Option<nat>)
      requires Valid() && Honest(c, source)
      modifies this`server, this`history, this`undamaged, this`script, this`paused, this`unanswered, this`contacts
      ensures Onward()
      ensures response.Some? ==> Covered(c, response.value) && |script| < |old(script)|
      ensures |script| <= |old(script)|
      ensures unanswered == old(unanswered) + if response.Some? then 0 else 1
      ensures contacts == old(contacts) + [Sent(c, response)]
    {
      response := None;
      if script != [] {
        var x := script[0];
        script := script[1..];
        paused := paused || x.pauses;
        response := Exchanged(x, c);
      }
      if response.None? {
        unanswered := unanswered + 1;
      }
      contacts := contacts + [Sent(c, response)];
    }

    method Exchanged(x: Exchange, c: Checkpoint) returns (response: Option<nat>)
      requires Valid() && Honest(c, source) && Unforged(x.before) && Unforged(x.after)
      modifies this`server, this`history, this`undamaged
      ensures Onward()
      ensures response.Some? ==> Covered(c, response.value)
    {
      PlayAll(x.before);
      if !x.arrives {
        return None;
      }
      ghost var before := history;
      var delivered := c.(body := x.body);
      var watching;
      watching, response := Watch(Receive(x.request, item, delivered), x.request, delivered, true);
      ContinuesTwice(old(history), before, history);
      for k := 0 to |x.after|
        invariant Onward()
        invariant watching ==> Handles(server, x.request, item, delivered)
        invariant response.Some? ==> Covered(c, response.value)
      {
        ghost var earlier := history;
        var reply;
        watching, reply := Watch(x.after[k], x.request, delivered, watching);
        ContinuesTwice(old(history), earlier, history);
        if response.Some? {
          RecordedStays(earlier, history, item, response.value);
        } else {
          response := reply;
        }
      }
      if !x.answered {
        response := None;
      }
    }

    /** HEAD: the recorded offset at the moment the request is served. */
    method Head() returns (status: Option<Status>)
      requires Valid()
      modifies this`server, this`history, this`undamaged, this`script, this`paused, this`unanswered, this`contacts
      ensures Onward()
      ensures status.Some? ==> Reported(history, item, status.value) && |script| < |old(script)|
      ensures |script| <= |old(script)|
      ensures status.Some? ==> Recorded(history, item, status.value.offset)
      ensures status.Some? && undamaged ==> old(Offset()) <= status.value.offset <= Offset()
      ensures unanswered == old(unanswered) + if status.Some? then 0 else 1
      ensures contacts == old(contacts) + [Asked(status)]
    {
      status := None;
      if script != [] {
        var x := script[0];
        script := script[1..];
        paused := paused || x.pauses;
        status := Served(x);
      }
      if status.None? {
        unanswered := unanswered + 1;
      }
      contacts := contacts + [Asked(status)];
    }

    method Served(x: Exchange) returns (status: Option<Status>)
      requires Valid() && Unforged(x.before) && Unforged(x.after)
      modifies this`server, this`history, this`undamaged
      ensures Onward()
      ensures status.Some? ==> Reported(history, item, status.value) && Recorded(history, item, status.value.offset)
      ensures status.Some? && undamaged ==> old(Offset()) <= status.value.offset <= Offset()
    {
      status := None;
      PlayAll(x.before);
      if !x.arrives {
        return;
      }
      ghost var before := history;
      var served := Play(UploadMachine.Head(item));
      ContinuesTwice(old(history), before, history);
      ghost var at := history;
      if served && x.answered {
        var row := server.items[item].row;
        status := Some(Status(row.confirmed, row.state));
        assert ReportedAt(history, item, status.value, |history.states| - 1);
      }
      PlayAll(x.after);
      ContinuesTwice(old(history), at, history);
      if status.Some? {
        ReportedStays(at, history, item, status.value);
      }
    }
  }

  /* ------------------------------- the loop ------------------------------ */

  datatype Outcome = Uploaded | Paused | Stopped | GaveUp

  /** The request for the next chunk. */
  function CheckpointFor(source: seq<Byte>, item: ItemId, r: ContentRange): (c: Checkpoint)
    requires 0 <= r.start <= r.end < |source| == r.total
    ensures Honest(c, source)
  {
    var payload := source[r.start..r.end + 1];
    var checksum := Sha256(payload);
    Checkpoint(r.start, |payload|, r.total, checksum, CheckpointKey(item, r.start, |payload|, checksum), payload)
  }

  /* ------------------------ what the sender may do ----------------------- */

  /** The offset that the last answer has reported. */
  function Known(contacts: seq<Contact>): Option<nat> {
    if contacts == [] then None
    else
      match contacts[|contacts| - 1]
      case Sent(_, Some(offset)) => Some(offset)
      case Asked(Some(status)) => Some(status.offset)
      case _ => Known(contacts[..|contacts| - 1])
  }

  /** A look at the server that gives no reason to leave `offset`. */
  predicate NoNews(contact: Contact, offset: nat) {
    contact.Asked?
    && (contact.status.Some? ==> contact.status.value.offset == offset && !contact.status.value.state.Cancelled?)
  }

  /** How often the last checkpoint has been tried in vain: not answered, and no news after it. */
  function Tries(contacts: seq<Contact>): nat {
    var n := |contacts|;
    if n >= 2 && contacts[n - 2].Sent? && contacts[n - 2].offset.None?
       && NoNews(contacts[n - 1], contacts[n - 2].checkpoint.start)
    then 1 + Tries(contacts[..n - 2]) else 0
  }

  /** The last request was a checkpoint without an answer. */
  predicate Waiting(contacts: seq<Contact>) {
    contacts != [] && contacts[|contacts| - 1].Sent? && contacts[|contacts| - 1].offset.None?
  }

  /** The server has said that the upload is over. */
  predicate Halted(contacts: seq<Contact>) {
    |contacts| > 1
    && var last := contacts[|contacts| - 1];
       last.Asked? && last.status.Some? && last.status.value.state.Cancelled?
  }

  /** The part of the source that is due at `offset`, under its own checksum and key. */
  predicate Due(c: Checkpoint, item: ItemId, source: seq<Byte>, offset: nat, chunkSize: nat) {
    && c.start == offset < |source| == c.total && c.length == Min(chunkSize, |source| - offset)
    && c.body == source[offset..offset + c.length] && c.checksum == Sha256(c.body)
    && c.key == CheckpointKey(item, c.start, c.length, c.checksum)
  }

  /** A checkpoint is sent at the offset that was reported last, unless three tries have been in
      vain or the upload is over; the server is asked at the beginning and after every
      checkpoint without an answer. */
  predicate MayFollow(contacts: seq<Contact>, next: Contact, item: ItemId, source: seq<Byte>, chunkSize: nat) {
    match next
    case Sent(c, _) =>
      && Known(contacts) == Some(c.start) && Due(c, item, source, c.start, chunkSize)
      && !Waiting(contacts) && !Halted(contacts) && Tries(contacts) < 3
    case Asked(_) => contacts == [] || Waiting(contacts)
  }

  ghost predicate Disciplined(contacts: seq<Contact>, item: ItemId, source: seq<Byte>, chunkSize: nat) {
    forall k {:trigger MayFollow(contacts[..k], contacts[k], item, source, chunkSize)} | 0 <= k < |contacts| ::
      MayFollow(contacts[..k], contacts[k], item, source, chunkSize)
  }

  lemma StillDisciplined(contacts: seq<Contact>, next: Contact, item: ItemId, source: seq<Byte>, chunkSize: nat)
    requires Disciplined(contacts, item, source, chunkSize) && MayFollow(contacts, next, item, source, chunkSize)
    ensures Disciplined(contacts + [next], item, source, chunkSize)
  {
    var more := contacts + [next];
    forall k | 0 <= k < |more|
      ensures MayFollow(more[..k], more[k], item, source, chunkSize)
    {
      if k < |contacts| {
        assert more[..k] == contacts[..k];
      } else {
        assert more[..k] == contacts;
      }
    }
  }

  /** The requests of one upload, at the point where `offset` has just been learnt or tried. */
  ghost predicate Talking(net: Network, from: nat, offset: nat, chunkSize: nat)
    reads net
  {
    && from <= |net.contacts| && Disciplined(net.contacts[from..], net.item, net.source, chunkSize)
    && Known(net.contacts[from..]) == Some(offset) && !Waiting(net.contacts[from..]) && !Halted(net.contacts[from..])
  }

  /** Why the sender stops without success. */
  ghost predicate Stops(net: Network, from: nat, outcome: Outcome, chunkSize: nat)
    reads net
  {
    && from <= |net.contacts| && Disciplined(net.contacts[from..], net.item, net.source, chunkSize)
    && match outcome
       case Uploaded => false
       case Paused => net.paused
       case Stopped => Halted(net.contacts[from..])
       case GaveUp => Tries(net.contacts[from..]) == 3
  }

  lemma SentUnanswered(contacts: seq<Contact>, c: Checkpoint)
    ensures var more := contacts + [Sent(c, None)]; Known(more) == Known(contacts) && Waiting(more)
  {
    assert (contacts + [Sent(c, None)])[..|contacts|] == contacts;
  }

  lemma SentAnswered(contacts: seq<Contact>, c: Checkpoint, offset: nat)
    ensures var more := contacts + [Sent(c, Some(offset))];
      Known(more) == Some(offset) && !Waiting(more) && !Halted(more) && Tries(more) == 0
  {
  }

  lemma AskedInVain(contacts: seq<Contact>, c: Checkpoint, status: Option<Status>)
    requires Known(contacts) == Some(c.start) && NoNews(Asked(status), c.start)
    ensures var more := contacts + [Sent(c, None)] + [Asked(status)];
      Known(more) == Some(c.start) && !Waiting(more) && !Halted(more) && Tries(more) == Tries(contacts) + 1
  {
    var sent := contacts + [Sent(c, None)];
    assert (sent + [Asked(status)])[..|sent|] == sent && sent[..|contacts|] == contacts;
    assert (sent + [Asked(status)])[..|contacts|] == contacts;
  }

  lemma AskedWithNews(contacts: seq<Contact>, c: Checkpoint, status: Status)
    requires !NoNews(Asked(Some(status)), c.start) && contacts != []
    ensures var more := contacts + [Sent(c, None)] + [Asked(Some(status))];
      && Known(more) == Some(status.offset) && !Waiting(more) && Tries(more) == 0
      && (Halted(more) <==> status.state.Cancelled?)
  {
  }

  /** One stay at an offset: where, and how many requests were sent for that chunk. */
  datatype Round = Round(offset: nat, attempts: nat)

  /** No chunk is attempted more than three times in one stay. */
  ghost predicate Bounded(rounds: seq<Round>) {
    forall k | 0 <= k < |rounds| :: rounds[k].attempts <= MAX_ATTEMPTS
  }

  /** The offset grows from round to round. */
  ghost predicate Climbs(rounds: seq<Round>, offset: nat) {
    && (forall k | 0 <= k < |rounds| :: rounds[k].offset < offset)
    && (forall j, k | 0 <= j < k < |rounds| :: rounds[j].offset < rounds[k].offset)
  }

  /** A climb takes at most one round per byte. */
  lemma {:induction false} ClimbIsShort(rounds: seq<Round>, offset: nat)
    requires Climbs(rounds, offset)
    ensures |rounds| <= offset
  {
    if rounds != [] {
      var front := rounds[..|rounds| - 1];
      ClimbIsShort(front, rounds[|rounds| - 1].offset);
    }
  }

  /** One attempt at the chunk: the checkpoint, and a look at the server's offset unless it has
      been answered.  `next` is the offset to go on from, if there is one. */
  method TryChunk(net: Network, offset: nat, r: ContentRange, ghost from: nat, ghost chunkSize: nat)
    returns (stop: Option<Outcome>, next: Option<nat>, ghost sent: bool)
    requires net.Valid() && r.start == offset <= r.end < |net.source| == r.total
    requires r.end + 1 - offset == Min(chunkSize, |net.source| - offset)
    requires Talking(net, from, offset, chunkSize) && Tries(net.contacts[from..]) < 3
    modifies net
    ensures net.Onward() && |net.script| <= |old(net.script)|
    ensures next.Some? ==>
      && stop.None? && Talking(net, from, next.value, chunkSize) && Tries(net.contacts[from..]) == 0
      && next.value != offset && Recorded(net.history, net.item, next.value) && |net.script| < |old(net.script)|
      && (net.undamaged && offset <= old(net.Offset()) ==> offset < next.value <= net.Offset())
    ensures next.None? && stop.None? ==>
      && Talking(net, from, offset, chunkSize) && net.unanswered > old(net.unanswered)
      && Tries(net.contacts[from..]) == Tries(old(net.contacts)[from..]) + 1
    ensures stop.Some? ==>
      && Stops(net, from, stop.value, chunkSize) && !stop.value.GaveUp?
      && (net.paused || net.unanswered > old(net.unanswered))
    ensures stop == Some(Stopped) ==> WasCancelled(net.history, net.item)
    ensures net.unanswered >= old(net.unanswered) && (stop != Some(Paused) ==> sent)
  {
    sent := false;
    ghost var before, contacts := net.history, net.contacts[from..];
    var response := None;
    ghost var c := CheckpointFor(net.source, net.item, r);
    if !net.paused {
      sent := true;
      response := net.Patch(CheckpointFor(net.source, net.item, r));
      assert net.contacts[from..] == contacts + [Sent(c, response)];
      StillDisciplined(contacts, Sent(c, response), net.item, net.source, chunkSize);
    }
    if response.Some? {
      SentAnswered(contacts, c, response.value);
      return None, response, sent;
    }
    if net.paused {
      return Some(Paused), None, sent;
    }
    ghost var patched := net.history;
    SentUnanswered(contacts, c);
    stop, next := AskOffset(net, offset, from, chunkSize, contacts, c);
    ContinuesTwice(before, patched, net.history);
  }

  /** The look at the server's offset, which may have moved in either direction. */
  method AskOffset(net: Network, offset: nat, ghost from: nat, ghost chunkSize: nat,
                   ghost contacts: seq<Contact>, ghost c: Checkpoint)
    returns (stop: Option<Outcome>, next: Option<nat>)
    requires net.Valid() && from <= |net.contacts| && net.contacts[from..] == contacts + [Sent(c, None)]
    requires Disciplined(net.contacts[from..], net.item, net.source, chunkSize)
    requires contacts != [] && Known(contacts) == Some(offset) && c.start == offset && Waiting(net.contacts[from..])
    modifies net
    ensures net.Onward() && |net.script| <= |old(net.script)|
    ensures next.Some? ==>
      && stop.None? && Talking(net, from, next.value, chunkSize) && Tries(net.contacts[from..]) == 0
      && next.value != offset && Recorded(net.history, net.item, next.value) && |net.script| < |old(net.script)|
      && (net.undamaged && offset <= old(net.Offset()) ==> offset < next.value <= net.Offset())
    ensures next.None? && stop.None? ==>
      Talking(net, from, offset, chunkSize) && Tries(net.contacts[from..]) == Tries(contacts) + 1
    ensures stop.Some? ==> stop == Some(Stopped) && Stops(net, from, Stopped, chunkSize)
    ensures stop == Some(Stopped) ==> WasCancelled(net.history, net.item)
    ensures net.unanswered >= old(net.unanswered)
  {
    stop, next := None, None;
    var remote := net.Head();
    assert net.contacts[from..] == contacts + [Sent(c, None)] + [Asked(remote)];
    StillDisciplined(contacts + [Sent(c, None)], Asked(remote), net.item, net.source, chunkSize);
    if NoNews(Asked(remote), offset) {
      AskedInVain(contacts, c, remote);
    } else {
      AskedWithNews(contacts, c, remote.value);
    }
    if remote.Some? && remote.value.state.Cancelled? {
      stop := Some(Stopped);
    } else if remote.Some? && remote.value.offset != offset {
      next := Some(remote.value.offset);
    }
  }

  /** The inner loop: up to three attempts at one chunk.  It ends with the offset that an
      answer has reported and that is another than before, or for one of the three reasons. */
  method UploadChunk(net: Network, offset: nat, r: ContentRange, ghost from: nat, ghost chunkSize: nat)
    returns (outcome: Option<Outcome>, next: nat, ghost sent: nat)
    requires net.Valid()
    requires r.start == offset <= r.end < |net.source| == r.total
    requires r.end + 1 - offset == Min(chunkSize, |net.source| - offset)
    requires Talking(net, from, offset, chunkSize) && Tries(net.contacts[from..]) == 0
    modifies net
    ensures net.Onward() && |net.script| <= |old(net.script)|
    ensures outcome.None? ==> Talking(net, from, next, chunkSize) && Tries(net.contacts[from..]) == 0
    ensures outcome.Some? ==> Stops(net, from, outcome.value, chunkSize)
    ensures sent <= MAX_ATTEMPTS
    ensures outcome.None? ==> Recorded(net.history, net.item, next) && |net.script| < |old(net.script)|
    ensures outcome.None? ==>
      next != offset && (net.undamaged && offset <= old(net.Offset()) ==> offset < next <= net.Offset())
    ensures outcome.Some? ==> net.paused || net.unanswered > old(net.unanswered)
    ensures net.unanswered >= old(net.unanswered)
    ensures outcome == Some(GaveUp) ==> sent == MAX_ATTEMPTS
    ensures outcome == Some(Stopped) ==> WasCancelled(net.history, net.item)
  {
    var attempt := 0;
    sent, next := 0, offset;
    while true
      invariant net.Onward() && |net.script| <= |old(net.script)|
      invariant Talking(net, from, offset, chunkSize) && Tries(net.contacts[from..]) == attempt
      invariant attempt == sent < MAX_ATTEMPTS && old(net.unanswered) + attempt <= net.unanswered
      decreases MAX_ATTEMPTS - attempt
    {
      ghost var before := net.history;
      var stop, found;
      ghost var tried;
      stop, found, tried := TryChunk(net, offset, r, from, chunkSize);
      ContinuesTwice(old(net.history), before, net.history);
      sent := if tried then sent + 1 else sent;
      if found.Some? {
        return None, found.value, sent;
      }
      if stop.Some? {
        return stop, offset, sent;
      }
      attempt := attempt + 1;
      if attempt >= MAX_ATTEMPTS {
        return Some(GaveUp), offset, sent;
      }
    }
  }

  /** The outer loop, entered with the status of a new or a saved upload.

      It always ends, because every round uses up part of what the network has in store; and
      without damage it takes at most one round per byte, because offsets then only grow.
      Success means that the server has recorded the whole size and had the whole file;
      whatever is reported, what the server vouches for is the beginning of the file. */
  method UploadRoomFile(net: Network, chunkSize: nat) returns (outcome: Outcome, ghost rounds: seq<Round>)
    requires net.Valid() && 0 < chunkSize && Safe(chunkSize) && Safe(|net.source|)
    modifies net
    // what is sent, and when it stops
    ensures var from := |old(net.contacts)|;
      && from <= |net.contacts| && Disciplined(net.contacts[from..], net.item, net.source, chunkSize)
      && if outcome.Uploaded? then Known(net.contacts[from..]) == Some(|net.source|)
         else Stops(net, from, outcome, chunkSize) || (outcome.GaveUp? && net.contacts[from..] == [Asked(None)])
    ensures net.Onward() && Bounded(rounds)
    ensures net.undamaged ==> Climbs(rounds, |net.source|) && |rounds| <= |net.source|
    // success
    ensures outcome.Uploaded? ==>
      && Recorded(net.history, net.item, |net.source|) && WasWhole(net.history, net.item, net.source)
      && (net.undamaged ==> net.Offset() == |net.source|)
    ensures Bytes(net.server, net.item) <= net.source
    ensures Agrees(net.server, net.item) ==>
      net.Offset() <= |net.source| && Bytes(net.server, net.item) == net.source[..net.Offset()]
    ensures net.undamaged && !net.server.items[net.item].row.state.Cancelled? ==> Agrees(net.server, net.item)
    ensures net.server.items[net.item].row.state.Ready? ==>
      var row := net.server.items[net.item].row;
      row.finalPath in net.server.dir && net.server.dir[row.finalPath].bytes == net.source
    // progress: it does not stop early for no reason
    ensures net.unanswered == old(net.unanswered) && !net.paused ==> outcome.Uploaded?
    ensures outcome.Paused? ==> net.paused
    ensures outcome.Stopped? ==> WasCancelled(net.history, net.item)
    ensures outcome.GaveUp? ==> rounds == [] || rounds[|rounds| - 1].attempts == MAX_ATTEMPTS
  {
    rounds := [];
    ghost var from := |net.contacts|;
    var status := net.Head();
    assert net.contacts[from..] == [] + [Asked(status)];
    StillDisciplined([], Asked(status), net.item, net.source, chunkSize);
    if status.None? {
      Conclude(net);
      return GaveUp, rounds;
    }
    ghost var asked := net.history;
    outcome, rounds := UploadFrom(net, status.value.offset, chunkSize, from);
    ContinuesTwice(old(net.history), asked, net.history);
    Conclude(net);
    if outcome.Uploaded? {
      RecordedWhole(net.history, net.item, net.source);
    }
    if net.undamaged {
      ClimbIsShort(rounds, |net.source|);
    }
  }

  method UploadFrom(net: Network, start: nat, chunkSize: nat, ghost from: nat)
    returns (outcome: Outcome, ghost rounds: seq<Round>)
    requires net.Valid() && 0 < chunkSize && Safe(chunkSize) && Safe(|net.source|)
    requires Recorded(net.history, net.item, start) && (net.undamaged ==> start <= net.Offset())
    requires Talking(net, from, start, chunkSize) && Tries(net.contacts[from..]) == 0
    modifies net
    ensures if outcome.Uploaded? then Talking(net, from, |net.source|, chunkSize)
            else Stops(net, from, outcome, chunkSize)
    ensures net.Onward() && Bounded(rounds) && (net.undamaged ==> Climbs(rounds, |net.source|))
    ensures outcome.Uploaded? ==>
      Recorded(net.history, net.item, |net.source|) && (net.undamaged ==> net.Offset() == |net.source|)
    ensures net.unanswered >= old(net.unanswered)
    ensures net.unanswered == old(net.unanswered) && !net.paused ==> outcome.Uploaded?
    ensures outcome.Paused? ==> net.paused
    ensures outcome.Stopped? ==> WasCancelled(net.history, net.item)
    ensures outcome.GaveUp? ==> rounds != [] && rounds[|rounds| - 1].attempts == MAX_ATTEMPTS
  {
    rounds := [];
    var offset: nat := start;
    ghost var atStart, undamaged, recorded, unanswered := net.history, net.undamaged, net.Offset(), net.unanswered;
    RecordedFits(net.history, net.item, net.source, offset);
    ContinuesFromHere(atStart);
    while offset < |net.source|
      invariant Since(net, atStart, undamaged, recorded, unanswered) && Reached(net, offset, rounds)
      invariant Talking(net, from, offset, chunkSize) && Tries(net.contacts[from..]) == 0
      decreases |net.script|
    {
      if net.paused {
        return Paused, rounds;
      }
      var stop, next;
      stop, next, rounds := UploadRound(net, offset, chunkSize, from, rounds, atStart, undamaged, recorded,
                                       unanswered);
      if stop.Some? {
        return stop.value, rounds;
      }
      offset := next;
    }
    net.ServerFacts();
    outcome := Uploaded;
  }

  /** How far the network has come since a moment with history `start`. */
  ghost predicate Since(net: Network, start: Run, undamaged: bool, recorded: nat, unanswered: nat)
    reads net
  {
    && net.Valid() && Continues(start, net.history) && unanswered <= net.unanswered
    && (net.undamaged ==> undamaged && recorded <= net.Offset())
  }

  /** The loop has reached `offset`. */
  ghost predicate Reached(net: Network, offset: nat, rounds: seq<Round>)
    requires net.item in net.server.items
    reads net
  {
    && Bounded(rounds) && Recorded(net.history, net.item, offset) && offset <= |net.source|
    && (net.undamaged ==> offset <= net.Offset() && Climbs(rounds, offset))
  }

  lemma ContinuesFromHere(run: Run)
    ensures Continues(run, run)
  {
  }

  /** One round of the outer loop. */
  method UploadRound(net: Network, offset: nat, chunkSize: nat, ghost from: nat, ghost rounds: seq<Round>,
                     ghost start: Run, ghost undamaged: bool, ghost recorded: nat, ghost unanswered: nat)
    returns (stop: Option<Outcome>, next: nat, ghost more: seq<Round>)
    requires Since(net, start, undamaged, recorded, unanswered) && Reached(net, offset, rounds)
    requires 0 < chunkSize && Safe(chunkSize) && Safe(|net.source|) && offset < |net.source|
    requires Talking(net, from, offset, chunkSize) && Tries(net.contacts[from..]) == 0
    modifies net
    ensures stop.None? ==> Talking(net, from, next, chunkSize) && Tries(net.contacts[from..]) == 0
    ensures stop.Some? ==> Stops(net, from, stop.value, chunkSize)
    ensures Since(net, start, undamaged, recorded, unanswered) && Bounded(more) && more != []
    ensures net.undamaged ==> Climbs(more, |net.source|)
    ensures stop.None? ==> Reached(net, next, more) && |net.script| < |old(net.script)|
    ensures stop.Some? ==> net.paused || net.unanswered > unanswered
    ensures stop == Some(GaveUp) ==> more[|more| - 1].attempts == MAX_ATTEMPTS
    ensures stop == Some(Stopped) ==> WasCancelled(net.history, net.item)
  {
    ghost var before := net.history;
    ghost var sent;
    stop, next, sent := UploadNext(net, offset, chunkSize, from);
    ContinuesTwice(start, before, net.history);
    more := rounds + [Round(offset, sent)];
  }

  /** The chunk at `offset`. */
  method UploadNext(net: Network, offset: nat, chunkSize: nat, ghost from: nat)
    returns (stop: Option<Outcome>, next: nat, ghost sent: nat)
    requires net.Valid() && 0 < chunkSize && Safe(chunkSize) && Safe(|net.source|) && offset < |net.source|
    requires Talking(net, from, offset, chunkSize) && Tries(net.contacts[from..]) == 0
    modifies net
    ensures stop.None? ==> Talking(net, from, next, chunkSize) && Tries(net.contacts[from..]) == 0
    ensures stop.Some? ==> Stops(net, from, stop.value, chunkSize)
    ensures net.Onward() && sent <= MAX_ATTEMPTS && net.unanswered >= old(net.unanswered)
    ensures stop.None? ==>
      Recorded(net.history, net.item, next) && next <= |net.source| && |net.script| < |old(net.script)|
    ensures stop.None? && net.undamaged && offset <= old(net.Offset()) ==> offset < next <= net.Offset()
    ensures stop.Some? ==> net.paused || net.unanswered > old(net.unanswered)
    ensures stop == Some(GaveUp) ==> sent == MAX_ATTEMPTS
    ensures stop == Some(Stopped) ==> WasCancelled(net.history, net.item)
  {
    var range := NextChunkRange(|net.source|, offset, chunkSize);
    stop, next, sent := UploadChunk(net, offset, range.range, from, chunkSize);
    if stop.None? {
      RecordedFits(net.history, net.item, net.source, next);
    }
  }

  lemma Conclude(net: Network)
    requires net.Valid()
    ensures var item := net.server.items[net.item];
      && net.Offset() <= |net.source| && Bytes(net.server, net.item) <= net.source
      && (Agrees(net.server, net.item) ==> Bytes(net.server, net.item) == net.source[..net.Offset()])
      && (net.undamaged && !item.row.state.Cancelled? ==> Agrees(net.server, net.item))
      && (item.row.state.Ready? ==>
            item.row.finalPath in net.server.dir && net.server.dir[item.row.finalPath].bytes == net.source)
  {
    net.ServerFacts();
    if net.server.items[net.item].row.state.Ready? {
      ReadyIsTheSource(net.history, net.item, net.source, |net.history.states| - 1);
    }
  }
}
