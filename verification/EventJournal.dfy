/** The event journal of one room and the live streams that follow it. */
module EventJournal {
  import opened Basics

  const EVENT_HISTORY_LIMIT := 256

  datatype Event = Event(id: nat, payload: string)

  /* ------------ the room_events table, in primary-key order -------------- */

  predicate Holds(rows: seq<Event>, id: nat) {
    exists j :: 0 <= j < |rows| && rows[j].id == id
  }

  /** INSERT at the place the primary key gives it. */
  function Inserted(rows: seq<Event>, event: Event): seq<Event> {
    if rows == [] || rows[|rows| - 1].id < event.id then rows + [event]
    else Inserted(rows[..|rows| - 1], event) + [rows[|rows| - 1]]
  }

  /** WHERE event_id > k ORDER BY event_id */
  function EventsAfter(rows: seq<Event>, k: int): seq<Event> {
    if rows == [] then [] else
    var rest := EventsAfter(rows[..|rows| - 1], k);
    if rows[|rows| - 1].id > k then rest + [rows[|rows| - 1]] else rest
  }

  /** trimEvents: only ids above MAX(event_id) - keep stay. */
  function Trimmed(rows: seq<Event>, keep: nat): seq<Event> {
    if rows == [] then [] else EventsAfter(rows, rows[|rows| - 1].id - keep)
  }

  /** Everything ever published, in order: the n-th event has id n. */
  predicate Numbered(log: seq<Event>) {
    forall j | 0 <= j < |log| :: log[j].id == j + 1
  }

  function Suffix(log: seq<Event>, start: nat): seq<Event> {
    if start <= |log| then log[start..] else []
  }

  function WindowStart(total: nat): nat {
    if total <= EVENT_HISTORY_LIMIT then 0 else total - EVENT_HISTORY_LIMIT
  }

  function Window(log: seq<Event>): seq<Event> {
    log[WindowStart(|log|)..]
  }

  /** The window is the last 256 events, or all of them. */
  lemma WindowIsNewest(log: seq<Event>)
    ensures Window(log) == Newest(log, 256)
  {
  }

  /** Selecting by id from a tail of the log is cutting the log at that position. */
  lemma {:induction false} AfterCutsLog(log: seq<Event>, start: nat, k: nat)
    requires Numbered(log) && start <= |log|
    ensures EventsAfter(log[start..], k) == Suffix(log, Max(start, k))
    decreases |log|
  {
    if start < |log| {
      var front := log[..|log| - 1];
      AfterCutsLog(front, start, k);
      assert log[start..][..|log| - start - 1] == front[start..];
      assert log[start..][|log| - start - 1].id == |log|;
      if k < |log| {
        assert Suffix(log, Max(start, k)) == Suffix(front, Max(start, k)) + [log[|log| - 1]];
      }
    }
  }

  /** Where a stream begins that asks for everything after `k` when `total` events exist. */
  function StartOf(k: nat, total: nat): nat {
    if k <= total then Max(k, WindowStart(total)) else k
  }

  lemma ReplayIsSuffix(log: seq<Event>, k: nat)
    requires Numbered(log)
    ensures EventsAfter(Window(log), k) == Suffix(log, StartOf(k, |log|))
    ensures |Suffix(log, StartOf(k, |log|))| <= EVENT_HISTORY_LIMIT
  {
    AfterCutsLog(log, WindowStart(|log|), k);
  }

  /** Publishing the next event keeps exactly the last 256. */
  lemma PublishKeepsWindow(log: seq<Event>, event: Event)
    requires Numbered(log) && event.id == |log| + 1
    ensures Numbered(log + [event])
    ensures Trimmed(Inserted(Window(log), event), EVENT_HISTORY_LIMIT) == Window(log + [event])
  {
    var longer, start := log + [event], WindowStart(|log|);
    assert Inserted(Window(log), event) == longer[start..];
    assert longer[start..][|longer| - start - 1] == event;
    if |longer| <= EVENT_HISTORY_LIMIT {
      EverythingAfter(longer[start..], |longer| - EVENT_HISTORY_LIMIT);
    } else {
      AfterCutsLog(longer, start, |longer| - EVENT_HISTORY_LIMIT);
    }
  }

  lemma {:induction false} EverythingAfter(rows: seq<Event>, k: int)
    requires forall j | 0 <= j < |rows| :: rows[j].id > k
    ensures EventsAfter(rows, k) == rows
  {
    if rows != [] {
      EverythingAfter(rows[..|rows| - 1], k);
    }
  }

  /** An old id either is still stored, or falls below the window and is trimmed at once. */
  lemma StaleInsertVanishes(log: seq<Event>, event: Event)
    requires Numbered(log) && 1 <= event.id <= |log|
    ensures Holds(Window(log), event.id) <==> WindowStart(|log|) < event.id
    ensures !Holds(Window(log), event.id) ==>
      Trimmed(Inserted(Window(log), event), EVENT_HISTORY_LIMIT) == Window(log)
  {
    var start := WindowStart(|log|);
    if start < event.id {
      assert Window(log)[event.id - 1 - start].id == event.id;
    } else {
      InsertedBelow(Window(log), event);
      EverythingAfter(Window(log), start);
      FirstDropped(event, Window(log), start);
    }
  }

  lemma SuffixGrows(log: seq<Event>, event: Event, start: nat)
    ensures Suffix(log + [event], start) == if start <= |log| then Suffix(log, start) + [event] else []
  {
  }

  lemma {:induction false} InsertedBelow(rows: seq<Event>, event: Event)
    requires forall j | 0 <= j < |rows| :: event.id < rows[j].id
    ensures Inserted(rows, event) == [event] + rows
  {
    if rows != [] {
      InsertedBelow(rows[..|rows| - 1], event);
    }
  }

  lemma {:induction false} FirstDropped(event: Event, rows: seq<Event>, k: int)
    requires event.id <= k
    ensures EventsAfter([event] + rows, k) == EventsAfter(rows, k)
  {
    if rows != [] {
      FirstDropped(event, rows[..|rows| - 1], k);
      assert ([event] + rows)[..|rows|] == [event] + rows[..|rows| - 1];
    } else {
      assert EventsAfter([event], k) == EventsAfter([], k);
    }
  }

  /* ------------------------------- streams ------------------------------- */

  /** One server-sent event response: the closure state of the route handler. */
  class EventStream {
    var lastSentId: nat
    var written: seq<Event>

    constructor (requestedEventId: nat)
      ensures lastSentId == requestedEventId && written == []
    {
      lastSentId, written := requestedEventId, [];
    }

    method Send(event: Event)
      modifies this
      ensures event.id > old(lastSentId) ==> lastSentId == event.id && written == old(written) + [event]
      ensures event.id <= old(lastSentId) ==> lastSentId == old(lastSentId) && written == old(written)
    {
      if event.id <= lastSentId {
        return;
      }
      lastSentId := event.id;
      written := written + [event];
    }

    /** The stream has written the log from `start` on and nothing else. */
    predicate Follows(log: seq<Event>, start: nat)
      reads this
    {
      written == Suffix(log, start) && lastSentId == Max(start, |log|)
    }
  }

  class RoomEvents {
    var eventId: nat            // rooms.event_id
    var rows: seq<Event>        // room_events
    var streams: seq<EventStream>
    ghost var log: seq<Event>
    ghost var starts: seq<nat>  // where each stream begins

    ghost predicate Valid()
      reads this, streams
    {
      && Numbered(log) && rows == Window(log) && |starts| == |streams|
      && (forall i, j | 0 <= i < j < |streams| :: streams[i] != streams[j])
      && forall i | 0 <= i < |streams| :: streams[i].Follows(log, starts[i])
    }

    /** The row of the room is up to date with the journal. */
    ghost predicate Fresh()
      reads this
    {
      eventId == |log|
    }

    constructor ()
      ensures Valid() && Fresh() && log == [] && streams == []
    {
      eventId, rows, streams, log, starts := 0, [], [], [], [];
      assert Window([]) == [];
    }

    method AppendEvent(event: Event) returns (ok: bool)
      modifies this`rows
      ensures ok <==> !Holds(old(rows), event.id)
      ensures rows == if ok then Inserted(old(rows), event) else old(rows)
    {
      ok := !Holds(rows, event.id);
      if ok {
        rows := Inserted(rows, event);
      }
    }

    method TrimEvents(keep: nat)
      modifies this`rows
      ensures rows == Trimmed(old(rows), keep)
    {
      rows := Trimmed(rows, keep);
    }

    /** The emitter calls every listener; each one decides by its own last id. */
    method Emit(event: Event)
      requires forall i, j | 0 <= i < j < |streams| :: streams[i] != streams[j]
      modifies streams
      ensures forall i | 0 <= i < |streams| ::
        var s := streams[i];
        if event.id > old(s.lastSentId) then s.lastSentId == event.id && s.written == old(s.written) + [event]
        else s.lastSentId == old(s.lastSentId) && s.written == old(s.written)
    {
      for k := 0 to |streams|
        invariant forall i | k <= i < |streams| ::
          streams[i].lastSentId == old(streams[i].lastSentId) && streams[i].written == old(streams[i].written)
        invariant forall i | 0 <= i < k ::
          var s := streams[i];
          if event.id > old(s.lastSentId) then s.lastSentId == event.id && s.written == old(s.written) + [event]
          else s.lastSentId == old(s.lastSentId) && s.written == old(s.written)
      {
        streams[k].Send(event);
      }
    }

    /** `snapshot` is the event id in the room object the caller holds. With a current object
        the event joins the log, the table and every stream. With an outdated one nothing
        reaches log, table or streams: the insert fails on the primary key, or the row lies
        below the window and is trimmed away in silence; and the room's own counter moves
        back to `snapshot + 1`. */
    method Publish(snapshot: nat, payload: string) returns (ok: bool)
      requires Valid() && snapshot <= |log|
      modifies this`eventId, this`rows, this`log, streams
      ensures Valid() && eventId == snapshot + 1
      ensures snapshot == |old(log)| ==> ok && Fresh() && log == old(log) + [Event(snapshot + 1, payload)]
      ensures snapshot < |old(log)| ==>
        && log == old(log) && rows == old(rows) && (ok <==> snapshot + 1 <= WindowStart(|log|))
        && (Fresh() <==> |log| - snapshot == 1)
    {
      eventId := snapshot + 1;
      var event := Event(eventId, payload);
      ok := Store(event);
      if ok {
        Emit(event);
        forall i | 0 <= i < |streams|
          ensures streams[i].Follows(if snapshot == |log| then log + [event] else log, starts[i])
        {
          assert old(streams[i].Follows(log, starts[i]));
          SuffixGrows(log, event, starts[i]);
        }
        if snapshot == |log| {
          log := log + [event];
        }
      }
    }

    /** appendEvent and trimEvents */
    method Store(event: Event) returns (ok: bool)
      requires Numbered(log) && rows == Window(log) && 1 <= event.id <= |log| + 1
      modifies this`rows
      ensures event.id == |log| + 1 ==> ok && rows == Window(log + [event])
      ensures event.id <= |log| ==> rows == old(rows) && (ok <==> event.id <= WindowStart(|log|))
    {
      if event.id <= |log| {
        StaleInsertVanishes(log, event);
      } else {
        PublishKeepsWindow(log, event);
      }
      ok := AppendEvent(event);
      if ok {
        TrimEvents(EVENT_HISTORY_LIMIT);
      }
    }

    method ListEventsAfter(k: nat, limit: nat) returns (events: seq<Event>)
      ensures events == (var all := EventsAfter(rows, k); if |all| <= limit then all else all[..limit])
    {
      events := EventsAfter(rows, k);
      if |events| > limit {
        events := events[..limit];
      }
    }

    method SendAll(stream: EventStream, events: seq<Event>)
      requires stream.written == [] && forall k | 0 <= k < |events| :: events[k].id > stream.lastSentId + k
      requires forall k | 0 <= k < |events| :: events[k].id == events[0].id + k
      modifies stream
      ensures stream.written == events
      ensures stream.lastSentId == if events == [] then old(stream.lastSentId) else events[|events| - 1].id
    {
      for k := 0 to |events|
        invariant stream.written == events[..k]
        invariant stream.lastSentId == if k == 0 then old(stream.lastSentId) else events[k - 1].id
      {
        stream.Send(events[k]);
      }
    }

    /** eventsAfter: what is stored beyond `k`, which is the log from there on, or the window. */
    method EventsSince(k: nat) returns (events: seq<Event>)
      requires Numbered(log) && rows == Window(log)
      ensures events == Suffix(log, StartOf(k, |log|))
    {
      ReplayIsSuffix(log, k);
      events := ListEventsAfter(k, EVENT_HISTORY_LIMIT);
    }

    method Replay(stream: EventStream, requestedEventId: nat)
      requires Numbered(log) && rows == Window(log)
      requires stream.lastSentId == requestedEventId && stream.written == []
      modifies stream
      ensures stream.Follows(log, StartOf(requestedEventId, |log|))
    {
      var events := EventsSince(requestedEventId);
      SendAll(stream, events);
    }

    /** The route handler: subscribe, replay, and fall back to a snapshot if the replay did
        not reach the room's counter.  It never does fall back. */
    method Connect(requestedEventId: nat) returns (stream: EventStream, fellBack: bool)
      requires Valid() && eventId <= |log|
      modifies this`streams, this`starts
      ensures Valid() && fresh(stream) && streams == old(streams) + [stream] && !fellBack
      ensures starts == old(starts) + [StartOf(requestedEventId, |log|)]
    {
      stream := new EventStream(requestedEventId);
      Replay(stream, requestedEventId);
      fellBack := stream.lastSentId < eventId;
      streams := streams + [stream];
      starts := starts + [StartOf(requestedEventId, |log|)];
    }

    /** The service restarts: the tables stay, the connections are gone. */
    method Restart()
      requires Valid()
      modifies this`streams, this`starts
      ensures Valid() && streams == [] && log == old(log) && eventId == old(eventId)
    {
      streams, starts := [], [];
    }
  }

  /** What a stream that follows the log shows its reader: ids grow by one, so there are no
      duplicates; and against what the reader had asked for there is no gap exactly when
      the request was not older than the window. */
  lemma FollowingIsGapFree(log: seq<Event>, subscribedAt: nat, k: nat, written: seq<Event>)
    requires Numbered(log) && k <= subscribedAt <= |log|
    requires written == Suffix(log, StartOf(k, subscribedAt))
    ensures forall i | 0 <= i < |written| :: written[i].id == written[0].id + i
    ensures (forall id | k < id <= |log| :: Holds(written, id)) <==> k == |log| || WindowStart(subscribedAt) <= k
  {
    if WindowStart(subscribedAt) <= k {
      forall id | k < id <= |log|
        ensures Holds(written, id)
      {
        assert written[id - 1 - k].id == id;
      }
    } else if k < |log| {
      assert !Holds(written, k + 1);
    }
  }

  /** A reader that reconnects with the last id it saw continues where it stopped. */
  lemma ReconnectIsSeamless(log: seq<Event>, seen: nat, start: nat, resumedAt: nat)
    requires Numbered(log) && start <= seen <= resumedAt <= |log|
    ensures log[start..seen] + Suffix(log, StartOf(seen, resumedAt)) == log[start..]
       <==> seen == |log| || WindowStart(resumedAt) <= seen
  {
    var resumed := StartOf(seen, resumedAt);
    if resumed == seen {
      assert log[start..seen] + log[seen..] == log[start..];
    } else {
      assert |log[start..seen] + Suffix(log, resumed)| < |log[start..]|;
    }
  }
}
