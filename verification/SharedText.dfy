/** The encrypted text that the devices of a room share: compare-and-swap on its revision,
    and the life of the key that is only ever kept in memory. */
module SharedText {
  import opened Basics

  type RoomId = string
  type Token = string

  /* ----------------------------- ideal crypto ---------------------------- */

  /** HKDF and AES-256-GCM are idealised: a derived key determines room and token and is not
      the all-zero key; a sealed box opens with the key and associated data it was sealed
      with, and with no other. */
  datatype KeyBytes = Derived(room: RoomId, token: Token) | Zeros

  datatype Box = Sealed(key: KeyBytes, room: RoomId, revision: nat, updatedAt: int, nonce: seq<Byte>, content: string)

  /** A capability is stored as its digest only. */
  datatype TokenHash = HashOf(token: Token)

  datatype Text = Text(content: string, revision: nat, updatedAt: int)

  /** A row of room_shared_text. */
  datatype Row = Row(room: RoomId, revision: nat, box: Box, updatedAt: int)

  function Encrypt(key: KeyBytes, room: RoomId, text: Text, nonce: seq<Byte>): Row {
    Row(room, text.revision, Sealed(key, room, text.revision, text.updatedAt, nonce, text.content), text.updatedAt)
  }

  function Decrypt(key: KeyBytes, row: Row): Option<Text> {
    var box := row.box;
    if box.key == key && box.room == row.room && box.revision == row.revision && box.updatedAt == row.updatedAt
    then Some(Text(box.content, row.revision, row.updatedAt)) else None
  }

  /** A key in memory; wiping it overwrites the bytes of the buffer everyone else shares. */
  class KeyBuffer {
    var bytes: KeyBytes

    constructor Derive(room: RoomId, token: Token)
      ensures bytes == Derived(room, token)
    {
      bytes := Derived(room, token);
    }

    method Zeroize()
      modifies this
      ensures bytes == Zeros
    {
      bytes := Zeros;
    }
  }

  /* ------------------------ the register, abstractly --------------------- */

  /** All successful contents of one room, in order; revision n is the n-th. */
  type History = seq<Text>

  datatype Update = Update(content: string, expected: nat, now: int)

  /** Compare and swap. */
  function Applied(history: History, u: Update): History {
    if u.expected == |history| then history + [Text(u.content, |history| + 1, u.now)] else history
  }

  function AppliedAll(history: History, updates: seq<Update>): History {
    if updates == [] then history else Applied(AppliedAll(history, updates[..|updates| - 1]), updates[|updates| - 1])
  }

  /** Update `j` of the run was accepted. */
  predicate Succeeds(history: History, updates: seq<Update>, j: nat)
    requires j < |updates|
  {
    updates[j].expected == |AppliedAll(history, updates[..j])|
  }

  lemma {:induction false} HistoryOnlyGrows(history: History, updates: seq<Update>, j: nat)
    requires j <= |updates|
    ensures AppliedAll(history, updates[..j]) <= AppliedAll(history, updates)
    decreases |updates|
  {
    if j == |updates| {
      assert updates[..j] == updates;
    } else {
      var front := updates[..|updates| - 1];
      HistoryOnlyGrows(history, front, j);
      assert front[..j] == updates[..j];
    }
  }

  /** No update is lost: of two accepted updates the later one had seen the revision that the
      earlier one produced, whose content is still in the history. */
  lemma NoLostUpdate(history: History, updates: seq<Update>, j: nat, k: nat)
    requires j < k < |updates| && Succeeds(history, updates, j) && Succeeds(history, updates, k)
    ensures updates[j].expected < updates[k].expected
    ensures var final := AppliedAll(history, updates);
            updates[j].expected < |final| && final[updates[j].expected].content == updates[j].content
  {
    var prefix := updates[..j + 1];
    assert prefix[..j] == updates[..j];
    HistoryOnlyGrows(history, updates[..k], j + 1);
    assert updates[..k][..j + 1] == prefix;
    HistoryOnlyGrows(history, updates, j + 1);
    HistoryOnlyGrows(history, updates, k);
  }

  /** The texts of the accepted updates, in order. */
  function Accepted(history: History, updates: seq<Update>): seq<string> {
    if updates == [] then []
    else
      var last := |updates| - 1;
      Accepted(history, updates[..last]) + (if Succeeds(history, updates, last) then [updates[last].content] else [])
  }

  function Contents(history: History): seq<string> {
    seq(|history|, k requires 0 <= k < |history| => history[k].content)
  }

  /** The register holds what has been accepted, in that order, and nothing else. */
  lemma {:induction false} OnlyAcceptedAreKept(history: History, updates: seq<Update>)
    ensures Contents(AppliedAll(history, updates)) == Contents(history) + Accepted(history, updates)
    decreases |updates|
  {
    if updates != [] {
      var front, u := updates[..|updates| - 1], updates[|updates| - 1];
      OnlyAcceptedAreKept(history, front);
      var before := AppliedAll(history, front);
      assert Contents(before + [Text(u.content, |before| + 1, u.now)]) == Contents(before) + [u.content];
    }
  }

  predicate Linear(history: History) {
    forall n | 0 <= n < |history| :: history[n].revision == n + 1
  }

  /** What is stored is the last accepted text, sealed with the room's key. */
  ghost predicate Stored(id: RoomId, token: Token, row: Option<Row>, history: History) {
    && Linear(history) && (row.None? <==> history == [])
    && (row.Some? ==>
          && row.value.room == id && row.value.revision == |history|
          && Decrypt(Derived(id, token), row.value) == Some(history[|history| - 1]))
  }

  ghost predicate AllStored(rooms: map<RoomId, Room>, texts: map<RoomId, Row>, histories: map<RoomId, History>) {
    && histories.Keys == rooms.Keys && texts.Keys <= rooms.Keys
    && forall id {:trigger StoredAt(rooms, texts, histories, id)} | id in rooms :: StoredAt(rooms, texts, histories, id)
  }

  ghost predicate StoredAt(rooms: map<RoomId, Room>, texts: map<RoomId, Row>, histories: map<RoomId, History>,
                           id: RoomId)
    requires id in rooms && id in histories
  {
    Stored(id, rooms[id].tokenHash.token, if id in texts then Some(texts[id]) else None, histories[id])
  }

  lemma StoreOne(rooms: map<RoomId, Room>, texts: map<RoomId, Row>, histories: map<RoomId, History>,
                 id: RoomId, row: Row, history: History)
    requires AllStored(rooms, texts, histories) && id in rooms
    requires Stored(id, rooms[id].tokenHash.token, Some(row), history)
    ensures AllStored(rooms, texts[id := row], histories[id := history])
  {
    forall other | other in rooms
      ensures StoredAt(rooms, texts[id := row], histories[id := history], other)
    {
      assert StoredAt(rooms, texts, histories, other);
    }
  }

  /** The room row may change as long as its token does not. */
  lemma TouchOne(rooms: map<RoomId, Room>, texts: map<RoomId, Row>, histories: map<RoomId, History>, id: RoomId,
                 room: Room)
    requires AllStored(rooms, texts, histories) && id in rooms && room.tokenHash == rooms[id].tokenHash
    ensures AllStored(rooms[id := room], texts, histories)
  {
    forall other | other in rooms
      ensures StoredAt(rooms[id := room], texts, histories, other)
    {
      assert StoredAt(rooms, texts, histories, other);
    }
  }

  lemma AddOne(rooms: map<RoomId, Room>, texts: map<RoomId, Row>, histories: map<RoomId, History>, id: RoomId,
               room: Room)
    requires AllStored(rooms, texts, histories) && id !in rooms
    ensures AllStored(rooms[id := room], texts, histories[id := []])
  {
    var more := rooms[id := room];
    forall other | other in more
      ensures StoredAt(rooms[id := room], texts, histories[id := []], other)
    {
      assert other != id ==> StoredAt(rooms, texts, histories, other);
    }
  }

  lemma DropOne(rooms: map<RoomId, Room>, texts: map<RoomId, Row>, histories: map<RoomId, History>, id: RoomId)
    requires AllStored(rooms, texts, histories)
    ensures AllStored(rooms - {id}, texts - {id}, histories - {id})
  {
    forall other | other in rooms - {id}
      ensures StoredAt(rooms - {id}, texts - {id}, histories - {id}, other)
    {
      assert StoredAt(rooms, texts, histories, other);
    }
  }

  lemma SealedIsStored(id: RoomId, token: Token, history: History, u: Update, nonce: seq<Byte>)
    requires Linear(history) && u.expected == |history|
    ensures var text := Text(u.content, |history| + 1, u.now);
            Stored(id, token, Some(Encrypt(Derived(id, token), id, text, nonce)), history + [text])
  {
  }

  /* ------------------------------- the store ----------------------------- */

  datatype Room = Room(tokenHash: TokenHash, active: bool, createdAt: int, expiresAt: int, hardExpiresAt: int)

  /** A request may carry a bearer token, a ticket, both or neither. */
  datatype Credential = Credential(token: Option<Token>, ticketValid: bool)

  datatype Reply = Ok(text: Text) | Conflict(current: Text) | Rejected(status: nat) | Broken

  datatype Replacement = Replaced | Outdated | Failed

  /** requireActive */
  predicate Live(room: Room, now: int) {
    room.active && now < room.expiresAt && now < room.hardExpiresAt
  }

  /** touch: the lease is renewed, but never beyond the hard limit. */
  function Touched(room: Room, now: int, ttlMs: nat): Room {
    room.(expiresAt := Min(now + ttlMs, room.hardExpiresAt))
  }

  /** From `now` on the room is open for exactly `ttlMs`, or up to its hard limit if that is
      earlier; whose room it is and since when has not changed. */
  ghost predicate Renewed(before: Room, after: Room, now: int, ttlMs: nat) {
    && (forall t | now <= t :: Live(after, t) <==> t < now + ttlMs && t < before.hardExpiresAt)
    && after.(expiresAt := before.expiresAt) == before
  }

  class SharedTextStore {
    const ttlMs: nat
    const hardTtlMs: nat
    var rooms: map<RoomId, Room>
    var texts: map<RoomId, Row>
    var keys: map<RoomId, KeyBuffer>
    ghost var histories: map<RoomId, History>

    /** A remembered key is the key of its room's token, in a buffer of its own. */
    predicate KeyOk(id: RoomId)
      requires id in keys
      reads this, keys[id]
    {
      id in rooms && keys[id].bytes == Derived(id, rooms[id].tokenHash.token)
    }

    ghost predicate Valid()
      reads this, keys.Values
    {
      && TextsOk() && OwnBuffers() && forall id | id in keys :: KeyOk(id)
    }

    ghost predicate TextsOk()
      reads this
    {
      AllStored(rooms, texts, histories)
    }

    predicate OwnBuffers()
      reads this
    {
      forall a, b | a in keys && b in keys && a != b :: keys[a] != keys[b]
    }

    ghost function Current(id: RoomId): (text: Text)
      requires id in rooms && id in histories
      reads this
    {
      if histories[id] == [] then Text("", 0, rooms[id].createdAt) else histories[id][|histories[id]| - 1]
    }

    constructor (ttlMs: nat, hardTtlMs: nat)
      ensures Valid() && rooms == map[]
    {
      this.ttlMs, this.hardTtlMs := ttlMs, hardTtlMs;
      rooms, texts, keys, histories := map[], map[], map[], map[];
    }

    /** Afterwards the map holds the right key, and every buffer that is not in the map has
        been wiped: the new one if it was not needed, the old one if it was replaced. */
    method RememberKey(id: RoomId, token: Token) returns (ghost next: KeyBuffer)
      requires TextsOk() && OwnBuffers() && (forall other | other in keys && other != id :: KeyOk(other))
      requires id in rooms && rooms[id].tokenHash == HashOf(token)
      modifies this`keys, keys.Values
      ensures Valid() && id in keys && keys.Keys == old(keys).Keys + {id}
      ensures forall other | other in old(keys) && other != id ::
        keys[other] == old(keys)[other] && keys[other].bytes == old(keys[other].bytes)
      ensures keys[id] != next ==> next.bytes == Zeros
      ensures id in old(keys) && keys[id] != old(keys)[id] ==> old(keys)[id].bytes == Zeros
      ensures id in old(keys) && old(keys[id].bytes) == Derived(id, token) ==> keys == old(keys)
    {
      var derived := new KeyBuffer.Derive(id, token);
      next := derived;
      if id in keys {
        var current := keys[id];
        if current.bytes == derived.bytes {
          derived.Zeroize();
          return;
        }
        current.Zeroize();
      }
      keys := keys[id := derived];
    }

    method ForgetKey(id: RoomId)
      requires OwnBuffers()
      modifies this`keys, keys.Values
      ensures keys == old(keys) - {id}
      ensures id in old(keys) ==> old(keys)[id].bytes == Zeros
      ensures forall other | other in keys :: keys[other].bytes == old(keys[other].bytes)
    {
      if id in keys {
        keys[id].Zeroize();
        keys := keys - {id};
      }
    }

    method CreateRoom(id: RoomId, token: Token, now: int)
      requires Valid() && id !in rooms
      modifies this, keys.Values
      ensures Valid() && rooms == old(rooms)[id := Room(HashOf(token), true, now, now + ttlMs, now + hardTtlMs)]
      ensures id in keys
      ensures histories == old(histories)[id := []]
    {
      AddOne(rooms, texts, histories, id, Room(HashOf(token), true, now, now + ttlMs, now + hardTtlMs));
      rooms := rooms[id := Room(HashOf(token), true, now, now + ttlMs, now + hardTtlMs)];
      histories := histories[id := []];
      var _ := RememberKey(id, token);
    }

    /** requireAuthorized: a matching token or a valid ticket opens the room and renews its
        lease; a matching token also brings the key back. */
    method Authorize(id: RoomId, credential: Credential, now: int) returns (status: nat)
      requires Valid()
      modifies this`rooms, this`keys, keys.Values
      ensures Valid()
      ensures status != 404 <==>
        && id in old(rooms) && old(rooms)[id].active
        && now < old(rooms)[id].expiresAt && now < old(rooms)[id].hardExpiresAt
      ensures status == 200 ==> Renewed(old(rooms)[id], rooms[id], now, ttlMs)
      ensures status != 404 ==>
        (status == 200 <==> credential.ticketValid || credential.token == Some(old(rooms)[id].tokenHash.token))
      ensures status in {200, 401, 404}
      ensures rooms == if status == 200 then old(rooms)[id := Touched(old(rooms)[id], now, ttlMs)] else old(rooms)
      ensures status == 200 && credential.token == Some(old(rooms)[id].tokenHash.token) ==> id in keys
      ensures old(keys).Keys <= keys.Keys
    {
      if id !in rooms || !Live(rooms[id], now) {
        return 404;
      }
      var tokenAuthorized := credential.token.Some? && rooms[id].tokenHash == HashOf(credential.token.value);
      if !tokenAuthorized && !credential.ticketValid {
        return 401;
      }
      if tokenAuthorized {
        var _ := RememberKey(id, credential.token.value);
      }
      Touch(id, now);
      return 200;
    }

    method Touch(id: RoomId, now: int)
      requires Valid() && id in rooms
      modifies this`rooms
      ensures Valid() && rooms == old(rooms)[id := Touched(old(rooms)[id], now, ttlMs)]
    {
      TouchOne(rooms, texts, histories, id, Touched(rooms[id], now, ttlMs));
      rooms := rooms[id := Touched(rooms[id], now, ttlMs)];
      assert forall other | other in keys :: old(KeyOk(other));
    }

    /** readSharedText */
    method Read(id: RoomId) returns (reply: Reply)
      requires Valid() && id in rooms
      ensures reply == if id in texts && id !in keys then Rejected(503) else Ok(Current(id))
    {
      assert StoredAt(rooms, texts, histories, id);
      if id !in texts {
        return Ok(Text("", 0, rooms[id].createdAt));
      }
      if id !in keys {
        return Rejected(503);
      }
      assert KeyOk(id);
      var text := Decrypt(keys[id].bytes, texts[id]);
      return Ok(text.value);
    }

    /** A read returns the last text accepted before it. */
    method GetSharedText(id: RoomId, now: int) returns (reply: Reply)
      requires Valid()
      ensures !(id in rooms && Live(rooms[id], now)) ==> reply == Rejected(404)
      ensures id in rooms && Live(rooms[id], now) ==>
        reply == if id in texts && id !in keys then Rejected(503) else Ok(Current(id))
    {
      if id !in rooms || !Live(rooms[id], now) {
        return Rejected(404);
      }
      reply := Read(id);
    }

    /** The transaction of the repository: the second comparison; a failing insert is rolled
        back like a mismatch. */
    method ReplaceSharedText(id: RoomId, row: Row, expected: nat, fails: bool) returns (result: Replacement)
      modifies this`texts
      ensures result.Outdated? <==> expected != (if id in old(texts) then old(texts)[id].revision else 0)
      ensures result.Failed? <==> !result.Outdated? && fails
      ensures texts == if result.Replaced? then old(texts)[id := row] else old(texts)
    {
      var textsAtBegin := texts;
      var revision := if id in texts then texts[id].revision else 0;
      if revision != expected {
        return Outdated;
      }
      texts := texts[id := row];
      if fails {
        texts := textsAtBegin;
        return Failed;
      }
      return Replaced;
    }

    /** Accepted exactly when the expected revision is the current one; the history then grows
        by this text and the lease is renewed, and otherwise nothing changes.  Both
        comparisons run without an await between them, so the inner one never fails after
        the outer one has held. */
    method UpdateSharedText(id: RoomId, u: Update, nonce: seq<Byte>, fails: bool) returns (reply: Reply)
      requires Valid()
      modifies this`rooms, this`texts, this`histories
      ensures Valid()
      ensures !(id in old(rooms) && Live(old(rooms)[id], u.now)) ==> reply == Rejected(404)
      ensures id in old(rooms) && Live(old(rooms)[id], u.now) && id !in keys ==>
        reply == if id !in old(texts) && u.expected != 0 then Conflict(old(Current(id))) else Rejected(503)
      ensures id in old(rooms) && Live(old(rooms)[id], u.now) && id in keys ==>
        reply == if u.expected != |old(histories)[id]| then Conflict(old(Current(id)))
                 else if fails then Broken else Ok(Text(u.content, u.expected + 1, u.now))
      ensures reply.Ok? ==>
        && id in old(rooms) && u.expected == |old(histories)[id]|
        && histories == old(histories)[id := old(histories)[id] + [Text(u.content, u.expected + 1, u.now)]]
        && rooms == old(rooms)[id := Touched(old(rooms)[id], u.now, ttlMs)]
        && Renewed(old(rooms)[id], rooms[id], u.now, ttlMs)
      ensures !reply.Ok? ==> histories == old(histories) && texts == old(texts) && rooms == old(rooms)
    {
      if id !in rooms || !Live(rooms[id], u.now) {
        return Rejected(404);
      }
      reply := Read(id);
      assert StoredAt(rooms, texts, histories, id);
      if reply.Rejected? {
        return;
      }
      var current := reply.text;
      if current.revision != u.expected {
        return Conflict(current);
      }
      if id !in keys {
        return Rejected(503);
      }
      reply := Store(id, u, nonce, current, fails);
      if reply.Ok? {
        Touch(id, u.now);
      }
    }

    method Store(id: RoomId, u: Update, nonce: seq<Byte>, current: Text, fails: bool) returns (reply: Reply)
      requires Valid() && id in rooms && id in keys && current == Current(id) && current.revision == u.expected
      modifies this`texts, this`histories
      ensures Valid() && reply == if fails then Broken else Ok(Text(u.content, u.expected + 1, u.now))
      ensures u.expected == |old(histories)[id]|
      ensures reply.Ok? ==> histories == old(histories)[id := Applied(old(histories)[id], u)]
      ensures !reply.Ok? ==> histories == old(histories) && texts == old(texts)
    {
      assert KeyOk(id) && StoredAt(rooms, texts, histories, id);
      var updated := Text(u.content, current.revision + 1, u.now);
      var row := Encrypt(keys[id].bytes, id, updated, nonce);
      SealedIsStored(id, rooms[id].tokenHash.token, histories[id], u, nonce);
      StoreOne(rooms, texts, histories, id, row, histories[id] + [updated]);
      var result := ReplaceSharedText(id, row, u.expected, fails);
      match result
      case Replaced =>
        histories := histories[id := histories[id] + [updated]];
        return Ok(updated);
      case Failed => return Broken;
      case Outdated => return Conflict(current);
    }

    /** The first segment of deleteRoom and of the sweep. */
    method CloseRoom(id: RoomId)
      requires Valid() && id in rooms
      modifies this`rooms
      ensures Valid() && rooms == old(rooms)[id := old(rooms)[id].(active := false)]
    {
      TouchOne(rooms, texts, histories, id, rooms[id].(active := false));
      rooms := rooms[id := rooms[id].(active := false)];
      assert forall other | other in keys :: old(KeyOk(other));
    }

    /** The last segment: rows are deleted with the room, and the key is wiped. */
    method PurgeRoom(id: RoomId)
      requires Valid() && id in rooms
      modifies this, keys.Values
      ensures Valid() && rooms == old(rooms) - {id} && histories == old(histories) - {id}
      ensures id !in keys && (id in old(keys) ==> old(keys)[id].bytes == Zeros)
    {
      DropOne(rooms, texts, histories, id);
      rooms, texts, histories := rooms - {id}, texts - {id}, histories - {id};
      ForgetKey(id);
      assert forall other | other in keys :: old(KeyOk(other));
    }

    /** close and a new start: texts survive, keys do not. */
    method Restart()
      requires Valid()
      modifies this`keys, keys.Values
      ensures Valid() && keys == map[] && histories == old(histories)
      ensures forall id | id in old(keys) :: old(keys)[id].bytes == Zeros
    {
      var todo := keys.Keys;
      while todo != {}
        invariant todo <= keys.Keys && keys == old(keys)
        invariant forall id | id in keys && id !in todo :: keys[id].bytes == Zeros
        decreases |todo|
      {
        var id :| id in todo;
        keys[id].Zeroize();
        todo := todo - {id};
      }
      keys := map[];
    }
  }
}
