/**
 * The connector's in-memory session registry, as values.
 *
 * A registry maps room names to room records; a room record holds its own
 * name, a feature map and its participants keyed by participant id.  Each
 * function below says what the registry is after one registry operation of
 * the connector (create_room, join_room, leave_room, configure_room,
 * toggle_participant_feature) or what a getter returns; the class
 * `Connector.JitsiConnector` performs these operations in place and is
 * proved to agree with them.
 */
module Registry {
  import opened Wrappers

  type Features = map<string, bool>

  /** The feature set every new room and every new participant starts with. */
  const Baseline: Features := map["video" := true, "audio" := true, "chat" := true]

  datatype Participant = Participant(id: string, name: string, features: Features)

  datatype Room = Room(roomName: string, features: Features, participants: map<string, Participant>)

  type Rooms = map<string, Room>

  /** The result of an operation that reports success as a boolean. */
  datatype Outcome = Outcome(ok: bool, rooms: Rooms)

  /** A feature map keeps at least the baseline keys. */
  predicate HasBaseline(f: Features) {
    Baseline.Keys <= f.Keys
  }

  /** A room is filed under its own name, and every participant under its own id. */
  predicate ValidRoom(name: string, room: Room) {
    && room.roomName == name
    && HasBaseline(room.features)
    && forall id :: id in room.participants ==>
         room.participants[id].id == id && HasBaseline(room.participants[id].features)
  }

  predicate ValidRooms(rooms: Rooms) {
    forall name :: name in rooms ==> ValidRoom(name, rooms[name])
  }

  /** `updated` is `before` with `updates` merged in key by key (Python's dict.update). */
  predicate MergedKeyByKey(before: Features, updates: Features, updated: Features) {
    && updated.Keys == before.Keys + updates.Keys
    && (forall k :: k in updates ==> updated[k] == updates[k])
    && (forall k :: k in before && k !in updates ==> updated[k] == before[k])
  }

  /** Python's slice `s[:n]`: the whole string when it is shorter than n. */
  function Take(s: string, n: nat): (r: string)
    ensures |r| == if |s| <= n then |s| else n
    ensures r <= s
  {
    if |s| <= n then s else s[..n]
  }

  /** The name create_room gives a room when none is supplied: the prefix
      followed by the first eight characters of a generated identifier. */
  function AutoRoomName(prefix: string, uuid: string): (name: string)
    ensures |name| == |prefix| + (if |uuid| <= 8 then |uuid| else 8)
    ensures name[..|prefix|] == prefix
    ensures name[|prefix|..] <= uuid
  {
    prefix + Take(uuid, 8)
  }

  function NewRoom(name: string): Room {
    Room(name, Baseline, map[])
  }

  function NewParticipant(id: string, name: string): Participant {
    Participant(id, name, Baseline)
  }

  /** create_room(name): a fresh room with the baseline features and no
      participants is filed under `name`; every other room is untouched. */
  function Create(rooms: Rooms, name: string): (r: Rooms)
    ensures r.Keys == rooms.Keys + {name}
    ensures r[name].roomName == name && r[name].features == Baseline && r[name].participants == map[]
    ensures forall other :: other in rooms && other != name ==> r[other] == rooms[other]
    ensures ValidRooms(rooms) ==> ValidRooms(r)
  {
    rooms[name := NewRoom(name)]
  }

  /** join_room(roomName, participantName) with generated id `id`: the room is
      created first when unknown, then the participant is filed under `id`. */
  function Join(rooms: Rooms, roomName: string, participantName: string, id: string): (r: Rooms)
    ensures r.Keys == rooms.Keys + {roomName}
    ensures id in r[roomName].participants
    ensures r[roomName].participants[id] == Participant(id, participantName, Baseline)
    ensures roomName !in rooms ==>
              r[roomName].roomName == roomName && r[roomName].features == Baseline
              && r[roomName].participants.Keys == {id}
    ensures roomName in rooms ==>
              && r[roomName].roomName == rooms[roomName].roomName
              && r[roomName].features == rooms[roomName].features
              && r[roomName].participants.Keys == rooms[roomName].participants.Keys + {id}
              && forall other :: other in rooms[roomName].participants && other != id ==>
                   r[roomName].participants[other] == rooms[roomName].participants[other]
    ensures forall other :: other in rooms && other != roomName ==> r[other] == rooms[other]
  {
    var room := if roomName in rooms then rooms[roomName] else NewRoom(roomName);
    rooms[roomName := room.(participants := room.participants[id := NewParticipant(id, participantName)])]
  }

  /** join_room keeps every room filed under its name and every participant
      under its id, with the baseline keys present. */
  lemma JoinPreservesValid(rooms: Rooms, roomName: string, participantName: string, id: string)
    requires ValidRooms(rooms)
    ensures ValidRooms(Join(rooms, roomName, participantName, id))
  {
  }

  /** leave_room(roomName, id): fails on an unknown room or participant and
      then changes nothing; otherwise removes the participant, and removes the
      room too when that participant was its only one. */
  function Leave(rooms: Rooms, roomName: string, id: string): (o: Outcome)
    ensures o.ok <==> roomName in rooms && id in rooms[roomName].participants
    ensures !o.ok ==> o.rooms == rooms
    ensures o.ok ==> (roomName in o.rooms <==> rooms[roomName].participants.Keys != {id})
    ensures o.ok && roomName in o.rooms ==>
              o.rooms[roomName] == rooms[roomName].(participants := rooms[roomName].participants - {id})
    ensures o.rooms.Keys <= rooms.Keys
    ensures forall other :: other in rooms && other != roomName ==> other in o.rooms && o.rooms[other] == rooms[other]
    ensures ValidRooms(rooms) ==> ValidRooms(o.rooms)
  {
    if roomName !in rooms || id !in rooms[roomName].participants then
      Outcome(false, rooms)
    else
      var room := rooms[roomName];
      var remaining := room.participants - {id};
      assert remaining.Keys == room.participants.Keys - {id};
      if remaining == map[] then
        assert room.participants.Keys == {id} by {
          assert remaining.Keys == {};
        }
        Outcome(true, rooms - {roomName})
      else
        Outcome(true, rooms[roomName := room.(participants := remaining)])
  }

  /** configure_room(roomName, updates): fails on an unknown room; otherwise
      merges `updates` into the room's features key by key. */
  function Configure(rooms: Rooms, roomName: string, updates: Features): (o: Outcome)
    ensures o.ok <==> roomName in rooms
    ensures !o.ok ==> o.rooms == rooms
    ensures o.ok ==>
              && o.rooms.Keys == rooms.Keys
              && o.rooms[roomName].roomName == rooms[roomName].roomName
              && o.rooms[roomName].participants == rooms[roomName].participants
              && MergedKeyByKey(rooms[roomName].features, updates, o.rooms[roomName].features)
    ensures forall other :: other in rooms && other != roomName ==> o.rooms[other] == rooms[other]
    ensures ValidRooms(rooms) ==> ValidRooms(o.rooms)
  {
    if roomName !in rooms then
      Outcome(false, rooms)
    else
      var room := rooms[roomName];
      Outcome(true, rooms[roomName := room.(features := room.features + updates)])
  }

  /** toggle_participant_feature(roomName, id, key, value): fails on an
      unknown room or participant; otherwise sets exactly that participant's
      feature `key` to `value`. */
  function Toggle(rooms: Rooms, roomName: string, id: string, key: string, value: bool): (o: Outcome)
    ensures o.ok <==> roomName in rooms && id in rooms[roomName].participants
    ensures !o.ok ==> o.rooms == rooms
    ensures o.ok ==> o.rooms.Keys == rooms.Keys
    ensures o.ok ==>
              var before := rooms[roomName];
              var after := o.rooms[roomName];
              && after.roomName == before.roomName
              && after.features == before.features
              && after.participants.Keys == before.participants.Keys
              && (forall other :: other in before.participants && other != id ==>
                    after.participants[other] == before.participants[other])
              && after.participants[id].id == before.participants[id].id
              && after.participants[id].name == before.participants[id].name
              && MergedKeyByKey(before.participants[id].features, map[key := value], after.participants[id].features)
    ensures forall other :: other in rooms && other != roomName ==> o.rooms[other] == rooms[other]
    ensures ValidRooms(rooms) ==> ValidRooms(o.rooms)
  {
    if roomName !in rooms || id !in rooms[roomName].participants then
      Outcome(false, rooms)
    else
      var room := rooms[roomName];
      var p := room.participants[id];
      var p' := p.(features := p.features[key := value]);
      Outcome(true, rooms[roomName := room.(participants := room.participants[id := p'])])
  }

  /** get_room_info(roomName): the room record, or the absent-marker. */
  function RoomInfo(rooms: Rooms, roomName: string): (r: Option<Room>)
    ensures r.Some? <==> roomName in rooms
    ensures r.Some? ==> r.value == rooms[roomName]
  {
    if roomName in rooms then Some(rooms[roomName]) else None
  }

  /** get_participant_info(roomName, id): the participant record, or the
      absent-marker when the room or the participant is unknown. */
  function ParticipantInfo(rooms: Rooms, roomName: string, id: string): (r: Option<Participant>)
    ensures r.Some? <==> roomName in rooms && id in rooms[roomName].participants
    ensures r.Some? ==> r.value == rooms[roomName].participants[id]
  {
    if roomName in rooms && id in rooms[roomName].participants then
      Some(rooms[roomName].participants[id])
    else
      None
  }

  /** Several participants joining one room in turn, with ids `ids`. */
  function JoinAll(rooms: Rooms, roomName: string, names: seq<string>, ids: seq<string>): Rooms
    requires |names| == |ids|
    decreases |ids|
  {
    if ids == [] then rooms
    else JoinAll(Join(rooms, roomName, names[0], ids[0]), roomName, names[1..], ids[1..])
  }

  /** The participant ids a room holds, or none when the room is absent. */
  function ParticipantIds(rooms: Rooms, roomName: string): set<string> {
    if roomName in rooms then rooms[roomName].participants.Keys else {}
  }

  predicate Distinct(ids: seq<string>) {
    forall i, j :: 0 <= i < j < |ids| ==> ids[i] != ids[j]
  }

  // ---------------------------------------------------------------------
  // Properties relating the operations

  /** The generated name of the recorded scenario: prefix "test-" and
      identifier "12345678-90ab-…" give "test-12345678". */
  lemma AutoRoomNameExample()
    ensures AutoRoomName("test-", "12345678-90ab-cdef-ghij-klmnopqrstuv") == "test-12345678"
  {
    var uuid := "12345678-90ab-cdef-ghij-klmnopqrstuv";
    assert |uuid| > 8;
    assert Take(uuid, 8) == uuid[..8] == "12345678";
  }

  /** create_room on an empty registry leaves exactly one room. */
  lemma CreateOnEmpty(name: string)
    ensures Create(map[], name).Keys == {name}
  {
  }

  /** What create_room returns is what get_room_info returns afterwards. */
  lemma CreateThenRoomInfo(rooms: Rooms, name: string)
    ensures RoomInfo(Create(rooms, name), name) == Some(Room(name, Baseline, map[]))
  {
  }

  /** What join_room returns is what get_participant_info returns afterwards. */
  lemma JoinThenParticipantInfo(rooms: Rooms, roomName: string, participantName: string, id: string)
    ensures ParticipantInfo(Join(rooms, roomName, participantName, id), roomName, id)
            == Some(Participant(id, participantName, Baseline))
  {
  }

  /** A participant with a fresh id who joins and then leaves restores the
      registry, except that a room that was empty before the join is gone
      afterwards (leaving empties it, and empty rooms are removed). */
  lemma {:induction false} JoinThenLeave(rooms: Rooms, roomName: string, participantName: string, id: string)
    requires id !in ParticipantIds(rooms, roomName)
    ensures Leave(Join(rooms, roomName, participantName, id), roomName, id)
            == Outcome(true, if roomName in rooms && rooms[roomName].participants == map[]
                             then rooms - {roomName} else rooms)
  {
    var joined := Join(rooms, roomName, participantName, id);
    var o := Leave(joined, roomName, id);
    assert o.ok;
    if roomName in rooms {
      var room := rooms[roomName];
      var remaining := joined[roomName].participants - {id};
      assert remaining == room.participants;
      if room.participants == map[] {
        assert o.rooms == rooms - {roomName};
      } else {
        assert joined[roomName].(participants := remaining) == room;
        assert o.rooms == rooms;
      }
    } else {
      assert joined[roomName].participants.Keys == {id};
      assert o.rooms == rooms;
    }
  }

  /** The scenario of the last participant leaving: create a room, join it,
      leave it, and the registry is empty again. */
  lemma LastParticipantLeaves(roomName: string, participantName: string, id: string)
    ensures Leave(Join(Create(map[], roomName), roomName, participantName, id), roomName, id)
            == Outcome(true, map[])
  {
    JoinThenLeave(Create(map[], roomName), roomName, participantName, id);
  }

  /** join_room adds exactly the new id to the room's participant ids. */
  lemma JoinIds(rooms: Rooms, roomName: string, participantName: string, id: string)
    ensures ParticipantIds(Join(rooms, roomName, participantName, id), roomName)
            == ParticipantIds(rooms, roomName) + {id}
  {
  }

  /** The ids of a sequence, as a set. */
  function IdSet(ids: seq<string>): set<string> {
    set i | 0 <= i < |ids| :: ids[i]
  }

  lemma IdSetCons(ids: seq<string>)
    requires ids != []
    ensures IdSet(ids) == {ids[0]} + IdSet(ids[1..])
  {
    var tail := ids[1..];
    forall x | x in IdSet(ids) ensures x in {ids[0]} + IdSet(tail) {
      var i :| 0 <= i < |ids| && ids[i] == x;
      if i > 0 { assert tail[i - 1] == x; }
    }
    forall x | x in IdSet(tail) ensures x in IdSet(ids) {
      var i :| 0 <= i < |tail| && tail[i] == x;
      assert ids[i + 1] == x;
    }
  }

  /** A sequence of distinct ids has as many ids as its set has elements. */
  lemma {:induction false} DistinctIdSetSize(ids: seq<string>)
    requires Distinct(ids)
    ensures |IdSet(ids)| == |ids|
    decreases |ids|
  {
    if ids == [] {
      assert IdSet(ids) == {};
    } else {
      var tail := ids[1..];
      forall i, j | 0 <= i < j < |tail| ensures tail[i] != tail[j] {
        assert tail[i] == ids[i + 1] && tail[j] == ids[j + 1];
      }
      DistinctIdSetSize(tail);
      IdSetCons(ids);
      forall i | 0 <= i < |tail| ensures tail[i] != ids[0] {
        assert tail[i] == ids[i + 1];
      }
      assert ids[0] !in IdSet(tail);
    }
  }

  /** After a run of joins the room holds its earlier ids plus the joined ones. */
  lemma {:induction false} JoinAllIds(rooms: Rooms, roomName: string, names: seq<string>, ids: seq<string>)
    requires |names| == |ids|
    ensures ParticipantIds(JoinAll(rooms, roomName, names, ids), roomName)
            == ParticipantIds(rooms, roomName) + IdSet(ids)
    decreases |ids|
  {
    if ids == [] {
      assert IdSet(ids) == {};
    } else {
      JoinIds(rooms, roomName, names[0], ids[0]);
      JoinAllIds(Join(rooms, roomName, names[0], ids[0]), roomName, names[1..], ids[1..]);
      IdSetCons(ids);
    }
  }

  /** Participants joining one room with distinct fresh ids all end up in it,
      so the room has as many more participants as there were joins. */
  lemma JoinAllDistinct(rooms: Rooms, roomName: string, names: seq<string>, ids: seq<string>)
    requires |names| == |ids|
    requires Distinct(ids)
    requires forall i :: 0 <= i < |ids| ==> ids[i] !in ParticipantIds(rooms, roomName)
    ensures |ParticipantIds(JoinAll(rooms, roomName, names, ids), roomName)|
            == |ParticipantIds(rooms, roomName)| + |ids|
  {
    JoinAllIds(rooms, roomName, names, ids);
    DistinctIdSetSize(ids);
    var before := ParticipantIds(rooms, roomName);
    assert before !! IdSet(ids);
    assert |before + IdSet(ids)| == |before| + |IdSet(ids)|;
  }

  /** The recorded configure_room scenario: video and chat switched off, polls
      added, audio kept. */
  lemma ConfigureExample(name: string)
    ensures Configure(Create(map[], name), name, map["video" := false, "chat" := false, "polls" := true])
            == Outcome(true, map[name := Room(name,
                 map["video" := false, "audio" := true, "chat" := false, "polls" := true], map[])])
  {
    var updates := map["video" := false, "chat" := false, "polls" := true];
    var expected := map["video" := false, "audio" := true, "chat" := false, "polls" := true];
    var o := Configure(Create(map[], name), name, updates);
    assert o.rooms.Keys == {name};
    var f := o.rooms[name].features;
    assert f.Keys == expected.Keys;
    assert f["audio"] == true;
    assert f == expected;
    assert o.rooms[name] == Room(name, expected, map[]);
  }

  /** Setting a participant feature twice to the same value is the same as
      setting it once. */
  lemma ToggleIdempotent(rooms: Rooms, roomName: string, id: string, key: string, value: bool)
    ensures Toggle(Toggle(rooms, roomName, id, key, value).rooms, roomName, id, key, value)
            == Toggle(rooms, roomName, id, key, value)
  {
    var once := Toggle(rooms, roomName, id, key, value);
    if once.ok {
      var p := once.rooms[roomName].participants[id];
      assert p.features[key := value] == p.features;
      assert p.(features := p.features[key := value]) == p;
      assert once.rooms[roomName].participants[id := p] == once.rooms[roomName].participants;
      assert once.rooms[roomName := once.rooms[roomName]] == once.rooms;
    }
  }

  /** Merging the same updates twice is the same as merging them once. */
  lemma ConfigureIdempotent(rooms: Rooms, roomName: string, updates: Features)
    ensures Configure(Configure(rooms, roomName, updates).rooms, roomName, updates)
            == Configure(rooms, roomName, updates)
  {
    var once := Configure(rooms, roomName, updates);
    if once.ok {
      var room := once.rooms[roomName];
      assert room.features + updates == room.features;
      assert once.rooms[roomName := room.(features := room.features + updates)] == once.rooms;
    }
  }
}
