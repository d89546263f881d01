/** `ConnectionManager` (app.py): the process-wide tables of the engine and the
    operations on them. Sends are not performed; a broadcast returns the list
    of deliveries it would make. */
module Manager {
  import opened Wrappers
  import opened Values
  import opened Seqs
  import opened Board
  import opened Registry
  import opened Wire

  /** What `disconnect` does: returns the nickname, returns `None`, or raises
      `KeyError` from `del user_info[user_id]` after the member entry is gone. */
  datatype Departure = Removed(nickname: string) | Absent | UserInfoMissing

  /** The sends of `broadcast(room_id, msg, exclude)` against member tables `rooms`. */
  function Outbox(rooms: map<RoomId, Members>, roomId: RoomId, msg: Event, exclude: Option<UserId>): (out: seq<Send>)
    requires roomId in rooms ==> rooms[roomId].Valid()
    ensures roomId !in rooms ==> out == []
  {
    if roomId in rooms then Fanout(rooms[roomId].order, rooms[roomId].conns, msg, exclude) else []
  }

  /** The room contents after `add_stroke(room_id, stroke)`. */
  function WithStroke(data: map<RoomId, RoomState>, roomId: RoomId, stroke: Stroke): (r: map<RoomId, RoomState>)
    ensures r.Keys == data.Keys
    ensures forall q :: q in data && q != roomId ==> r[q] == data[q]
    ensures roomId in data ==> r[roomId].strokes == data[roomId].strokes + [stroke] && r[roomId].(strokes := data[roomId].strokes) == data[roomId]
  {
    if roomId in data then data[roomId := data[roomId].(strokes := data[roomId].strokes + [stroke])] else data
  }

  /** The room contents after `add_layer(room_id, layer)`. */
  function WithLayer(data: map<RoomId, RoomState>, roomId: RoomId, layer: Layer): (r: map<RoomId, RoomState>)
    ensures r.Keys == data.Keys
    ensures forall q :: q in data && q != roomId ==> r[q] == data[q]
    ensures roomId in data ==> r[roomId].layers == data[roomId].layers + [layer] && r[roomId].(layers := data[roomId].layers) == data[roomId]
  {
    if roomId in data then data[roomId := data[roomId].(layers := data[roomId].layers + [layer])] else data
  }

  /** The room contents after `clear_layer(room_id, layer_id)`. */
  function WithCleared(data: map<RoomId, RoomState>, roomId: RoomId, layerId: Json): (r: map<RoomId, RoomState>)
    ensures r.Keys == data.Keys
    ensures forall q :: q in data && q != roomId ==> r[q] == data[q]
    ensures roomId in data ==> r[roomId].strokes == WithoutLayer(data[roomId].strokes, layerId) && r[roomId].(strokes := data[roomId].strokes) == data[roomId]
  {
    if roomId in data then data[roomId := data[roomId].(strokes := WithoutLayer(data[roomId].strokes, layerId))] else data
  }

  /** Clearing a layer of a room twice is clearing it once. */
  lemma ClearTwiceIsClearOnce(data: map<RoomId, RoomState>, roomId: RoomId, layerId: Json)
    ensures WithCleared(WithCleared(data, roomId, layerId), roomId, layerId) == WithCleared(data, roomId, layerId)
  {
    if roomId in data {
      ClearLayerIdempotent(data[roomId].strokes, layerId);
    }
  }

  /** What `remove_last_stroke(room_id, user_id)` returns. */
  function UndoneIn(data: map<RoomId, RoomState>, roomId: RoomId, userId: UserId): (r: Option<Stroke>)
    ensures roomId !in data ==> r == None
  {
    if roomId in data then Undo(data[roomId].strokes, userId).removed else None
  }

  /** The room contents after `remove_last_stroke(room_id, user_id)`. */
  function WithUndo(data: map<RoomId, RoomState>, roomId: RoomId, userId: UserId): (r: map<RoomId, RoomState>)
    ensures r.Keys == data.Keys
    ensures forall q :: q in data && q != roomId ==> r[q] == data[q]
    ensures roomId in data ==> r[roomId].strokes == Undo(data[roomId].strokes, userId).rest && r[roomId].(strokes := data[roomId].strokes) == data[roomId]
  {
    if roomId in data then data[roomId := data[roomId].(strokes := Undo(data[roomId].strokes, userId).rest)] else data
  }

  /** The contents of a table of room records. */
  ghost function Contents(records: map<RoomId, Room>): (data: map<RoomId, RoomState>)
    reads records.Values
  {
    map r | r in records :: records[r].State()
  }

  class ConnectionManager {
    /** room id -> (user id -> connection), both in insertion order. */
    var rooms: map<RoomId, Members>
    /** user id -> nickname and room. */
    var userInfo: map<UserId, UserInfo>
    /** room id -> room record. */
    var roomData: map<RoomId, Room>

    /** Every member table is well formed, every room with a member table has a
        record, and no record is shared between two room ids. */
    ghost predicate Valid()
      reads this
    {
      && (forall r :: r in rooms ==> rooms[r].Valid())
      && rooms.Keys <= roomData.Keys
      && (forall a, b :: a in roomData && b in roomData && a != b ==> roomData[a] != roomData[b])
    }

    /** The contents of every room record. */
    ghost function Data(): (data: map<RoomId, RoomState>)
      reads this, roomData.Values
    {
      Contents(roomData)
    }

    /** `rooms.get(room_id, {})`. */
    function MembersOf(roomId: RoomId): (m: Members)
      reads this
      ensures roomId !in rooms ==> m == NoMembers
    {
      if roomId in rooms then rooms[roomId] else NoMembers
    }

    /** `user_id` has a live entry in room `room_id`'s member table. */
    predicate IsConnected(roomId: RoomId, userId: UserId)
      reads this
    {
      roomId in rooms && userId in rooms[roomId].conns
    }

    /** An empty manager: no rooms, no users, no records. */
    constructor ()
      ensures Valid()
      ensures rooms == map[] && userInfo == map[] && roomData == map[]
    {
      rooms, userInfo, roomData := map[], map[], map[];
    }

    /** `get_room_users`: the members of the room in join order, each with the
        recorded nickname or "Anonymous"; an unknown room has none. */
    method RoomUsers(roomId: RoomId) returns (users: seq<UserEntry>)
      ensures users == Roster(MembersOf(roomId), userInfo)
    {
      var m := MembersOf(roomId);
      users := [];
      for i := 0 to |m.order|
        invariant |users| == i
        invariant forall k :: 0 <= k < i ==> users[k] == UserEntry(m.order[k], NicknameOf(userInfo, m.order[k]))
      {
        var uid := m.order[i];
        var nickname := if uid in userInfo then userInfo[uid].nickname else "Anonymous";
        users := users + [UserEntry(uid, nickname)];
      }
    }

    /** `broadcast`: for a known room, one send of `msg` per member in join order,
        skipping `exclude`; for an unknown room, nothing. */
    method Broadcast(roomId: RoomId, msg: Event, exclude: Option<UserId>) returns (out: seq<Send>)
      requires Valid()
      ensures out == Outbox(rooms, roomId, msg, exclude)
    {
      if roomId !in rooms {
        return [];
      }
      var m := rooms[roomId];
      out := [];
      for i := 0 to |m.order|
        invariant out == Fanout(m.order[..i], m.conns, msg, exclude)
      {
        var uid := m.order[i];
        assert m.order[..i + 1][..i] == m.order[..i];
        if Some(uid) != exclude {
          out := out + [Delivery(uid, m.conns[uid], msg)];
        }
      }
      assert m.order[..|m.order|] == m.order;
    }

    /** The first step of `connect`: a room id without a member table gets an
        empty table and a fresh record with the background layer, replacing
        whatever record it had; a room id with a table is left as it is. */
    method OpenRoom(roomId: RoomId, now: Json)
      requires Valid()
      modifies this
      ensures Valid()
      ensures roomId in rooms && roomId in roomData
      ensures userInfo == old(userInfo)
      ensures roomId in old(rooms) ==> rooms == old(rooms) && roomData == old(roomData) && Data() == old(Data())
      ensures roomId !in old(rooms) ==>
        && rooms == old(rooms)[roomId := NoMembers]
        && fresh(roomData[roomId])
        && roomData == old(roomData)[roomId := roomData[roomId]]
        && Data() == old(Data())[roomId := FreshRoom(roomId, now)]
    {
      if roomId !in rooms {
        rooms := rooms[roomId := NoMembers];
        var room := new Room(FreshRoom(roomId, now));
        roomData := roomData[roomId := room];
        assert Data() == old(Data())[roomId := FreshRoom(roomId, now)];
      }
    }

    /** The state part of `connect`: `OpenRoom`, then the user is put in the
        room's member table and recorded in `user_info`. */
    method Admit(conn: Conn, roomId: RoomId, userId: UserId, nickname: string, now: Json)
      requires Valid()
      modifies this
      ensures Valid()
      ensures rooms == old(rooms)[roomId := Put(old(MembersOf(roomId)), userId, conn)]
      ensures userInfo == old(userInfo)[userId := UserInfo(nickname, roomId)]
      ensures roomId in roomData
      ensures roomId in old(rooms) ==> roomData == old(roomData) && Data() == old(Data())
      ensures roomId !in old(rooms) ==>
        && fresh(roomData[roomId])
        && roomData == old(roomData)[roomId := roomData[roomId]]
        && Data() == old(Data())[roomId := FreshRoom(roomId, now)]
    {
      ghost var members := MembersOf(roomId);
      OpenRoom(roomId, now);
      assert rooms[roomId] == members;
      ghost var afterOpen := rooms;
      Register(conn, roomId, userId, nickname);
      assert rooms == afterOpen[roomId := Put(members, userId, conn)];
    }

    /** The second step of `connect`: `rooms[room_id][user_id] = websocket` and
        `user_info[user_id] = {nickname, room_id}`. */
    method Register(conn: Conn, roomId: RoomId, userId: UserId, nickname: string)
      requires Valid() && roomId in rooms
      modifies this
      ensures Valid()
      ensures rooms == old(rooms)[roomId := Put(old(rooms[roomId]), userId, conn)]
      ensures userInfo == old(userInfo)[userId := UserInfo(nickname, roomId)]
      ensures roomData == old(roomData) && Data() == old(Data())
    {
      rooms := rooms[roomId := Put(rooms[roomId], userId, conn)];
      userInfo := userInfo[userId := UserInfo(nickname, roomId)];
    }

    /** `connect`, after the socket is accepted: `Admit`, then the other members
        are told with `user_joined` and the new user is sent `init` with the
        room's layers, strokes and members. */
    method Connect(conn: Conn, roomId: RoomId, userId: UserId, nickname: string, now: Json) returns (out: seq<Send>)
      requires Valid()
      modifies this
      ensures Valid()
      ensures rooms == old(rooms)[roomId := Put(old(MembersOf(roomId)), userId, conn)]
      ensures userInfo == old(userInfo)[userId := UserInfo(nickname, roomId)]
      ensures roomId in roomData
      ensures roomId in old(rooms) ==> roomData == old(roomData) && Data() == old(Data())
      ensures roomId !in old(rooms) ==>
        && fresh(roomData[roomId])
        && roomData == old(roomData)[roomId := roomData[roomId]]
        && Data() == old(Data())[roomId := FreshRoom(roomId, now)]
      ensures var users := Roster(rooms[roomId], userInfo); var room := Data()[roomId];
        out == Outbox(rooms, roomId, UserJoined(userId, nickname, users), Some(userId))
               + [Delivery(userId, conn, Init(room.id, room.layers, room.strokes, users))]
    {
      Admit(conn, roomId, userId, nickname, now);
      var users := RoomUsers(roomId);
      var joined := Broadcast(roomId, UserJoined(userId, nickname, users), Some(userId));
      var room := roomData[roomId];
      users := RoomUsers(roomId);
      out := joined + [Delivery(userId, conn, Init(room.id, room.layers, room.strokes, users))];
    }

    /** `disconnect`: a connected user leaves the member table and `user_info`,
        and their nickname is returned; anybody else gets `None` and nothing
        changes, so a second disconnect is a no-op. */
    method Disconnect(roomId: RoomId, userId: UserId) returns (result: Departure)
      requires Valid()
      modifies this
      ensures Valid()
      ensures roomData == old(roomData)
      ensures !IsConnected(roomId, userId)
      ensures old(IsConnected(roomId, userId)) ==>
        && rooms == old(rooms)[roomId := Delete(old(rooms[roomId]), userId)]
        && userInfo == old(userInfo) - {userId}
        && result == if userId in old(userInfo) then Removed(old(userInfo[userId].nickname)) else UserInfoMissing
      ensures !old(IsConnected(roomId, userId)) ==>
        result == Absent && rooms == old(rooms) && userInfo == old(userInfo)
    {
      if roomId in rooms && userId in rooms[roomId].conns {
        rooms := rooms[roomId := Delete(rooms[roomId], userId)];
        if userId !in userInfo {
          return UserInfoMissing;
        }
        var nickname := userInfo[userId].nickname;
        userInfo := userInfo - {userId};
        return Removed(nickname);
      }
      return Absent;
    }

    /** `add_stroke`: a known room's log gains `stroke` at its end; nothing else
        changes, and an unknown room changes nothing. */
    method AddStroke(roomId: RoomId, stroke: Stroke)
      requires Valid()
      modifies roomData.Values
      ensures Data() == WithStroke(old(Data()), roomId, stroke)
    {
      if roomId in roomData {
        var room := roomData[roomId];
        room.strokes := room.strokes + [stroke];
        assert Data() == old(Data())[roomId := room.State()];
      }
    }

    /** `remove_last_stroke`: scans a known room's log from the end and pops
        the first stroke `userId` authored, returning it; `None` if the room is
        unknown or the user has no stroke left, with nothing changed. */
    method RemoveLastStroke(roomId: RoomId, userId: UserId) returns (removed: Option<Stroke>)
      requires Valid()
      modifies roomData.Values
      ensures removed == UndoneIn(old(Data()), roomId, userId)
      ensures Data() == WithUndo(old(Data()), roomId, userId)
    {
      if roomId !in roomData {
        return None;
      }
      var room := roomData[roomId];
      var i := |room.strokes| - 1;
      while i >= 0
        invariant -1 <= i < |room.strokes|
        invariant forall j :: i < j < |room.strokes| ==> room.strokes[j].userId != userId
        invariant Data() == old(Data())
      {
        if room.strokes[i].userId == userId {
          NewestIsUnique(room.strokes, userId, i, NewestBy(room.strokes, userId).value);
          removed := Some(room.strokes[i]);
          room.strokes := RemoveAt(room.strokes, i);
          assert Data() == old(Data())[roomId := room.State()];
          return;
        }
        i := i - 1;
      }
      return None;
    }

    /** `add_layer`: a known room's layer list gains `layer` at its end; nothing
        else changes, and an unknown room changes nothing. */
    method AddLayer(roomId: RoomId, layer: Layer)
      requires Valid()
      modifies roomData.Values
      ensures Data() == WithLayer(old(Data()), roomId, layer)
    {
      if roomId in roomData {
        var room := roomData[roomId];
        room.layers := room.layers + [layer];
        assert Data() == old(Data())[roomId := room.State()];
      }
    }

    /** `clear_layer`: a known room keeps exactly the strokes not on `layerId`,
        in order, and its layers; an unknown room changes nothing. */
    method ClearLayer(roomId: RoomId, layerId: Json)
      requires Valid()
      modifies roomData.Values
      ensures Data() == WithCleared(old(Data()), roomId, layerId)
    {
      if roomId in roomData {
        var room := roomData[roomId];
        room.strokes := WithoutLayer(room.strokes, layerId);
        assert Data() == old(Data())[roomId := room.State()];
      }
    }
  }
}
