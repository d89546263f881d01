/** The message dispatcher `handle_message` and the session steps of the
    websocket endpoint, as steps over a `ConnectionManager`. */
module Dispatch {
  import opened Wrappers
  import opened Values
  import opened Board
  import opened Registry
  import opened Wire
  import opened Manager

  /** How a step ends: with the sends it made, or with a `KeyError` for `key`. */
  datatype Outcome = Handled(out: seq<Send>) | Raised(key: string)

  /** `handle_message(room_id, user_id, data)`: decode `data` against the
      session, apply the one mutation it names to the room's record, and
      broadcast the one matching event. A stroke and a cursor are echoed to
      everyone but the sender; a removed stroke, a new layer and a cleared layer
      go to everyone; an undo that removes nothing sends nothing; an unknown tag
      does nothing; a missing required field raises before anything changes. */
  method HandleMessage(manager: ConnectionManager, roomId: RoomId, userId: UserId, data: Message, env: Env)
    returns (outcome: Outcome)
    requires manager.Valid()
    modifies manager.roomData.Values
    ensures manager.Valid()
    ensures manager.IsConnected(roomId, userId) && outcome.Raised? ==> Decode(data, userId, env).MissingKey?
    ensures var before := old(manager.Data()); var after := manager.Data(); var rooms := manager.rooms;
      match Decode(data, userId, env)
      case DrawStroke(s) =>
        after == WithStroke(before, roomId, s) && outcome == Handled(Outbox(rooms, roomId, StrokeDrawn(s), Some(userId)))
      case UndoLast =>
        && after == WithUndo(before, roomId, userId)
        && outcome == Handled(
             match UndoneIn(before, roomId, userId)
             case None => []
             case Some(removed) => Outbox(rooms, roomId, RemoveStroke(removed.id), None))
      case NewLayer(id, name) =>
        if roomId in before then
          var layer := Layer(id, name, true, |before[roomId].layers|);
          after == WithLayer(before, roomId, layer) && outcome == Handled(Outbox(rooms, roomId, LayerAdded(layer), None))
        else
          after == before && outcome == Raised(roomId)
      case ClearStrokes(layerId) =>
        after == WithCleared(before, roomId, layerId) && outcome == Handled(Outbox(rooms, roomId, LayerCleared(layerId), None))
      case MoveCursor(x, y) =>
        after == before && outcome == Handled(Outbox(rooms, roomId, Cursor(userId, x, y), Some(userId)))
      case Ignored =>
        after == before && outcome == Handled([])
      case MissingKey(key) =>
        after == before && outcome == Raised(key)
  {
    match Decode(data, userId, env)
    case DrawStroke(s) =>
      manager.AddStroke(roomId, s);
      var out := manager.Broadcast(roomId, StrokeDrawn(s), Some(userId));
      outcome := Handled(out);
    case UndoLast =>
      var removed := manager.RemoveLastStroke(roomId, userId);
      if removed.Some? {
        var out := manager.Broadcast(roomId, RemoveStroke(removed.value.id), None);
        outcome := Handled(out);
      } else {
        outcome := Handled([]);
      }
    case NewLayer(id, name) =>
      if roomId !in manager.roomData {
        outcome := Raised(roomId);
      } else {
        var layer := Layer(id, name, true, |manager.roomData[roomId].layers|);
        manager.AddLayer(roomId, layer);
        var out := manager.Broadcast(roomId, LayerAdded(layer), None);
        outcome := Handled(out);
      }
    case ClearStrokes(layerId) =>
      manager.ClearLayer(roomId, layerId);
      var out := manager.Broadcast(roomId, LayerCleared(layerId), None);
      outcome := Handled(out);
    case MoveCursor(x, y) =>
      var out := manager.Broadcast(roomId, Cursor(userId, x, y), Some(userId));
      outcome := Handled(out);
    case Ignored =>
      outcome := Handled([]);
    case MissingKey(key) =>
      outcome := Raised(key);
  }

  /** `query_params.get(key, default)`. */
  function QueryOr(query: map<string, string>, key: string, default: string): (v: string)
  {
    if key in query then query[key] else default
  }

  /** The joining part of the websocket endpoint: take the user id (a fresh
      uuid if absent) and nickname ("Anonymous" if absent) from the query; if
      the room has no record, install the one `saved` found in storage; then
      `connect`. Because a room with no record has no member table either,
      `connect` always replaces an installed record with a fresh one. */
  method Join(manager: ConnectionManager, conn: Conn, roomId: RoomId, query: map<string, string>,
              saved: Option<RoomState>, env: Env)
    returns (userId: UserId, out: seq<Send>)
    requires manager.Valid()
    modifies manager
    ensures manager.Valid()
    ensures userId == QueryOr(query, "user_id", env.uuid)
    ensures manager.rooms == old(manager.rooms)[roomId := Put(old(manager.MembersOf(roomId)), userId, conn)]
    ensures manager.userInfo == old(manager.userInfo)[userId := UserInfo(QueryOr(query, "nickname", "Anonymous"), roomId)]
    ensures roomId in old(manager.rooms) ==> manager.roomData == old(manager.roomData) && manager.Data() == old(manager.Data())
    ensures roomId !in old(manager.rooms) ==>
      && fresh(manager.roomData[roomId])
      && manager.roomData == old(manager.roomData)[roomId := manager.roomData[roomId]]
      && manager.Data() == old(manager.Data())[roomId := FreshRoom(roomId, env.now)]
    ensures var users := Roster(manager.rooms[roomId], manager.userInfo); var room := manager.Data()[roomId];
      out == Outbox(manager.rooms, roomId, UserJoined(userId, QueryOr(query, "nickname", "Anonymous"), users), Some(userId))
             + [Delivery(userId, conn, Init(room.id, room.layers, room.strokes, users))]
  {
    userId := QueryOr(query, "user_id", env.uuid);
    var nickname := QueryOr(query, "nickname", "Anonymous");
    ghost var before, beforeData := manager.Data(), manager.roomData;
    Restore(manager, roomId, saved);
    ghost var restored, restoredData := manager.Data(), manager.roomData;
    out := manager.Connect(conn, roomId, userId, nickname, env.now);
    ghost var after, afterData := manager.Data(), manager.roomData;
    if roomId !in old(manager.rooms) {
      var record, state := afterData[roomId], FreshRoom(roomId, env.now);
      if roomId !in beforeData && saved.Some? {
        OverrideTwice(beforeData, roomId, restoredData[roomId], record);
        OverrideTwice(before, roomId, saved.value, state);
      }
    }
  }

  /** Writing a key twice keeps the second value. */
  lemma OverrideTwice<K, V>(m: map<K, V>, k: K, a: V, b: V)
    ensures m[k := a][k := b] == m[k := b]
  {
  }

  /** The endpoint's load step: a room without a record gets the one found in
      storage, if any; every other table stays as it was. */
  method Restore(manager: ConnectionManager, roomId: RoomId, saved: Option<RoomState>)
    requires manager.Valid()
    modifies manager
    ensures manager.Valid()
    ensures manager.rooms == old(manager.rooms) && manager.userInfo == old(manager.userInfo)
    ensures roomId in old(manager.roomData) || saved.None? ==>
      manager.roomData == old(manager.roomData) && manager.Data() == old(manager.Data())
    ensures roomId !in old(manager.roomData) && saved.Some? ==>
      && roomId in manager.roomData && fresh(manager.roomData[roomId])
      && manager.roomData == old(manager.roomData)[roomId := manager.roomData[roomId]]
      && manager.Data() == old(manager.Data())[roomId := saved.value]
  {
    if roomId !in manager.roomData && saved.Some? {
      var loaded := new Room(saved.value);
      manager.roomData := manager.roomData[roomId := loaded];
      assert manager.Data() == old(manager.Data())[roomId := saved.value];
    }
  }

  /** The leaving part of the websocket endpoint: `disconnect`, then, if it
      returned a non-empty nickname, tell the remaining members with `user_left`.
      A `KeyError` from `disconnect` ends the step before any send. */
  method Leave(manager: ConnectionManager, roomId: RoomId, userId: UserId) returns (outcome: Outcome)
    requires manager.Valid()
    modifies manager
    ensures manager.Valid()
    ensures manager.roomData == old(manager.roomData)
    ensures !manager.IsConnected(roomId, userId)
    ensures old(manager.IsConnected(roomId, userId)) ==>
      manager.rooms == old(manager.rooms)[roomId := Delete(old(manager.rooms[roomId]), userId)]
      && manager.userInfo == old(manager.userInfo) - {userId}
    ensures !old(manager.IsConnected(roomId, userId)) ==>
      manager.rooms == old(manager.rooms) && manager.userInfo == old(manager.userInfo) && outcome == Handled([])
    ensures old(manager.IsConnected(roomId, userId)) && userId !in old(manager.userInfo) ==> outcome == Raised(userId)
    ensures old(manager.IsConnected(roomId, userId)) && userId in old(manager.userInfo) ==>
      var nickname := old(manager.userInfo[userId].nickname);
      outcome == Handled(
        if nickname == "" then []
        else Outbox(manager.rooms, roomId, UserLeft(userId, nickname, Roster(manager.MembersOf(roomId), manager.userInfo)), None))
  {
    var departure := manager.Disconnect(roomId, userId);
    match departure
    case Removed(nickname) =>
      if nickname != "" {
        var users := manager.RoomUsers(roomId);
        var out := manager.Broadcast(roomId, UserLeft(userId, nickname, users), None);
        outcome := Handled(out);
      } else {
        outcome := Handled([]);
      }
    case Absent =>
      outcome := Handled([]);
    case UserInfoMissing =>
      outcome := Raised(userId);
  }
}
