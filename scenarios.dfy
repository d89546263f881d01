/** Two runs of the engine, checked against the contracts alone. */
module Scenarios {
  import opened Wrappers
  import opened Values
  import opened Board
  import opened Registry
  import opened Wire
  import opened Manager
  import opened Dispatch

  const Clock := Env(Num("1"), "uuid", "0123456789abcdef")
  const Ann := Conn(1)
  const Bob := Conn(2)

  /** The stroke Ann draws. */
  const S1 := Stroke(Str("s1"), "u1", Arr([]), Str("#000000"), Num("5"), Str("layer_0"), Num("1"))

  const UndoMessage: Message := map["type" := Str("undo")]

  const Room1 := RoomState("r1", "r1", [Background], [S1], Num("1"))

  /** Ann joins an empty room and draws one stroke; Bob joins and sees it; Bob's
      undo finds no stroke of his and sends nothing; Ann's undo removes her
      stroke and tells both members. */
  method TwoUsersUndo()
  {
    var m := new ConnectionManager();
    AnnJoins(m);
    assert m.roomData.Values == {m.roomData["r1"]};
    AnnDraws(m);
    BobJoins(m);
    assert m.roomData.Values == {m.roomData["r1"]};
    BobUndoes(m);
    AnnUndoes(m);
  }

  method AnnJoins(m: ConnectionManager)
    requires m.Valid() && m.rooms == map[] && m.userInfo == map[] && m.roomData == map[]
    modifies m
    ensures m.Valid()
    ensures m.rooms == map["r1" := Members(["u1"], map["u1" := Ann])]
    ensures m.userInfo == map["u1" := UserInfo("Ann", "r1")]
    ensures "r1" in m.roomData && fresh(m.roomData["r1"]) && m.roomData == map["r1" := m.roomData["r1"]]
    ensures m.Data() == map["r1" := FreshRoom("r1", Num("1"))]
  {
    var ann, joined := Join(m, Ann, "r1", map["user_id" := "u1", "nickname" := "Ann"], None, Clock);
    assert ["u1"][..0] == [];
    assert Roster(m.rooms["r1"], m.userInfo) == [UserEntry("u1", "Ann")];
    assert joined == [Delivery("u1", Ann, Init("r1", [Background], [], [UserEntry("u1", "Ann")]))];
  }

  method AnnDraws(m: ConnectionManager)
    requires m.Valid()
    requires m.rooms == map["r1" := Members(["u1"], map["u1" := Ann])]
    requires m.Data() == map["r1" := FreshRoom("r1", Num("1"))]
    modifies m.roomData.Values
    ensures m.Data() == map["r1" := Room1]
  {
    DecodeAnnStroke();
    var drawn := HandleMessage(m, "r1", "u1", StrokeMessage, Clock);
    assert ["u1"][..0] == [];
    assert drawn == Handled([]);
    assert [] + [S1] == [S1];
    assert FreshRoom("r1", Num("1")).(strokes := [] + [S1]) == Room1;
  }

  const StrokeMessage: Message := map["type" := Str("stroke"), "id" := Str("s1"), "points" := Arr([]),
    "color" := Str("#000000"), "size" := Num("5"), "layer_id" := Str("layer_0")]

  lemma DecodeAnnStroke()
    ensures Decode(StrokeMessage, "u1", Clock) == DrawStroke(S1)
  {
    var d := StrokeMessage;
    assert HasTag(d, "stroke");
    assert "points" in d && "color" in d && "size" in d;
  }

  const BothConns := map["u1" := Ann, "u2" := Bob]
  const BothInfo := map["u1" := UserInfo("Ann", "r1"), "u2" := UserInfo("Bob", "r1")]
  const BothUsers := [UserEntry("u1", "Ann"), UserEntry("u2", "Bob")]

  /** What Bob's arrival sends: Ann hears of Bob, Bob gets the room. */
  lemma BobJoinMessages()
    ensures Roster(Members(["u1", "u2"], BothConns), BothInfo) == BothUsers
    ensures Fanout(["u1", "u2"], BothConns, UserJoined("u2", "Bob", BothUsers), Some("u2"))
         == [Delivery("u1", Ann, UserJoined("u2", "Bob", BothUsers))]
  {
    assert ["u1", "u2"][..1] == ["u1"] && ["u1"][..0] == [];
  }

  method BobJoins(m: ConnectionManager)
    requires m.Valid()
    requires m.rooms == map["r1" := Members(["u1"], map["u1" := Ann])]
    requires m.userInfo == map["u1" := UserInfo("Ann", "r1")]
    requires m.Data() == map["r1" := Room1]
    modifies m
    ensures m.Valid()
    ensures m.rooms == map["r1" := Members(["u1", "u2"], BothConns)]
    ensures m.roomData == old(m.roomData) && m.Data() == old(m.Data())
  {
    assert "u2" !in m.rooms["r1"].conns;
    assert ["u1"] + ["u2"] == ["u1", "u2"];
    var bob, joined := Join(m, Bob, "r1", map["user_id" := "u2", "nickname" := "Bob"], None, Clock);
    assert m.rooms["r1"] == Members(["u1", "u2"], BothConns);
    assert m.userInfo == BothInfo;
    BobJoinMessages();
    assert joined == [Delivery("u1", Ann, UserJoined("u2", "Bob", BothUsers)),
                      Delivery("u2", Bob, Init("r1", [Background], [S1], BothUsers))];
  }

  method BobUndoes(m: ConnectionManager)
    requires m.Valid()
    requires m.rooms == map["r1" := Members(["u1", "u2"], map["u1" := Ann, "u2" := Bob])]
    requires m.Data() == map["r1" := Room1]
    modifies m.roomData.Values
    ensures m.Data() == old(m.Data())
  {
    assert Decode(UndoMessage, "u2", Clock) == UndoLast;
    assert Undo([S1], "u2") == Undone(None, [S1]);
    var bobUndo := HandleMessage(m, "r1", "u2", UndoMessage, Clock);
    assert bobUndo == Handled([]);
  }

  method AnnUndoes(m: ConnectionManager)
    requires m.Valid()
    requires m.rooms == map["r1" := Members(["u1", "u2"], map["u1" := Ann, "u2" := Bob])]
    requires m.Data() == map["r1" := Room1]
    modifies m.roomData.Values
    ensures m.Data()["r1"].strokes == []
  {
    assert Decode(UndoMessage, "u1", Clock) == UndoLast;
    assert Undo([S1], "u1") == Undone(Some(S1), []);
    var annUndo := HandleMessage(m, "r1", "u1", UndoMessage, Clock);
    assert ["u1", "u2"][..1] == ["u1"] && ["u1"][..0] == [];
    assert annUndo == Handled([Delivery("u1", Ann, RemoveStroke(Str("s1"))), Delivery("u2", Bob, RemoveStroke(Str("s1")))]);
  }

  /** One user id in two rooms: `user_info` remembers only the last room, so
      leaving both raises `KeyError` the second time, after the member entry
      is already gone. */
  method SameUserInTwoRooms()
  {
    var m := new ConnectionManager();
    var out := m.Connect(Ann, "a", "u", "Ann", Num("1"));
    out := m.Connect(Bob, "b", "u", "Ann", Num("2"));
    assert m.rooms["a"].conns == map["u" := Ann] && m.rooms["b"].conns == map["u" := Bob];
    assert m.userInfo == map["u" := UserInfo("Ann", "b")];
    var first := Leave(m, "a", "u");
    assert m.userInfo == map[];
    assert m.IsConnected("b", "u");
    var second := Leave(m, "b", "u");
    assert second == Raised("u");
    assert !m.IsConnected("b", "u");
  }
}
