/** The room state store: strokes, layers and the per-room record (`Stroke`,
    `Layer` and `Room` in app.py), with the two stroke-log operations that are
    more than an append: clearing a layer and per-user undo. */
module Board {
  import opened Wrappers
  import opened Values
  import opened Seqs

  /** One recorded drawing gesture. `userId` is the author as the server knows
      it; the other client-supplied fields are kept as the JSON values sent. */
  datatype Stroke = Stroke(
    id: Json,
    userId: UserId,
    points: Json,
    color: Json,
    size: Json,
    layerId: Json,
    timestamp: Json)

  /** A named partition of a room's strokes; `visible` and `order` are display hints. */
  datatype Layer = Layer(id: Json, name: Json, visible: bool, order: int)

  /** The layer every room built by `connect` starts with. */
  const Background := Layer(Str("layer_0"), Str("Background"), true, 0)

  /** The value a `Room` object holds at one moment. */
  datatype RoomState = RoomState(
    id: RoomId,
    name: string,
    layers: seq<Layer>,
    strokes: seq<Stroke>,
    createdAt: Json)

  /** The room `connect` builds for a room id it has not seen: named after its
      id, one background layer, no strokes, created now. */
  function FreshRoom(roomId: RoomId, now: Json): (r: RoomState)
    ensures r.layers == [Background] && r.strokes == []
    ensures r.id == roomId && r.name == roomId && r.createdAt == now
  {
    RoomState(roomId, roomId, [Background], [], now)
  }

  /** A room record, updated in place by the connection manager. */
  class Room {
    var id: RoomId
    var name: string
    var layers: seq<Layer>
    var strokes: seq<Stroke>
    var createdAt: Json

    constructor (state: RoomState)
      ensures State() == state
    {
      id, name, layers, strokes, createdAt := state.id, state.name, state.layers, state.strokes, state.createdAt;
    }

    /** What this room holds now. */
    function State(): (s: RoomState)
      reads this
    {
      RoomState(id, name, layers, strokes, createdAt)
    }
  }

  // ---------- clear_layer ----------

  /** The test in clear_layer's comprehension. */
  function NotOn(layerId: Json): (keep: Stroke -> bool)
  {
    (s: Stroke) => s.layerId != layerId
  }

  /** The stroke log after clearing `layerId`: every stroke not on that layer, in order. */
  function WithoutLayer(strokes: seq<Stroke>, layerId: Json): (r: seq<Stroke>)
    ensures forall s :: s in r <==> s in strokes && s.layerId != layerId
  {
    Filter(strokes, NotOn(layerId))
  }

  /** Clearing keeps each stroke off the layer exactly as often as it occurred,
      and drops every stroke on it. */
  lemma ClearLayerContents(strokes: seq<Stroke>, layerId: Json)
    ensures forall s :: multiset(WithoutLayer(strokes, layerId))[s] == (if s.layerId != layerId then multiset(strokes)[s] else 0)
  {
    FilterMultiplicity(strokes, NotOn(layerId));
  }

  /** Clearing preserves order: clearing a log made of two parts is clearing
      each part and joining them. */
  lemma ClearLayerOrder(a: seq<Stroke>, b: seq<Stroke>, layerId: Json)
    ensures WithoutLayer(a + b, layerId) == WithoutLayer(a, layerId) + WithoutLayer(b, layerId)
  {
    FilterConcat(a, b, NotOn(layerId));
  }

  /** Clearing a layer twice is clearing it once. */
  lemma ClearLayerIdempotent(strokes: seq<Stroke>, layerId: Json)
    ensures WithoutLayer(WithoutLayer(strokes, layerId), layerId) == WithoutLayer(strokes, layerId)
  {
    FilterIdempotent(strokes, NotOn(layerId));
  }

  /** Clearing a layer that holds no stroke changes nothing. */
  lemma ClearEmptyLayer(strokes: seq<Stroke>, layerId: Json)
    requires forall s :: s in strokes ==> s.layerId != layerId
    ensures WithoutLayer(strokes, layerId) == strokes
  {
    FilterKeepsAll(strokes, NotOn(layerId));
  }

  // ---------- remove_last_stroke ----------

  /** Position `i` holds the newest stroke authored by `user`. */
  ghost predicate IsNewestBy(strokes: seq<Stroke>, user: UserId, i: int)
  {
    0 <= i < |strokes| && strokes[i].userId == user &&
    forall j :: i < j < |strokes| ==> strokes[j].userId != user
  }

  /** The position of the newest stroke by `user`, found by scanning from the end. */
  function NewestBy(strokes: seq<Stroke>, user: UserId): (r: Option<nat>)
    ensures r.Some? ==> IsNewestBy(strokes, user, r.value)
    ensures r.None? <==> forall j :: 0 <= j < |strokes| ==> strokes[j].userId != user
    decreases |strokes|
  {
    if strokes == [] then None
    else if strokes[|strokes| - 1].userId == user then Some(|strokes| - 1)
    else NewestBy(strokes[..|strokes| - 1], user)
  }

  /** There is only one newest stroke by a user. */
  lemma NewestIsUnique(strokes: seq<Stroke>, user: UserId, i: int, k: int)
    requires IsNewestBy(strokes, user, i) && IsNewestBy(strokes, user, k)
    ensures i == k
  {
  }

  /** What an undo returns and what it leaves in the log. */
  datatype Undone = Undone(removed: Option<Stroke>, rest: seq<Stroke>)

  /** Per-user undo: remove and return the newest stroke by `user`, if any. */
  function Undo(strokes: seq<Stroke>, user: UserId): (u: Undone)
    ensures u.removed.None? <==> forall j :: 0 <= j < |strokes| ==> strokes[j].userId != user
    ensures u.removed.None? ==> u.rest == strokes
    ensures u.removed.Some? ==>
      exists i :: IsNewestBy(strokes, user, i) && u.removed.value == strokes[i] && u.rest == RemoveAt(strokes, i)
  {
    match NewestBy(strokes, user)
    case None => Undone(None, strokes)
    case Some(i) => Undone(Some(strokes[i]), RemoveAt(strokes, i))
  }

  /** The test "authored by `user`". */
  function ByAuthor(user: UserId): (keep: Stroke -> bool)
  {
    (s: Stroke) => s.userId == user
  }

  /** The strokes `user` authored, oldest first: that user's own undo stack. */
  function AuthoredBy(strokes: seq<Stroke>, user: UserId): (r: seq<Stroke>)
    ensures forall s :: s in r <==> s in strokes && s.userId == user
  {
    Filter(strokes, ByAuthor(user))
  }

  /** The authored-by filter of a log split around one stroke. */
  lemma AuthoredAround(a: seq<Stroke>, s: Stroke, b: seq<Stroke>, v: UserId)
    ensures AuthoredBy(a + [s] + b, v) == AuthoredBy(a, v) + (if s.userId == v then [s] else []) + AuthoredBy(b, v)
    ensures AuthoredBy(a + b, v) == AuthoredBy(a, v) + AuthoredBy(b, v)
  {
    FilterConcat(a + [s], b, ByAuthor(v));
    FilterConcat(a, [s], ByAuthor(v));
    FilterConcat(a, b, ByAuthor(v));
    FilterSingleton(s, ByAuthor(v));
  }

  /** The log around the newest stroke by `user`: nothing after it is by `user`. */
  lemma SplitAtNewest(strokes: seq<Stroke>, user: UserId, i: nat)
    requires IsNewestBy(strokes, user, i)
    ensures strokes == strokes[..i] + [strokes[i]] + strokes[i + 1..]
    ensures RemoveAt(strokes, i) == strokes[..i] + strokes[i + 1..]
    ensures AuthoredBy(strokes[i + 1..], user) == []
  {
    assert strokes == strokes[..i] + [strokes[i]] + strokes[i + 1..];
    var b := strokes[i + 1..];
    forall x | x in b ensures x.userId != user {
      var k :| 0 <= k < |b| && b[k] == x;
      assert b[k] == strokes[i + 1 + k];
    }
    FilterDropsAll(b, ByAuthor(user));
  }

  /** Undo acts on the requester's strokes as a pop of that user's own stack:
      it returns the top of the stack and removes exactly it. With an empty
      stack it returns nothing and leaves the log alone. */
  lemma UndoPopsOwnStack(strokes: seq<Stroke>, user: UserId)
    ensures var u := Undo(strokes, user); var mine := AuthoredBy(strokes, user);
      && (mine == [] ==> u.removed == None && u.rest == strokes)
      && (mine != [] ==> u.removed == Some(mine[|mine| - 1]) && AuthoredBy(u.rest, user) == mine[..|mine| - 1])
  {
    match NewestBy(strokes, user)
    case None =>
      FilterDropsAll(strokes, ByAuthor(user));
    case Some(i) =>
      var a, s, b := strokes[..i], strokes[i], strokes[i + 1..];
      SplitAtNewest(strokes, user, i);
      AuthoredAround(a, s, b, user);
      var mine := AuthoredBy(strokes, user);
      assert Undo(strokes, user) == Undone(Some(s), a + b);
      assert mine == AuthoredBy(a, user) + [s];
      assert AuthoredBy(a + b, user) == AuthoredBy(a, user);
      assert mine[..|mine| - 1] == AuthoredBy(a, user);
  }

  /** Undo by `user` never removes or reorders a stroke by another user `v`. */
  lemma UndoSparesOthers(strokes: seq<Stroke>, user: UserId, v: UserId)
    requires v != user
    ensures AuthoredBy(Undo(strokes, user).rest, v) == AuthoredBy(strokes, v)
  {
    match NewestBy(strokes, user)
    case None =>
    case Some(i) =>
      SplitAtNewest(strokes, user, i);
      AuthoredAround(strokes[..i], strokes[i], strokes[i + 1..], v);
  }
}
