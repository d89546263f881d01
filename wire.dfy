/** The wire protocol: the events the server sends, and the decoding of an
    inbound message (a JSON object keyed by `type`) into one room operation. */
module Wire {
  import opened Wrappers
  import opened Values
  import opened Board
  import opened Registry

  /** Server-to-client events. */
  datatype Event =
    | UserJoined(userId: UserId, nickname: string, users: seq<UserEntry>)
    | Init(roomId: RoomId, layers: seq<Layer>, strokes: seq<Stroke>, users: seq<UserEntry>)
    | UserLeft(userId: UserId, nickname: string, users: seq<UserEntry>)
    | StrokeDrawn(stroke: Stroke)
    | RemoveStroke(strokeId: Json)
    | LayerAdded(layer: Layer)
    | LayerCleared(layerId: Json)
    | Cursor(userId: UserId, x: Json, y: Json)

  /** One event sent to one member. */
  type Send = Delivery<Event>

  /** The values the server draws from its clock and from `uuid4()` while
      handling one message: the current time, the id in string form and in hex form. */
  datatype Env = Env(now: Json, uuid: string, uuidHex: string)

  /** An inbound message: a JSON object. */
  type Message = map<string, Json>

  /** `data.get(key, default)`. */
  function GetOr(data: Message, key: string, default: Json): (v: Json)
  {
    if key in data then data[key] else default
  }

  /** `s[:n]`. */
  function Prefix(s: string, n: nat): (r: string)
    ensures |r| <= n && r <= s
    ensures |s| <= n ==> r == s
  {
    if |s| <= n then s else s[..n]
  }

  /** The operation a message asks for, once decoded against the session. */
  datatype Command =
    | DrawStroke(stroke: Stroke)
    | UndoLast
    | NewLayer(id: Json, name: Json)
    | ClearStrokes(layerId: Json)
    | MoveCursor(x: Json, y: Json)
    | Ignored
    | MissingKey(key: string)

  /** The operation tags the dispatcher acts on. */
  const Tags: set<string> := {"stroke", "undo", "add_layer", "clear_layer", "cursor"}

  /** `data.get("type")` is the string `t`. */
  predicate HasTag(data: Message, t: string)
  {
    "type" in data && data["type"] == Str(t)
  }

  /** The first key among `keys` that `data` lacks, if any. */
  function FirstMissing(data: Message, keys: seq<string>): (r: Option<string>)
    ensures r.Some? ==> r.value in keys && r.value !in data
    ensures r.None? <==> forall k :: k in keys ==> k in data
  {
    if keys == [] then None
    else if keys[0] !in data then Some(keys[0])
    else FirstMissing(data, keys[1..])
  }

  /** Decode a message from the session of `userId` into an operation. The
      fields the code reads with `data[...]` are required, and the first of them
      missing raises `KeyError`; those read with `data.get` take their defaults. */
  function Decode(data: Message, userId: UserId, env: Env): (cmd: Command)
    ensures cmd.DrawStroke? <==> HasTag(data, "stroke") && "points" in data && "color" in data && "size" in data
    ensures cmd.DrawStroke? ==>
      && cmd.stroke.userId == userId
      && cmd.stroke.id == GetOr(data, "id", Str(env.uuid))
      && cmd.stroke.layerId == GetOr(data, "layer_id", Str("layer_0"))
      && cmd.stroke.timestamp == env.now
      && cmd.stroke.points == data["points"] && cmd.stroke.color == data["color"] && cmd.stroke.size == data["size"]
    ensures cmd == UndoLast <==> HasTag(data, "undo")
    ensures cmd.NewLayer? <==> HasTag(data, "add_layer")
    ensures cmd.NewLayer? ==>
      cmd.id == GetOr(data, "id", Str("layer_" + Prefix(env.uuidHex, 8))) && cmd.name == GetOr(data, "name", Str("New Layer"))
    ensures cmd.ClearStrokes? <==> HasTag(data, "clear_layer") && "layer_id" in data
    ensures cmd.ClearStrokes? ==> cmd.layerId == data["layer_id"]
    ensures cmd.MoveCursor? <==> HasTag(data, "cursor") && "x" in data && "y" in data
    ensures cmd.MoveCursor? ==> cmd.x == data["x"] && cmd.y == data["y"]
    ensures cmd == Ignored <==> forall t :: t in Tags ==> !HasTag(data, t)
    ensures cmd.MissingKey? ==> cmd.key !in data
    ensures HasTag(data, "stroke") && cmd.MissingKey? ==> Some(cmd.key) == FirstMissing(data, ["points", "color", "size"])
    ensures HasTag(data, "clear_layer") && cmd.MissingKey? ==> cmd.key == "layer_id"
    ensures HasTag(data, "cursor") && cmd.MissingKey? ==> Some(cmd.key) == FirstMissing(data, ["x", "y"])
  {
    if HasTag(data, "stroke") then
      match FirstMissing(data, ["points", "color", "size"])
      case Some(k) => MissingKey(k)
      case None =>
        DrawStroke(Stroke(
          GetOr(data, "id", Str(env.uuid)),
          userId,
          data["points"],
          data["color"],
          data["size"],
          GetOr(data, "layer_id", Str("layer_0")),
          env.now))
    else if HasTag(data, "undo") then UndoLast
    else if HasTag(data, "add_layer") then
      NewLayer(GetOr(data, "id", Str("layer_" + Prefix(env.uuidHex, 8))), GetOr(data, "name", Str("New Layer")))
    else if HasTag(data, "clear_layer") then
      if "layer_id" in data then ClearStrokes(data["layer_id"]) else MissingKey("layer_id")
    else if HasTag(data, "cursor") then
      match FirstMissing(data, ["x", "y"])
      case Some(k) => MissingKey(k)
      case None => MoveCursor(data["x"], data["y"])
    else Ignored
  }

  /** A `user_id` field in the payload has no effect: the author of a stroke
      and of a cursor event is always the session's user. */
  lemma DecodeIgnoresPayloadUserId(data: Message, userId: UserId, env: Env, spoofed: Json)
    ensures Decode(data["user_id" := spoofed], userId, env) == Decode(data, userId, env)
  {
    var d := data["user_id" := spoofed];
    assert forall k :: k != "user_id" ==> (k in d <==> k in data) && (k in data ==> d[k] == data[k]);
    assert FirstMissing(d, ["points", "color", "size"]) == FirstMissing(data, ["points", "color", "size"]);
    assert FirstMissing(d, ["x", "y"]) == FirstMissing(data, ["x", "y"]);
  }
}
