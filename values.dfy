/** Identifiers and the JSON values that clients send and the server echoes back. */
module Values {
  /** A user id, as taken from the `user_id` query parameter. */
  type UserId = string

  /** A room id, as taken from the `/ws/{room_id}` path segment. */
  type RoomId = string

  /** A decoded JSON value. Numbers are kept as their text: the engine does no
      arithmetic on them. Two values are equal here when they are the same
      value, so a number and its other spellings (`1`, `1.0`) differ, a number
      differs from a boolean, and NaN equals itself; Python's `==` on
      decoded JSON disagrees in each of these cases. */
  datatype Json =
    | Null
    | Bool(b: bool)
    | Num(text: string)
    | Str(s: string)
    | Arr(items: seq<Json>)
    | Obj(fields: map<string, Json>)
}
