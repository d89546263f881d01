# Collaborative drawing board: room engine model

This project models the server core of the collaborative drawing board
(`app.py`). That core is the `ConnectionManager` with its three process-wide
tables, plus the message dispatcher `handle_message`:

- `rooms` maps a room id to its member table, an insertion-ordered dict from
  user id to websocket;
- `user_info` maps a user id to a nickname and the room that user joined last;
- `room_data` maps a room id to its mutable `Room` record (layers and the
  stroke log).

The join and leave steps of the websocket endpoint are modelled as
operations on the same state.

The model is imperative where the source is:

- `ConnectionManager` is a class whose map fields the methods reassign.
- `Room` is a class whose `layers` and `strokes` fields are updated in
  place.
- The ghost view `Data()` gives the contents of every room record as
  values. Each state-changing method is proved against a pure transition
  function on that view (`WithStroke`, `WithUndo`, `WithLayer`,
  `WithCleared`), and the properties of those functions are lemmas.
- The manager invariant `Valid()` says three things:
  - every member table lists each user exactly once, in join order;
  - every room with a member table has a record;
  - no record is shared by two room ids.

Sends are not performed. A broadcast returns its outbox, the list of
`Delivery(to, conn, msg)` it would make, in the order of the member table.

A `KeyError` raised by the source is an explicit outcome:

- `handle_message` returns `Raised(key)`;
- `disconnect` returns `UserInfoMissing`.

Values the server draws from the clock and from `uuid4()` are inputs (`Env`).

Modules:

- `Seqs`: filter and pop on sequences.
- `Board`: strokes, layers, room records, and the clear and undo logic on a
  stroke log.
- `Registry`: member tables, the member listing and the fan-out.
- `Wire`: events and message decoding.
- `Manager`: the `ConnectionManager` class.
- `Dispatch`: `handle_message`, join and leave.
- `Scenarios`: two multi-user runs checked against the contracts alone.

### Behaviour of `app.py` worth knowing

- A message that lacks a field read with `data[...]` raises `KeyError`
  (app.py:255-257, 288, 299-300). The exception leaves the receive loop at
  app.py:231-234 without reaching the `WebSocketDisconnect` handler, so no
  `disconnect`, `user_left` or save follows. `HandleMessage` ends with
  `Raised(key)` and changes nothing.
- `connect` rebuilds the record of any room that has no member table
  (app.py:58-64). When joins to the room do not interleave at `await`, a
  room just loaded from storage (app.py:223-227) is therefore replaced by a
  fresh one. `Join` states this for its atomic step: a room absent from
  `rooms` always ends as `FreshRoom`.
- `user_info` keeps one entry per user id (app.py:67). A user id connected
  to two rooms makes the second `disconnect` raise `KeyError` at app.py:93
  after the member entry is gone. `Disconnect` returns `UserInfoMissing`;
  `Scenarios.SameUserInTwoRooms` shows the run.
- `user_left` is broadcast only when the nickname is non-empty
  (app.py:237).
- An undo is broadcast to the whole room, the requester included
  (app.py:267-273). An undo that finds no stroke by the requester sends
  nothing.
- The room is saved after each disconnect that returns normally
  (app.py:236-246). A `KeyError` from `disconnect` or a failed `user_left`
  send skips the save. Saving is outside this model.
- `tests/test_advanced_features.py` exercises features that `app.py` does
  not have: chat, timers, room passwords, a gallery, reactions, shortcuts,
  room statistics and tool types. None of them is modelled.

## Model

| member | source | states |
|---|---|---|
| Board.FreshRoom | app.py:58-64 | a new room is named after its id, has exactly the background layer `layer_0` ("Background", visible, order 0) and no strokes, and was created at the given time |
| Board.Room.constructor | app.py:39-45 | a room record holds exactly the given id, name, layers, strokes and creation time |
| Board.WithoutLayer | app.py:128-133 | after clearing, a stroke is in the log iff it was there before and is not on the cleared layer |
| Board.ClearLayerContents | app.py:128-133 | clearing keeps every stroke off the layer as many times as it occurred, and removes every stroke on the layer |
| Board.ClearLayerOrder | app.py:128-133 | clearing preserves order: clearing a concatenation is the concatenation of the cleared parts |
| Board.ClearLayerIdempotent | app.py:128-133 | clearing a layer twice gives the same log as clearing it once |
| Board.ClearEmptyLayer | app.py:128-133 | clearing a layer that holds no stroke leaves the log unchanged |
| Board.NewestBy | app.py:118-120 | the scan from the end finds the last position holding a stroke by the user; it finds nothing iff the user has no stroke in the log |
| Board.Undo | app.py:118-122 | undo removes nothing iff the user has no stroke, and then the log is unchanged; otherwise it returns the user's newest stroke and the log with exactly that position popped |
| Board.UndoPopsOwnStack | app.py:118-122 | seen through the user's own strokes, undo is a stack pop: it returns the top (the newest) and leaves the rest in order; with no strokes it returns nothing |
| Board.UndoSparesOthers | app.py:118-122 | one user's undo never removes or reorders a stroke of any other user |
| Seqs.RemoveAt | app.py:121 | `list.pop(i)`: the result is one shorter, keeps the elements before `i` and shifts those after `i` down, and loses exactly one copy of the popped element |
| Registry.Put | app.py:66 | after a dict assignment the table stays well formed and maps the user to the new connection; a new user joins at the end, an existing user keeps their place; every other entry is unchanged |
| Registry.Delete | app.py:91 | after `del` the table stays well formed and lacks the user; everyone else keeps their connection and their relative order |
| Registry.Roster | app.py:97-102 | the listing has one entry per member, in join order, with the recorded nickname or "Anonymous" |
| Registry.RosterListsEachMemberOnce | app.py:97-102 | a user appears in the listing iff they are a member, and no user appears twice |
| Registry.Fanout | app.py:104-109 | every send carries the message on the recipient's own connection and never goes to the excluded user |
| Registry.FanoutTargets | app.py:107-109 | the recipients are the member table in join order with the excluded user filtered out |
| Registry.FanoutOncePerMember | app.py:104-109 | a broadcast reaches every member other than the excluded one exactly once, and nobody else |
| Wire.Decode | app.py:248-301 | each tag decodes to its operation iff the fields read with `data[...]` are present, otherwise to the first missing key; defaults for the stroke id, its layer id, and a new layer's id and name; author and timestamp from the session; an unknown tag is ignored |
| Wire.DecodeIgnoresPayloadUserId | app.py:251-259 | a `user_id` field in a message changes nothing: authorship comes from the session |
| Manager.Outbox | app.py:104-106 | a broadcast to a room with no member table sends nothing |
| Manager.WithStroke | app.py:111-113 | adding a stroke appends it to a known room's log and changes no other field and no other room; an unknown room is left alone |
| Manager.WithLayer | app.py:124-126 | adding a layer appends it to a known room's layer list and changes nothing else |
| Manager.WithCleared | app.py:128-133 | clearing replaces a known room's log by the filtered log and changes nothing else |
| Manager.ClearTwiceIsClearOnce | app.py:128-133 | clearing the same layer of a room twice leaves the same contents as clearing it once |
| Manager.UndoneIn | app.py:115-116 | `remove_last_stroke` on an unknown room returns nothing |
| Manager.WithUndo | app.py:115-122 | an undo replaces a known room's log by the log with the user's newest stroke popped, and changes nothing else |
| Manager.ConnectionManager.constructor | app.py:50-53 | a new manager has empty tables and satisfies the invariant |
| Manager.ConnectionManager.MembersOf | app.py:99 | an unknown room has an empty member table |
| Manager.ConnectionManager.RoomUsers | app.py:97-102 | the loop builds exactly the listing of the room's members in join order |
| Manager.ConnectionManager.Broadcast | app.py:104-109 | the loop produces exactly the room's outbox: one send per non-excluded member, in join order |
| Manager.ConnectionManager.OpenRoom | app.py:58-64 | a room without a member table gets an empty one and a fresh record (replacing any record it had); a room with one is untouched |
| Manager.ConnectionManager.Register | app.py:66-67 | the user is put in the room's member table and `user_info` records their nickname and room; no record changes |
| Manager.ConnectionManager.Admit | app.py:58-67 | the two steps of `connect` before any send: new member table and user info, record kept or replaced by a fresh room |
| Manager.ConnectionManager.Connect | app.py:55-87 | `Admit`, then `user_joined` with the new listing to every other member, then `init` with the room's layers, strokes and listing to the new user only |
| Manager.ConnectionManager.Disconnect | app.py:89-95 | a connected user leaves the member table and `user_info` and their nickname is returned, or `KeyError` if `user_info` lacks them; anyone else gets `None` and nothing changes |
| Manager.ConnectionManager.AddStroke | app.py:111-113 | the records now hold `WithStroke` of their old contents |
| Manager.ConnectionManager.RemoveLastStroke | app.py:115-122 | the backward scan returns the stroke `UndoneIn` names and leaves `WithUndo` of the old contents |
| Manager.ConnectionManager.AddLayer | app.py:124-126 | the records now hold `WithLayer` of their old contents |
| Manager.ConnectionManager.ClearLayer | app.py:128-133 | the records now hold `WithCleared` of their old contents |
| Dispatch.HandleMessage | app.py:248-301 | for each decoded operation: the new room contents and the exact outbox (stroke and cursor to others, removal, layer and clear to all, failed undo to nobody); the order of a new layer is the old layer count; `KeyError` for a missing field, or for `add_layer` on a room without a record, changes nothing; for a connected sender only a missing field raises |
| Dispatch.Join | app.py:218-229 | user id and nickname come from the query or their defaults; member table and `user_info` as `connect` leaves them; a room without a member table ends with a fresh record even if one was loaded; the outbox of `connect` |
| Dispatch.Restore | app.py:223-227 | a room without a record gets the stored one if storage has it; otherwise nothing changes |
| Dispatch.Leave | app.py:235-243 | `disconnect`; then `user_left` with the new listing to all remaining members, only for a non-empty nickname; `KeyError` ends the step before any send |

## Left out

- HTTP and FastAPI are not modelled: the page routes, static files, templates, the room list and the save endpoint are framework glue outside the engine.
- SQLite persistence (the schema, `save_room`, `load_room`, `list_rooms`) is not modelled. The result of `load_room` is the `saved` parameter of `Join`, and the auto-save after each disconnect is not a state change of the manager.
- Concurrency is not modelled. Each operation is one atomic step, so interleavings at `await` points between sessions are not captured. One example: two joins to a stored room that both suspend in `load_room` can leave the loaded copy installed after the first join has already sent an empty `init`.
- Send and accept failures on a websocket are not modelled; every delivery in an outbox is assumed to happen.
- The clock and `uuid4()` are inputs (`Env`), not effects.
- JSON values in messages are opaque (`Json`). Numbers are kept as text, with no float or int arithmetic on coordinates, sizes or timestamps.
- `created_at` uses the supplied time. The default factory's own clock read is not modelled.
- Python aliasing of `Room` objects beyond the record table is not modelled. `Valid()` requires that no record is shared between two room ids, which holds for every record the core creates.
- The message tag is matched against strings only. A non-string `type` is ignored, as in the code.
- Board.WithoutLayer: layer ids are compared as JSON values, not with Python's `==`. A stroke on layer `1` survives clearing layer `1.0` or `true`, which Python would drop, and a stroke on a NaN layer is cleared, which Python never does.
- Manager.ConnectionManager.ClearLayer: inherits the layer-id comparison of `WithoutLayer`, and so do `Manager.WithCleared` and the `clear_layer` case of `Dispatch.HandleMessage`.
- Wire.Decode: a message is a JSON object. A message that is any other JSON value, on which `data.get` raises `AttributeError` and ends the session's receive loop, is outside the model.
