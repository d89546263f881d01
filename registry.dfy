/** The session registry: one room's member table (`rooms[room_id]` in app.py,
    an insertion-ordered dict from user id to connection), the per-user info
    table, the member listing and the fan-out that a broadcast performs. */
module Registry {
  import opened Wrappers
  import opened Values
  import opened Seqs

  /** An opaque connection handle (a websocket). */
  datatype Conn = Conn(handle: nat)

  /** A room's member table: the users in join order and their connections. */
  datatype Members = Members(order: seq<UserId>, conns: map<UserId, Conn>) {
    /** The join order lists each key of the table exactly once. */
    ghost predicate Valid()
    {
      Distinct(order) && (forall u :: u in order <==> u in conns)
    }
  }

  /** The table `connect` installs for a room it has not seen (`{}`). */
  const NoMembers := Members([], map[])

  /** `members[u] = c`: a new key joins at the end; an existing key keeps its
      place and gets the new connection. */
  function Put(m: Members, u: UserId, c: Conn): (r: Members)
    requires m.Valid()
    ensures r.Valid()
    ensures u in r.conns && r.conns[u] == c
    ensures forall v :: v != u ==> (v in r.conns <==> v in m.conns) && (v in m.conns ==> r.conns[v] == m.conns[v])
    ensures u in m.conns ==> r.order == m.order
    ensures u !in m.conns ==> r.order == m.order + [u]
  {
    var order := if u in m.conns then m.order else m.order + [u];
    assert Distinct(order) by {
      if u !in m.conns {
        forall i, j | 0 <= i < j < |order| ensures order[i] != order[j] {
          if j == |m.order| {
            assert order[i] == m.order[i] && m.order[i] in m.order;
          }
        }
      }
    }
    Members(order, m.conns[u := c])
  }

  /** The test "not `u`". */
  function Other(u: UserId): (keep: UserId -> bool)
  {
    (v: UserId) => v != u
  }

  /** `del members[u]`: `u` leaves; everyone else keeps their place and connection. */
  function Delete(m: Members, u: UserId): (r: Members)
    requires m.Valid()
    ensures r.Valid()
    ensures u !in r.conns
    ensures forall v :: v != u ==> (v in r.conns <==> v in m.conns) && (v in r.conns ==> r.conns[v] == m.conns[v])
    ensures r.order == Filter(m.order, Other(u))
  {
    FilterDistinct(m.order, Other(u));
    Members(Filter(m.order, Other(u)), m.conns - {u})
  }

  /** What `user_info[user_id]` records: the nickname and the room joined last. */
  datatype UserInfo = UserInfo(nickname: string, roomId: RoomId)

  /** One entry of a member listing. */
  datatype UserEntry = UserEntry(id: UserId, nickname: string)

  /** The nickname a listing shows for `u`: the recorded one, or "Anonymous". */
  function NicknameOf(info: map<UserId, UserInfo>, u: UserId): (nickname: string)
  {
    if u in info then info[u].nickname else "Anonymous"
  }

  /** `get_room_users`: one entry per member, in join order. */
  function Roster(m: Members, info: map<UserId, UserInfo>): (r: seq<UserEntry>)
    ensures |r| == |m.order|
    ensures forall i :: 0 <= i < |r| ==> r[i].id == m.order[i]
    ensures forall i :: 0 <= i < |r| ==> r[i].nickname == NicknameOf(info, m.order[i])
  {
    seq(|m.order|, i requires 0 <= i < |m.order| => UserEntry(m.order[i], NicknameOf(info, m.order[i])))
  }

  /** Every member of a listing appears in it exactly once, and nobody else does. */
  lemma RosterListsEachMemberOnce(m: Members, info: map<UserId, UserInfo>)
    requires m.Valid()
    ensures var r := Roster(m, info);
      && (forall u :: u in m.conns <==> exists i :: 0 <= i < |r| && r[i].id == u)
      && (forall i, j :: 0 <= i < j < |r| ==> r[i].id != r[j].id)
  {
    var r := Roster(m, info);
    forall u | u in m.conns ensures exists i :: 0 <= i < |r| && r[i].id == u {
      var i :| 0 <= i < |m.order| && m.order[i] == u;
      assert r[i].id == u;
    }
  }

  /** One message sent on one connection. */
  datatype Delivery<M> = Delivery(to: UserId, conn: Conn, msg: M)

  /** The test "not the excluded user" (`user_id != exclude`, where `None` excludes nobody). */
  function NotExcluded(exclude: Option<UserId>): (keep: UserId -> bool)
  {
    (u: UserId) => Some(u) != exclude
  }

  /** The sends of a broadcast of `msg` over the members listed in `order`,
      in that order, skipping `exclude`. */
  function Fanout<M>(order: seq<UserId>, conns: map<UserId, Conn>, msg: M, exclude: Option<UserId>): (out: seq<Delivery<M>>)
    requires forall u :: u in order ==> u in conns
    ensures |out| <= |order|
    ensures forall d :: d in out ==> d.msg == msg && d.to in conns && d.conn == conns[d.to] && Some(d.to) != exclude
    decreases |order|
  {
    if order == [] then []
    else
      var u := order[|order| - 1];
      assert forall v :: v in order[..|order| - 1] ==> v in order;
      Fanout(order[..|order| - 1], conns, msg, exclude)
        + (if Some(u) != exclude then [Delivery(u, conns[u], msg)] else [])
  }

  /** The recipients of a list of sends, in sending order. */
  function Targets<M>(out: seq<Delivery<M>>): (r: seq<UserId>)
    ensures |r| == |out|
    ensures forall i :: 0 <= i < |out| ==> r[i] == out[i].to
  {
    seq(|out|, i requires 0 <= i < |out| => out[i].to)
  }

  /** The recipients of two lists of sends, one after the other. */
  lemma TargetsConcat<M>(a: seq<Delivery<M>>, b: seq<Delivery<M>>)
    ensures Targets(a + b) == Targets(a) + Targets(b)
  {
  }

  /** A broadcast reaches the members in join order, the excluded user dropped. */
  lemma {:induction false} FanoutTargets<M>(order: seq<UserId>, conns: map<UserId, Conn>, msg: M, exclude: Option<UserId>)
    requires forall u :: u in order ==> u in conns
    ensures Targets(Fanout(order, conns, msg, exclude)) == Filter(order, NotExcluded(exclude))
    decreases |order|
  {
    if order != [] {
      var p, u := order[..|order| - 1], order[|order| - 1];
      var keep := NotExcluded(exclude);
      assert order == p + [u];
      assert forall v :: v in p ==> v in order;
      FanoutTargets(p, conns, msg, exclude);
      var f := Fanout(p, conns, msg, exclude);
      var tail := if Some(u) != exclude then [Delivery(u, conns[u], msg)] else [];
      assert Fanout(order, conns, msg, exclude) == f + tail;
      TargetsConcat(f, tail);
      FilterConcat(p, [u], keep);
      FilterSingleton(u, keep);
      assert Targets(tail) == Filter([u], keep);
    }
  }

  /** A broadcast to a room sends `msg` exactly once to every member other than
      `exclude`, on that member's own connection, and to nobody else. */
  lemma FanoutOncePerMember<M>(m: Members, msg: M, exclude: Option<UserId>)
    requires m.Valid()
    ensures var out := Fanout(m.order, m.conns, msg, exclude);
      && (forall u :: (u in m.conns && Some(u) != exclude) <==> u in Targets(out))
      && (forall i, j :: 0 <= i < j < |out| ==> out[i].to != out[j].to)
      && (forall d :: d in out ==> d.msg == msg && d.conn == m.conns[d.to])
  {
    var out := Fanout(m.order, m.conns, msg, exclude);
    FanoutTargets(m.order, m.conns, msg, exclude);
    FilterDistinct(m.order, NotExcluded(exclude));
    var t := Targets(out);
    forall i, j | 0 <= i < j < |out| ensures out[i].to != out[j].to {
      assert t[i] == out[i].to && t[j] == out[j].to;
    }
  }
}
