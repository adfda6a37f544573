/** `*role/list`: the roles of a user from MySQL, overlaid with what Redis has. */
module RoleListing {
  import opened RoleStore
  import opened Sets

  /** What the handler keeps of a role. */
  datatype Listed = Listed(roid: int, avatar: string)

  /** The SELECT, in any order. */
  method SelectAvatars(mysql: map<int, Row>, username: string) returns (rows: seq<Listed>)
    ensures forall i, j :: 0 <= i < j < |rows| ==> rows[i].roid != rows[j].roid
    ensures forall i :: 0 <= i < |rows| ==>
      rows[i].roid in mysql && mysql[rows[i].roid].username == username && rows[i].avatar == mysql[rows[i].roid].avatar
    ensures forall r :: r in mysql && mysql[r].username == username ==> HasRow(rows, r)
  {
    rows := [];
    var rest := mysql.Keys;
    while rest != {}
      invariant rest <= mysql.Keys
      invariant forall i, j :: 0 <= i < j < |rows| ==> rows[i].roid != rows[j].roid
      invariant forall i :: 0 <= i < |rows| ==>
        rows[i].roid in mysql && rows[i].roid !in rest && mysql[rows[i].roid].username == username
        && rows[i].avatar == mysql[rows[i].roid].avatar
      invariant forall r :: r in mysql && r !in rest && mysql[r].username == username ==> HasRow(rows, r)
      decreases rest
    {
      ghost var some := Member(rest);
      var r :| r in rest;
      rest := rest - {r};
      if mysql[r].username == username {
        ghost var was := rows;
        rows := rows + [Listed(r, mysql[r].avatar)];
        assert rows[|was|].roid == r;
        forall q | HasRow(was, q) ensures HasRow(rows, q) {
          var i :| 0 <= i < |was| && was[i].roid == q;
          assert rows[i].roid == q;
        }
      }
    }
  }

  ghost predicate HasRow(rows: seq<Listed>, roid: int) {
    exists i :: 0 <= i < |rows| && rows[i].roid == roid
  }

  /** What Redis has under the row's own role ID goes first. */
  function Overlaid(row: Listed, redis: map<int, Text>): Listed {
    if row.roid in redis then Listed(row.roid, redis[row.roid].record.row.avatar) else row
  }

  /** The MGET and the overlay: a record that Redis has is parsed over the row, its role ID included. */
  method Overlay(rows: seq<Listed>, redis: map<int, Text>) returns (overlaid: seq<Listed>)
    requires forall k :: k in redis ==> redis[k].record.roid == k
    ensures |overlaid| == |rows|
    ensures forall i :: 0 <= i < |rows| ==> overlaid[i] == Overlaid(rows[i], redis)
  {
    overlaid := rows;
    for k := 0 to |rows|
      invariant |overlaid| == |rows| && overlaid[k..] == rows[k..]
      invariant forall i :: 0 <= i < k ==> overlaid[i] == Overlaid(rows[i], redis)
    {
      assert overlaid[k] == rows[k..][0];
      if rows[k].roid in redis {
        var record := redis[rows[k].roid].record;
        overlaid := overlaid[k := Listed(record.roid, record.row.avatar)];
      }
    }
  }

  method Encode(rows: seq<Listed>) returns (rawAvatars: map<int, string>)
    requires forall i, j :: 0 <= i < j < |rows| ==> rows[i].roid != rows[j].roid
    ensures forall r :: r in rawAvatars <==> HasRow(rows, r)
    ensures forall i :: 0 <= i < |rows| ==> rows[i].roid in rawAvatars && rawAvatars[rows[i].roid] == rows[i].avatar
  {
    rawAvatars := map[];
    for k := 0 to |rows|
      invariant forall r :: r in rawAvatars <==> exists i :: 0 <= i < k && rows[i].roid == r
      invariant forall i :: 0 <= i < k ==> rows[i].roid in rawAvatars && rawAvatars[rows[i].roid] == rows[i].avatar
    {
      if rows[k].roid !in rawAvatars {
        rawAvatars := rawAvatars[rows[k].roid := rows[k].avatar];
      }
    }
  }

  lemma KeysAgreeLater(s: Store, es: seq<Event>)
    requires Inv(s) && Legal(s, es)
    ensures KeysAgree(Run(s, es))
  {
    RunRefines(s, es);
  }

  /** What the overlay of a selected row reports is current. */
  lemma OverlaidIsLogical(s: Store, es: seq<Event>, row: Listed)
    requires Inv(s) && Legal(s, es) && NoUnload(s, es, row.roid)
    requires row.roid in s.mysql && row.avatar == s.mysql[row.roid].avatar
    ensures var t := Run(s, es);
      row.roid in Logical(t) && Overlaid(row, t.redis) == Listed(row.roid, Logical(t)[row.roid].avatar)
  {
    ListIsCurrent(s, es, row.roid);
  }

  /** The whole handler: `s` is the store when the SELECT takes effect, `t` when the MGET does, and `es` is what
      happens in between. It reports exactly the user's roles, each with its logical avatar, however creates, loads,
      saves, flushes and logic servers' SETs interleave, as long as none of these roles is being unloaded. */
  method List(s: Store, t: Store, ghost es: seq<Event>, username: string) returns (rawAvatars: map<int, string>)
    requires Inv(s) && Legal(s, es) && t == Run(s, es)
    requires forall r :: r in s.mysql && s.mysql[r].username == username ==> NoUnload(s, es, r)
    ensures forall r :: r in rawAvatars <==> r in s.mysql && s.mysql[r].username == username
    ensures forall r :: r in rawAvatars ==> r in Logical(t) && rawAvatars[r] == Logical(t)[r].avatar
  {
    var rows := SelectAvatars(s.mysql, username);
    KeysAgreeLater(s, es);
    var overlaid := Overlay(rows, t.redis);
    forall i | 0 <= i < |rows|
      ensures rows[i].roid in Logical(t) && overlaid[i] == Listed(rows[i].roid, Logical(t)[rows[i].roid].avatar)
    {
      OverlaidIsLogical(s, es, rows[i]);
    }
    rawAvatars := Encode(overlaid);
    SameRows(rows, overlaid);
  }

  lemma SameRows(rows: seq<Listed>, overlaid: seq<Listed>)
    requires |overlaid| == |rows| && forall i :: 0 <= i < |rows| ==> overlaid[i].roid == rows[i].roid
    ensures forall r :: HasRow(rows, r) <==> HasRow(overlaid, r)
  {
    forall r | HasRow(rows, r) ensures HasRow(overlaid, r) {
      var i :| 0 <= i < |rows| && rows[i].roid == r;
      assert overlaid[i].roid == r;
    }
  }
}
