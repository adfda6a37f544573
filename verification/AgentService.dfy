/** The agent's user service: connection records, their locks and meters, updated in place between yields. */
module AgentService {
  import opened Options
  import opened Ownership
  import opened Sets
  import RateLimit

  /** A record in `connections`. Role 0 stands for none. The avatar of a fresh role is empty. */
  datatype Connection = Connection(
    session: nat,
    rateTime: real,
    pongTime: real,
    rateCounter: int,
    currentRoid: int,
    currentSrv: nat,
    avatars: map<int, string>)

  /** What the ownership protocol sees of a record. */
  function View(c: Connection): Conn {
    Conn(if c.currentRoid == 0 then None else Some(Place(c.currentSrv, c.currentRoid)), c.avatars.Keys)
  }

  function MeterOf(c: Connection): RateLimit.Meter {
    RateLimit.Meter(c.rateTime, c.rateCounter)
  }

  datatype ServiceRecord = ServiceRecord(uuid: nat, zone: int, kind: string)

  datatype Answer = Answer(srv: nat, ok: bool, roid: int)

  datatype Status = GsOk | GsUserNotOnline | GsRoidNotMatch | GsServiceUuidNotMatch | BadRequest

  const MAX_ROID := 8_99999_99999_99999

  predicate Matches(record: ServiceRecord, zone: int, kind: string) {
    record.zone == zone && record.kind == kind
  }

  /** The last service of this kind in this zone, as both server loops find it. */
  function LastOf(records: seq<ServiceRecord>, zone: int, kind: string): (r: Option<nat>)
    ensures r.Some? ==> exists i :: IsLast(records, zone, kind, i) && records[i].uuid == r.value
    ensures r.None? ==> forall i :: 0 <= i < |records| ==> !Matches(records[i], zone, kind)
  {
    if records == [] then None
    else
      var last := |records| - 1;
      var before := LastOf(records[..last], zone, kind);
      assert before.Some? && !Matches(records[last], zone, kind) ==>
        forall i :: IsLast(records[..last], zone, kind, i) ==> IsLast(records, zone, kind, i);
      assert Matches(records[last], zone, kind) ==> IsLast(records, zone, kind, last);
      if Matches(records[last], zone, kind) then Some(records[last].uuid) else before
  }

  predicate IsLast(records: seq<ServiceRecord>, zone: int, kind: string, i: int) {
    && 0 <= i < |records| && Matches(records[i], zone, kind)
    && forall j :: i < j < |records| ==> !Matches(records[j], zone, kind)
  }

  /** The first affirmative answer: the server that gave it, and the role it names. */
  function FirstHit(answers: seq<Answer>): (hit: Option<Place>)
    ensures hit.None? ==> forall i :: 0 <= i < |answers| ==> !answers[i].ok
    ensures hit.Some? ==> exists i :: IsFirstOk(answers, i) && hit.value.srv == answers[i].srv
                                      && hit.value.roid == answers[i].roid
  {
    if answers == [] then None else
    var later := FirstHit(answers[1..]);
    assert answers[0].ok ==> IsFirstOk(answers, 0);
    assert !answers[0].ok ==> forall i :: IsFirstOk(answers[1..], i) ==> IsFirstOk(answers, i + 1);
    if answers[0].ok then Some(Place(answers[0].srv, answers[0].roid)) else later
  }

  predicate IsFirstOk(answers: seq<Answer>, i: int) {
    0 <= i < |answers| && answers[i].ok && forall j :: 0 <= j < i ==> !answers[j].ok
  }

  /** `*user/check_role`. */
  function CheckStatus(username: string, c: Option<Connection>, sessions: set<nat>, roid: int, srv: nat): Status {
    if username == "" || !(1 <= roid <= MAX_ROID) then BadRequest
    else if c.None? || c.value.session !in sessions then GsUserNotOnline
    else if c.value.currentRoid != roid then GsRoidNotMatch
    else if c.value.currentSrv != srv then GsServiceUuidNotMatch
    else GsOk
  }

  /** Dead, or silent for more than three intervals. */
  predicate Stale(c: Connection, sessions: set<nat>, now: real, interval: real) {
    c.session !in sessions || now - c.pongTime > interval * 3.0
  }

  class UserService {
    const zone: int
    const rateLimit: nat
    const pingInterval: real
    var sessions: set<nat>                       // sessions whose weak references are good
    var users: set<string>
    var connections: map<string, Connection>
    var expiredUsernames: seq<string>

    constructor (zone: int, rateLimit: nat, pingInterval: real)
      ensures connections == map[] && users == {} && expiredUsernames == []
      ensures this.zone == zone && this.rateLimit == rateLimit && this.pingInterval == pingInterval
    {
      this.zone, this.rateLimit, this.pingInterval := zone, rateLimit, pingInterval;
      sessions, users, connections, expiredUsernames := {}, {}, map[], [];
    }

    function ConnectionOf(username: string): Option<Connection>
      reads this
    {
      if username in connections then Some(connections[username]) else None
    }

    // ----- Timer -----

    /** The ping timer: records that are stale are dropped with their users, all others have their meters reset, and
        those that have been silent for an interval are pinged. */
    method OnPingTimer(now: real) returns (pinged: set<string>, shut: set<nat>)
      requires expiredUsernames == []
      modifies this`users, this`connections, this`expiredUsernames
      ensures expiredUsernames == []
      ensures connections == map u | u in old(connections)
                                     && !Stale(old(connections)[u], sessions, now, pingInterval) ::
                old(connections)[u].(rateTime := now, rateCounter := 0)
      ensures users == old(users) - (set u | u in old(connections)
                                           && Stale(old(connections)[u], sessions, now, pingInterval))
      ensures forall u :: u in connections <==>
        && u in old(connections) && old(connections)[u].session in sessions
        && now - old(connections)[u].pongTime <= pingInterval * 3.0
      ensures pinged == set u | u in connections && now - old(connections)[u].pongTime > pingInterval
      ensures shut == set u | u in old(connections) && Stale(old(connections)[u], sessions, now, pingInterval)
                              && old(connections)[u].session in sessions :: old(connections)[u].session
    {
      ghost var gone := set u | u in connections && Stale(connections[u], sessions, now, pingInterval);
      pinged, shut := Sweep(now, gone);
      DropExpired(gone);
    }

    /** The loop over the connection records: resets the meters of those that are not stale, and lists the others. */
    method Sweep(now: real, ghost gone: set<string>) returns (pinged: set<string>, shut: set<nat>)
      requires expiredUsernames == []
      requires gone == set u | u in connections && Stale(connections[u], sessions, now, pingInterval)
      modifies this`connections, this`expiredUsernames
      ensures forall u :: u in expiredUsernames <==> u in gone
      ensures connections.Keys == old(connections).Keys
      ensures forall u :: u in connections ==>
        connections[u] == if u in gone then old(connections)[u]
                          else old(connections)[u].(rateTime := now, rateCounter := 0)
      ensures pinged == set u | u in old(connections) && u !in gone && now - old(connections)[u].pongTime > pingInterval
      ensures shut == set u | u in gone && old(connections)[u].session in sessions :: old(connections)[u].session
    {
      ghost var was := connections;
      pinged, shut := {}, {};
      var rest := connections.Keys;
      while rest != {}
        invariant rest <= was.Keys == connections.Keys
        invariant forall u :: u in was ==>
          connections[u] == if u in rest || u in gone then was[u] else was[u].(rateTime := now, rateCounter := 0)
        invariant forall u :: u in expiredUsernames <==> u in gone && u !in rest
        invariant pinged == set u | u in was && u !in rest && u !in gone && now - was[u].pongTime > pingInterval
        invariant shut == set u | u in gone && u !in rest && was[u].session in sessions :: was[u].session
        decreases rest
      {
        var u :| u in rest;
        rest := rest - {u};
        var c := connections[u];
        if c.session !in sessions {
          expiredUsernames := expiredUsernames + [u];
        } else if now - c.pongTime > pingInterval * 3.0 {
          shut := shut + {c.session};
          expiredUsernames := expiredUsernames + [u];
        } else {
          connections := connections[u := c.(rateTime := now, rateCounter := 0)];
          if now - c.pongTime > pingInterval {
            pinged := pinged + {u};
          }
        }
      }
    }

    /** Pop the list of expired user names from its back. */
    method DropExpired(ghost gone: set<string>)
      requires forall u :: u in expiredUsernames <==> u in gone
      modifies this`users, this`connections, this`expiredUsernames
      ensures expiredUsernames == []
      ensures users == old(users) - gone && connections == old(connections) - gone
    {
      ghost var dropped: set<string> := {};
      while expiredUsernames != []
        invariant users == old(users) - dropped && connections == old(connections) - dropped
        invariant dropped <= gone
        invariant forall u :: u in gone && u !in dropped ==> u in expiredUsernames
        invariant forall u :: u in expiredUsernames ==> u in gone
        decreases |expiredUsernames|
      {
        var u := expiredUsernames[|expiredUsernames| - 1];
        expiredUsernames := expiredUsernames[..|expiredUsernames| - 1];
        users, connections := users - {u}, connections - {u};
        dropped := dropped + {u};
        assert forall v :: v in gone && v !in dropped ==> v in expiredUsernames;
      }
      assert dropped == gone;
    }

    // ----- Client messages -----

    /** The rate check of an incoming message. */
    method CheckRate(username: string, now: real) returns (ok: bool)
      requires username in connections
      modifies this`connections
      ensures ok <==> RateLimit.Passes(rateLimit, MeterOf(old(connections)[username]), now)
      ensures var c := old(connections)[username];
        ok <==> (c.rateCounter + 1) as real
                <= (rateLimit as real) * (if now - c.rateTime >= 1.0 then now - c.rateTime else 1.0)
      ensures username in connections && connections == old(connections)[username :=
        old(connections)[username].(rateCounter := connections[username].rateCounter)]
      ensures MeterOf(connections[username])
           == RateLimit.Step(MeterOf(old(connections)[username]), RateLimit.Message(now))
    {
      var c := connections[username];
      var limit := rateLimit as real;
      var duration := now - c.rateTime;
      if duration >= 1.0 {
        limit := limit * duration;
      }
      connections := connections[username := c.(rateCounter := c.rateCounter + 1)];
      ok := (c.rateCounter + 1) as real <= limit;
    }

    // ----- Roles -----

    method CheckRole(username: string, roid: int, srv: nat) returns (status: Status)
      ensures status == CheckStatus(username, ConnectionOf(username), sessions, roid, srv)
      ensures status == GsOk <==>
        && username != "" && 1 <= roid <= MAX_ROID
        && username in connections && connections[username].session in sessions
        && View(connections[username]).lock == Some(Place(srv, roid))
      ensures status == GsUserNotOnline ==> username !in connections || connections[username].session !in sessions
      ensures status == GsRoidNotMatch ==> username in connections && connections[username].currentRoid != roid
      ensures status == GsServiceUuidNotMatch ==>
        username in connections && connections[username].currentRoid == roid && connections[username].currentSrv != srv
      ensures status == BadRequest <==> username == "" || roid < 1 || roid > MAX_ROID
    {
      if username == "" || roid < 1 || roid > MAX_ROID { return BadRequest; }
      if username !in connections || connections[username].session !in sessions { return GsUserNotOnline; }
      var c := connections[username];
      if c.currentRoid != roid { return GsRoidNotMatch; }
      if c.currentSrv != srv { return GsServiceUuidNotMatch; }
      status := GsOk;
    }

    method FindLast(records: seq<ServiceRecord>, kind: string) returns (found: Option<nat>)
      ensures found == LastOf(records, zone, kind)
    {
      found := None;
      for i := 0 to |records|
        invariant found == LastOf(records[..i], zone, kind)
      {
        assert records[..i + 1][..i] == records[..i];
        if records[i].zone == zone && records[i].kind == kind {
          found := Some(records[i].uuid);
        }
      }
      assert records[..|records|] == records;
    }

    /** `do_role_login_common` up to its first request. Here and below, a record that the ping timer has dropped
        while an answer was awaited ends the callback with an exception. */
    method LoginCommon(username: string, roid: int, records: seq<ServiceRecord>) returns (next: Session)
      requires roid != 0
      modifies this`connections
      ensures OnlyLockOf(old(connections), connections, username)
      ensures username !in old(connections) ==> next == Idle
      ensures username in old(connections) ==>
        (View(connections[username]), next)
        == Ownership.LoginCommon(View(old(connections)[username]), roid, ChoiceIn(records))
    {
      if username !in connections { return Idle; }
      var c := connections[username];
      if c.currentRoid == roid { return Idle; }
      if c.currentRoid != 0 { return LoggingOut(Place(c.currentSrv, c.currentRoid), Some(roid), LogoutAsked); }
      next := BeginLogin(username, roid, records);
    }

    /** The second half: find a server, lock the connection, then ask. */
    method BeginLogin(username: string, roid: int, records: seq<ServiceRecord>) returns (next: Session)
      requires username in connections && roid != 0 && connections[username].currentRoid == 0
      modifies this`connections
      ensures OnlyLockOf(old(connections), connections, username)
      ensures (View(connections[username]), next)
           == Ownership.BeginLogin(View(old(connections)[username]), roid, ChoiceIn(records))
    {
      var logic := FindLast(records, "logic");
      if logic.None? { return Idle; }
      connections := connections[username := connections[username].(currentRoid := roid, currentSrv := logic.value)];
      var monitor := FindLast(records, "monitor");
      if monitor.None? { return Idle; }
      next := LoggingIn(Place(logic.value, roid), LoginAsked);
    }

    /** After `*role/logout` has been answered. `next` is set if a login goes on from here. */
    method LogoutReplied(username: string, next: Option<int>, records: seq<ServiceRecord>) returns (session: Session)
      requires next != Some(0)
      modifies this`connections
      ensures OnlyLockOf(old(connections), connections, username)
      ensures username !in old(connections) ==> session == Idle
      ensures username in old(connections) ==>
        (View(connections[username]), session)
        == Ownership.LogoutReplied(View(old(connections)[username]), next, ChoiceIn(records))
      ensures username in old(connections) && (next.None? || LastOf(records, zone, "logic").None?) ==>
        session == Idle && connections[username].currentRoid == 0
      ensures username in old(connections) && next.Some? && LastOf(records, zone, "logic").Some? ==>
        && connections[username].currentRoid == next.value
        && connections[username].currentSrv == LastOf(records, zone, "logic").value
    {
      if username !in connections { return Idle; }
      connections := connections[username := connections[username].(currentRoid := 0, currentSrv := 0)];
      if next.None? { return Idle; }
      session := BeginLogin(username, next.value, records);
    }

    /** After all logic servers have answered `*role/reconnect`: use an online role, or else resume a fresh one. The
        request is only made by a connection without a role. */
    method ReconnectReplied(username: string, answers: seq<Answer>) returns (freshRoid: Option<int>, next: Session)
      requires forall i :: 0 <= i < |answers| && answers[i].ok ==> answers[i].roid != 0
      requires username in connections ==> connections[username].currentRoid == 0 && 0 !in connections[username].avatars
      modifies this`connections
      ensures OnlyLockOf(old(connections), connections, username)
      ensures username !in old(connections) ==> next == Idle
      ensures username in old(connections) ==>
        && (View(connections[username]), next)
           == Ownership.ReconnectReplied(View(old(connections)[username]), FirstHit(answers), freshRoid)
        && (FirstHit(answers).None? ==> FreshOf(connections[username].avatars, freshRoid))
        && (forall i :: IsFirstOk(answers, i) ==>
              next == Idle && connections[username].currentRoid == answers[i].roid
              && connections[username].currentSrv == answers[i].srv)
        && ((forall i :: 0 <= i < |answers| ==> !answers[i].ok) ==>
              connections[username].currentRoid == 0
              && next == match freshRoid case Some(r) => Loading(r) case None => Idle)
    {
      if username !in connections { return None, Idle; }
      freshRoid := None;
      var i := 0;
      while i < |answers| && !answers[i].ok
        invariant 0 <= i <= |answers| && FirstHit(answers) == FirstHit(answers[i..])
      {
        assert answers[i..][1..] == answers[i + 1..];
        i := i + 1;
      }
      if i < |answers| {
        connections := connections[username :=
                         connections[username].(currentRoid := answers[i].roid, currentSrv := answers[i].srv)];
        return None, Idle;
      }
      freshRoid := FindFresh(connections[username].avatars);
      next := match freshRoid case Some(r) => Loading(r) case None => Idle;
    }

    method FindFresh(avatars: map<int, string>) returns (freshRoid: Option<int>)
      ensures FreshOf(avatars, freshRoid)
    {
      freshRoid := None;
      var rest := avatars.Keys;
      while rest != {}
        invariant rest <= avatars.Keys
        invariant freshRoid.Some? ==> freshRoid.value in avatars && avatars[freshRoid.value] == ""
        invariant freshRoid.None? ==> forall r :: r in avatars && r !in rest ==> avatars[r] != ""
        decreases rest
      {
        ghost var some := Member(rest);
        var r :| r in rest;
        rest := rest - {r};
        if avatars[r] == "" {
          freshRoid := Some(r);
        }
      }
    }

    /** A session that has been accepted replaces the user's previous one, which is shut down. */
    method Register(username: string, session: nat, now: real, avatars: map<int, string>) returns (shut: Option<nat>)
      modifies this`users, this`connections
      ensures username in connections && connections == old(connections)[username := connections[username]]
      ensures View(connections[username]) == Conn(None, avatars.Keys)
      ensures connections[username].session == session && MeterOf(connections[username]) == RateLimit.Meter(now, 0)
      ensures users == old(users) + {username}
      ensures shut == if username in old(connections) && old(connections)[username].session in sessions
                      then Some(old(connections)[username].session) else None
    {
      shut := None;
      if username in connections && connections[username].session in sessions {
        shut := Some(connections[username].session);
      }
      users := users + {username};
      connections := connections[username := Connection(session, now, now, 0, 0, 0, avatars)];
    }

    /** The close event: the record goes, if it is this session's, and its role's logic server is to be told. */
    method OnClose(username: string, session: nat) returns (notify: Option<Place>)
      modifies this`connections
      ensures if username in old(connections) && old(connections)[username].session == session
              then connections == old(connections) - {username} && notify == View(old(connections)[username]).lock
              else connections == old(connections) && notify == None
    {
      notify := None;
      if username !in connections || connections[username].session != session { return; }
      var c := connections[username];
      connections := connections - {username};
      if c.currentRoid != 0 {
        notify := Some(Place(c.currentSrv, c.currentRoid));
      }
    }

    function ChoiceIn(records: seq<ServiceRecord>): Choice {
      Choice(LastOf(records, zone, "logic"), LastOf(records, zone, "monitor").Some?)
    }
  }

  /** Nothing has changed but the lock in this user's record, if there is one. */
  ghost predicate OnlyLockOf(before: map<string, Connection>, after: map<string, Connection>, username: string) {
    if username in before && username in after then
      after == before[username := before[username].(currentRoid := after[username].currentRoid,
                                                    currentSrv := after[username].currentSrv)]
    else after == before
  }

  /** A role whose avatar is empty, if there is one. */
  ghost predicate FreshOf(avatars: map<int, string>, freshRoid: Option<int>) {
    match freshRoid
    case Some(r) => r in avatars && avatars[r] == ""
    case None => forall r :: r in avatars ==> avatars[r] != ""
  }

  // ----- Checks by the logic servers -----

  /** In every reachable state of the ownership protocol, the agent confirms a hydrated role of a user whose session
      is alive, to the logic server that has it, exactly if the welcome exchange is over; and it never confirms
      anything else about that user. */
  lemma RoleIsConfirmedIff(servers: set<nat>, es: seq<Event>, u: User, c: Connection, sessions: set<nat>, p: Place)
    requires Legal(Initial(servers), es)
    requires var w := Run(Initial(servers), es); u in w.conns && w.conns[u] == View(c) && Mine(w, u, p)
    requires u != "" && 1 <= p.roid <= MAX_ROID && c.session in sessions
    ensures var w := Run(Initial(servers), es);
      CheckStatus(u, Some(c), sessions, p.roid, p.srv) == GsOk <==> !SessionOf(w, u).Reconnecting?
    ensures forall roid, srv :: CheckStatus(u, Some(c), sessions, roid, srv) == GsOk ==> Place(srv, roid) == p
  {
    InitialInv(servers);
    RunKeepsInv(Initial(servers), es);
    assert UserInv(Run(Initial(servers), es), u);
  }

  /** During the welcome exchange it does deny a role that its client has just taken over: such states are reached
      from any server set, for any user and role. The logic server then treats the client as gone. */
  lemma WelcomeIsDenied(servers: set<nat>, u: User, p: Place) returns (es: seq<Event>)
    requires p.srv in servers
    ensures Legal(Initial(servers), es) && Welcomed(Run(Initial(servers), es), u, p)
    ensures forall c, sessions :: View(c) == Run(Initial(servers), es).conns[u] ==>
      CheckStatus(u, Some(c), sessions, p.roid, p.srv) != GsOk
  {
    es := WelcomeIsReachable(servers, u, p);
  }
}
