/** Who may hold a user's role: the agents' sessions, their locks, and the logic servers' tables.

    A session is a fiber on an agent; its callbacks do not overlap, and a user's next session opens only
    after the previous one has ended. Requests to logic servers arrive, are worked on across yields and are
    answered; roles time out by themselves; a connection record may be dropped at any moment. */
module Ownership {
  import opened Options

  type User = string

  /** A role on a logic server. */
  datatype Place = Place(srv: nat, roid: int)

  /** What matters of a connection record: `current_roid` with `current_logic_srv`, and `cached_raw_avatars`. */
  datatype Conn = Conn(lock: Option<Place>, cached: set<int>)

  datatype LogoutPhase = LogoutAsked | LogoutStoring | LogoutDone
  datatype LoginPhase = LoginAsked | LoginFetching | LoginDone

  /** What the session's fiber is waiting for. */
  datatype Session =
    | Offline
    | Listing                                                                  // open: *role/list
    | Publishing(roids: set<int>)                                              // open: user record to Redis
    | Reconnecting(waiting: set<nat>, roids: set<int>, found: set<Place>)      // welcome: *role/reconnect to all
    | Idle                                                                     // no callback is running
    | Loading(roid: int)                                                       // *role/load before a login
    | Acquiring                                                                // +role/create: *nickname/acquire
    | Creating(roid: int)                                                      // +role/create: *role/create
    | LoggingOut(target: Place, next: Option<int>, logout: LogoutPhase)        // *role/logout
    | LoggingIn(target: Place, login: LoginPhase)                              // *role/login
    | Closing(target: Place)                                                   // close: *role/disconnect

  /** `owner[r]` is the user of role r in MySQL; `hydrated` are the entries of all `hyd_roles` tables. */
  datatype World = World(
    servers: set<nat>,
    owner: map<int, User>,
    hydrated: set<Place>,
    conns: map<User, Conn>,
    sessions: map<User, Session>)

  function Initial(servers: set<nat>): World {
    World(servers, map[], {}, map[], map[])
  }

  function SessionOf(w: World, u: User): Session {
    if u in w.sessions then w.sessions[u] else Offline
  }

  // ----- The agent's code between yields -----

  /** Which logic server the loop over the service list ends with, and whether a monitor is online. */
  datatype Choice = Choice(logic: Option<nat>, monitor: bool)

  /** The second half of `do_role_login_common`: lock, then ask. An exception ends the callback. */
  function BeginLogin(conn: Conn, roid: int, choice: Choice): (Conn, Session) {
    match choice.logic
    case None => (conn, Idle)
    case Some(srv) =>
      (conn.(lock := Some(Place(srv, roid))),
       if choice.monitor then LoggingIn(Place(srv, roid), LoginAsked) else Idle)
  }

  /** `do_role_login_common`: a role that is locked already needs nothing, another one is logged out first. */
  function LoginCommon(conn: Conn, roid: int, choice: Choice): (Conn, Session) {
    match conn.lock
    case None => BeginLogin(conn, roid, choice)
    case Some(p) => if p.roid == roid then (conn, Idle) else (conn, LoggingOut(p, Some(roid), LogoutAsked))
  }

  /** After `*role/logout` has been answered: unlock, and go on with a login if this was part of one. */
  function LogoutReplied(conn: Conn, next: Option<int>, choice: Choice): (Conn, Session) {
    var unlocked := conn.(lock := None);
    match next
    case None => (unlocked, Idle)
    case Some(roid) => BeginLogin(unlocked, roid, choice)
  }

  /** After all servers have answered `*role/reconnect`: lock an online role; else resume a fresh one. */
  function ReconnectReplied(conn: Conn, hit: Option<Place>, freshRoid: Option<int>): (Conn, Session) {
    match hit
    case Some(p) => (conn.(lock := Some(p)), Idle)
    case None => (conn, match freshRoid case Some(r) => Loading(r) case None => Idle)
  }

  function With(w: World, u: User, next: (Conn, Session)): World {
    w.(conns := w.conns[u := next.0], sessions := w.sessions[u := next.1])
  }

  function Turn(w: World, u: User, next: Session): World {
    w.(sessions := w.sessions[u := next])
  }

  // ----- Events -----

  datatype Event =
    | Open(u: User)
    | Refuse(u: User)                                        // the open callback fails before a record exists
    | Listed(u: User)
    | Published(u: User)
    | ReconnectAt(u: User, srv: nat, online: Option<int>)    // a logic server handles *role/reconnect
    | Reconnected(u: User, hit: Option<Place>, freshRoid: Option<int>)
    | Loaded(u: User, choice: Choice)
    | AskLogin(u: User, roid: int)                           // +role/login
    | AskLogout(u: User)                                     // +role/logout
    | AskCreate(u: User)                                     // +role/create
    | Acquired(u: User, serial: Option<int>)
    | Created(u: User, choice: Choice)
    | LogoutAt(u: User)                                      // the logic server handles *role/logout
    | LogoutStored(u: User)
    | LogoutAnswered(u: User, choice: Choice)
    | LoginAt(u: User)                                       // the logic server handles *role/login
    | LoginFetched(u: User, loaded: bool)
    | LoginAnswered(u: User)
    | Close(u: User)
    | Closed(u: User)
    | Drop(u: User)                                          // the ping timer erases the record
    | Reap(p: Place)                                         // a logic server times a role out
    | LoseLogout(u: User)                                    // unreliable RPC: *role/logout fails

  predicate Enabled(w: World, e: Event) {
    match e
    case Open(u) => SessionOf(w, u).Offline?
    case Refuse(u) => SessionOf(w, u).Listing? || SessionOf(w, u).Publishing?
    case Listed(u) => SessionOf(w, u).Listing?
    case Published(u) => SessionOf(w, u).Publishing?
    case ReconnectAt(u, srv, online) =>
      && SessionOf(w, u).Reconnecting? && srv in SessionOf(w, u).waiting
      && (match online
          case Some(r) => r in SessionOf(w, u).roids && Place(srv, r) in w.hydrated
          case None => forall r :: r in SessionOf(w, u).roids ==> Place(srv, r) !in w.hydrated)
    case Reconnected(u, hit, freshRoid) =>
      && SessionOf(w, u).Reconnecting? && SessionOf(w, u).waiting == {}
      && (match hit case Some(p) => p in SessionOf(w, u).found case None => SessionOf(w, u).found == {})
      && (freshRoid.Some? ==> freshRoid.value in SessionOf(w, u).roids)
    case Loaded(u, choice) => SessionOf(w, u).Loading? && ChoiceOk(w, choice)
    case AskLogin(u, _) => SessionOf(w, u).Idle? && u in w.conns
    case AskLogout(u) => SessionOf(w, u).Idle? && u in w.conns
    case AskCreate(u) => SessionOf(w, u).Idle? && u in w.conns
    case Acquired(u, serial) => SessionOf(w, u).Acquiring?
    case Created(u, choice) => SessionOf(w, u).Creating? && ChoiceOk(w, choice)
    case LogoutAt(u) => SessionOf(w, u).LoggingOut? && SessionOf(w, u).logout.LogoutAsked?
    case LogoutStored(u) => SessionOf(w, u).LoggingOut? && SessionOf(w, u).logout.LogoutStoring?
    case LogoutAnswered(u, choice) =>
      SessionOf(w, u).LoggingOut? && SessionOf(w, u).logout.LogoutDone? && ChoiceOk(w, choice)
    case LoginAt(u) => SessionOf(w, u).LoggingIn? && SessionOf(w, u).login.LoginAsked?
    case LoginFetched(u, _) => SessionOf(w, u).LoggingIn? && SessionOf(w, u).login.LoginFetching?
    case LoginAnswered(u) => SessionOf(w, u).LoggingIn? && SessionOf(w, u).login.LoginDone?
    case Close(u) => SessionOf(w, u).Idle?
    case Closed(u) => SessionOf(w, u).Closing?
    case Drop(u) => true
    case Reap(p) => true
    case LoseLogout(u) => SessionOf(w, u).LoggingOut? && SessionOf(w, u).logout.LogoutAsked?
  }

  predicate ChoiceOk(w: World, choice: Choice) {
    choice.logic.Some? ==> choice.logic.value in w.servers
  }

  function Step(w: World, e: Event): World
    requires Enabled(w, e)
  {
    match e
    case Open(u) => Turn(w, u, Listing)
    case Refuse(u) => Turn(w, u, Offline)
    case Listed(u) => Turn(w, u, Publishing(set r | r in w.owner && w.owner[r] == u))
    case Published(u) =>
      var roids := SessionOf(w, u).roids;
      With(w, u, (Conn(None, roids), if roids == {} then Idle else Reconnecting(w.servers, roids, {})))
    case ReconnectAt(u, srv, online) =>
      var q := SessionOf(w, u);
      Turn(w, u, q.(waiting := q.waiting - {srv},
                    found := match online case Some(r) => q.found + {Place(srv, r)} case None => q.found))
    case Reconnected(u, hit, freshRoid) =>
      if u !in w.conns then Turn(w, u, Idle) else With(w, u, ReconnectReplied(w.conns[u], hit, freshRoid))
    case Loaded(u, choice) =>
      if u !in w.conns then Turn(w, u, Idle) else With(w, u, LoginCommon(w.conns[u], SessionOf(w, u).roid, choice))
    case AskLogin(u, roid) =>
      var conn := w.conns[u];
      if (conn.lock.Some? && conn.lock.value.roid == roid) || roid !in conn.cached then w else Turn(w, u, Loading(roid))
    case AskLogout(u) =>
      (match w.conns[u].lock case None => w case Some(p) => Turn(w, u, LoggingOut(p, None, LogoutAsked)))
    case AskCreate(u) => Turn(w, u, Acquiring)
    case Acquired(u, serial) => Turn(w, u, match serial case Some(r) => Creating(r) case None => Idle)
    case Created(u, choice) =>
      var r := SessionOf(w, u).roid;
      if r in w.owner && w.owner[r] != u then Turn(w, u, Idle) else
      var x := w.(owner := w.owner[r := u]);
      if u !in w.conns then Turn(x, u, Idle)
      else With(x, u, LoginCommon(w.conns[u].(cached := w.conns[u].cached + {r}), r, choice))
    case LogoutAt(u) =>
      var q := SessionOf(w, u);
      Turn(w, u, q.(logout := if q.target in w.hydrated then LogoutStoring else LogoutDone))
    case LogoutStored(u) =>
      var q := SessionOf(w, u);
      Turn(w, u, q.(logout := LogoutDone)).(hydrated := w.hydrated - {q.target})
    case LogoutAnswered(u, choice) =>
      if u !in w.conns then Turn(w, u, Idle)
      else With(w, u, LogoutReplied(w.conns[u], SessionOf(w, u).next, choice))
    case LoginAt(u) =>
      var q := SessionOf(w, u);
      Turn(w, u, q.(login := if q.target in w.hydrated then LoginDone else LoginFetching))
    case LoginFetched(u, loaded) =>
      var q := SessionOf(w, u);
      Turn(w, u, q.(login := LoginDone)).(hydrated := if loaded then w.hydrated + {q.target} else w.hydrated)
    case LoginAnswered(u) => Turn(w, u, Idle)
    case Close(u) =>
      if u !in w.conns then Turn(w, u, Offline) else
      Turn(w, u, match w.conns[u].lock case Some(p) => Closing(p) case None => Offline).(conns := w.conns - {u})
    case Closed(u) => Turn(w, u, Offline)
    case Drop(u) => w.(conns := w.conns - {u})
    case Reap(p) => w.(hydrated := w.hydrated - {p})
    case LoseLogout(u) => Turn(w, u, SessionOf(w, u).(logout := LogoutDone))
  }

  // ----- Invariant -----

  /** The user's hydrated roles. */
  ghost predicate Mine(w: World, u: User, p: Place) {
    p in w.hydrated && p.roid in w.owner && w.owner[p.roid] == u
  }

  ghost predicate AtMostOne(w: World, u: User) {
    forall p, q :: Mine(w, u, p) && Mine(w, u, q) ==> p == q
  }

  ghost predicate OnlyAt(w: World, u: User, target: Place) {
    forall p :: Mine(w, u, p) ==> p == target
  }

  ghost predicate Owns(w: World, u: User, roid: int) {
    roid in w.owner && w.owner[roid] == u
  }

  /** The lock is the only place where the user can have a hydrated role. */
  ghost predicate Locked(w: World, u: User) {
    u in w.conns ==> forall p :: Mine(w, u, p) ==> w.conns[u].lock == Some(p)
  }

  ghost predicate LockIs(w: World, u: User, lock: Option<Place>) {
    u in w.conns ==> w.conns[u].lock == lock
  }

  ghost predicate SessionOk(w: World, u: User) {
    match SessionOf(w, u)
    case Offline => AtMostOne(w, u) && u !in w.conns
    case Listing => AtMostOne(w, u) && u !in w.conns
    case Publishing(roids) => AtMostOne(w, u) && u !in w.conns && forall r :: r in roids <==> Owns(w, u, r)
    case Reconnecting(waiting, roids, found) =>
      && AtMostOne(w, u) && LockIs(w, u, None)
      && (forall r :: r in roids <==> Owns(w, u, r))
      && (forall p :: Mine(w, u, p) ==> p.srv in waiting || p in found)
      && (forall p, q :: p in found && Mine(w, u, q) ==> p == q)
      && (forall p :: p in found ==> Owns(w, u, p.roid))
    case Idle => AtMostOne(w, u) && Locked(w, u)
    case Loading(roid) => AtMostOne(w, u) && Locked(w, u) && Owns(w, u, roid)
    case Acquiring => AtMostOne(w, u) && Locked(w, u)
    case Creating(_) => AtMostOne(w, u) && Locked(w, u)
    case LoggingOut(target, next, logout) =>
      && OnlyAt(w, u, target) && LockIs(w, u, Some(target))
      && (logout.LogoutDone? ==> !Mine(w, u, target))
      && (next.Some? ==> Owns(w, u, next.value))
    case LoggingIn(target, _) =>
      && OnlyAt(w, u, target) && LockIs(w, u, Some(target))
      && Owns(w, u, target.roid) && target.srv in w.servers
    case Closing(_) => AtMostOne(w, u) && u !in w.conns
  }

  ghost predicate ConnOk(w: World, u: User) {
    u in w.conns ==>
      && (forall r :: r in w.conns[u].cached ==> Owns(w, u, r))
      && (w.conns[u].lock.Some? ==> Owns(w, u, w.conns[u].lock.value.roid))
  }

  ghost predicate UserInv(w: World, u: User) {
    SessionOk(w, u) && ConnOk(w, u)
  }

  ghost predicate WorldInv(w: World) {
    forall p :: p in w.hydrated ==> p.roid in w.owner && p.srv in w.servers
  }

  ghost predicate Inv(w: World) {
    WorldInv(w) && forall u :: UserInv(w, u)
  }

  // ----- Proof -----

  /** A step in which user v's session does not move, v's roles stay v's, and none of them gets hydrated. */
  lemma Frame(w: World, x: World, v: User)
    requires UserInv(w, v) && SessionOf(x, v) == SessionOf(w, v) && x.servers == w.servers
    requires v in x.conns ==> v in w.conns && x.conns[v] == w.conns[v]
    requires forall r :: Owns(x, v, r) <==> Owns(w, v, r)
    requires forall p :: Mine(x, v, p) ==> Mine(w, v, p)
    ensures UserInv(x, v)
  {
  }

  /** The user whose session an event moves. */
  function Actor(e: Event): Option<User> {
    match e
    case Reap(_) => None
    case Drop(_) => None
    case _ => Some(e.u)
  }

  lemma OthersKeepInv(w: World, e: Event, v: User)
    requires Inv(w) && Enabled(w, e) && Actor(e) != Some(v)
    ensures UserInv(Step(w, e), v)
  {
    var x := Step(w, e);
    assert UserInv(w, v);
    if Actor(e).Some? {
      assert UserInv(w, e.u);
    }
    Frame(w, x, v);
  }

  lemma BeginLoginOk(w: World, x: World, u: User, conn: Conn, roid: int, choice: Choice)
    requires ChoiceOk(w, choice) && Owns(x, u, roid) && x.servers == w.servers
    requires x.conns == w.conns[u := BeginLogin(conn, roid, choice).0]
    requires SessionOf(x, u) == BeginLogin(conn, roid, choice).1
    requires conn.lock == None && (forall r :: r in conn.cached ==> Owns(x, u, r)) && forall p :: !Mine(x, u, p)
    ensures UserInv(x, u)
  {
  }

  lemma LoginCommonOk(w: World, x: World, u: User, conn: Conn, roid: int, choice: Choice)
    requires ChoiceOk(w, choice) && Owns(x, u, roid) && x.servers == w.servers
    requires x.conns == w.conns[u := LoginCommon(conn, roid, choice).0]
    requires SessionOf(x, u) == LoginCommon(conn, roid, choice).1
    requires forall r :: r in conn.cached ==> Owns(x, u, r)
    requires conn.lock.Some? ==> Owns(x, u, conn.lock.value.roid)
    requires forall p :: Mine(x, u, p) ==> conn.lock == Some(p)
    ensures UserInv(x, u)
  {
    if conn.lock.None? {
      BeginLoginOk(w, x, u, conn, roid, choice);
    }
  }

  lemma OwnersStay(w: World, e: Event, v: User)
    requires Enabled(w, e)
    ensures forall r :: Owns(w, v, r) ==> Owns(Step(w, e), v, r)
    ensures forall r :: Owns(Step(w, e), v, r) ==> Owns(w, v, r) || (e.Created? && e.u == v)
  {
  }

  lemma HydratedGain(w: World, e: Event, p: Place)
    requires Enabled(w, e) && p in Step(w, e).hydrated && p !in w.hydrated
    ensures e.LoginFetched? && e.loaded && p == SessionOf(w, e.u).target
  {
  }

  /** The only way for a user to gain a hydrated role, and to gain a role at all. */
  lemma Gains(w: World, e: Event, v: User)
    requires Inv(w) && Enabled(w, e)
    ensures forall p :: Mine(Step(w, e), v, p) ==>
      Mine(w, v, p) || (e == LoginFetched(v, true) && p == SessionOf(w, v).target)
    ensures forall r :: Owns(w, v, r) ==> Owns(Step(w, e), v, r)
    ensures forall r :: Owns(Step(w, e), v, r) ==> Owns(w, v, r) || (e.Created? && e.u == v)
  {
    var x := Step(w, e);
    OwnersStay(w, e, v);
    forall p | Mine(x, v, p)
      ensures Mine(w, v, p) || (e == LoginFetched(v, true) && p == SessionOf(w, v).target)
    {
      assert Owns(x, v, p.roid);
      if p !in w.hydrated {
        HydratedGain(w, e, p);
        assert UserInv(w, e.u);
        OwnersStay(w, e, e.u);
      } else {
        assert p.roid in w.owner;
        OwnersStay(w, e, w.owner[p.roid]);
        assert Owns(w, w.owner[p.roid], p.roid);
      }
    }
  }

  lemma LogoutAnsweredOk(w: World, e: Event)
    requires Inv(w) && Enabled(w, e) && e.LogoutAnswered?
    ensures UserInv(Step(w, e), e.u)
  {
    Gains(w, e, e.u);
    var x, u := Step(w, e), e.u;
    assert UserInv(w, u);
    if u in w.conns && SessionOf(w, u).next.Some? {
      BeginLoginOk(w, x, u, w.conns[u].(lock := None), SessionOf(w, u).next.value, e.choice);
    }
  }

  lemma LoadedOk(w: World, e: Event)
    requires Inv(w) && Enabled(w, e) && e.Loaded?
    ensures UserInv(Step(w, e), e.u)
  {
    Gains(w, e, e.u);
    assert UserInv(w, e.u);
    if e.u in w.conns {
      LoginCommonOk(w, Step(w, e), e.u, w.conns[e.u], SessionOf(w, e.u).roid, e.choice);
    }
  }

  lemma CreatedOk(w: World, e: Event)
    requires Inv(w) && Enabled(w, e) && e.Created?
    ensures UserInv(Step(w, e), e.u)
  {
    var x, u, r := Step(w, e), e.u, SessionOf(w, e.u).roid;
    assert UserInv(w, u);
    Gains(w, e, u);
    if u in w.conns && !(r in w.owner && w.owner[r] != u) {
      LoginCommonOk(w, x, u, w.conns[u].(cached := w.conns[u].cached + {r}), r, e.choice);
    }
  }

  lemma OpeningOk(w: World, e: Event)
    requires Inv(w) && Enabled(w, e)
    requires e.Listed? || e.Published? || e.Open? || e.Refuse?
    ensures UserInv(Step(w, e), e.u)
  {
    Gains(w, e, e.u);
    assert UserInv(w, e.u) && WorldInv(w);
    if e.Published? {
      assert forall p :: Mine(w, e.u, p) ==> Owns(w, e.u, p.roid) && p.roid in SessionOf(w, e.u).roids;
    }
  }

  lemma ReconnectAtOk(w: World, e: Event)
    requires Inv(w) && Enabled(w, e) && e.ReconnectAt?
    ensures UserInv(Step(w, e), e.u)
  {
    Gains(w, e, e.u);
    var u, q := e.u, SessionOf(w, e.u);
    assert UserInv(w, u);
    match e.online {
      case None =>
        assert forall p :: Mine(w, u, p) ==> Owns(w, u, p.roid) && p == Place(p.srv, p.roid);
        assert forall p :: Mine(w, u, p) ==> p.srv != e.srv;
      case Some(r) =>
        assert Owns(w, u, r) && Mine(w, u, Place(e.srv, r));
    }
  }

  lemma ReconnectedOk(w: World, e: Event)
    requires Inv(w) && Enabled(w, e) && e.Reconnected?
    ensures UserInv(Step(w, e), e.u)
  {
    Gains(w, e, e.u);
    var x, u := Step(w, e), e.u;
    assert UserInv(w, u);
    if u in w.conns {
      assert forall p :: Mine(x, u, p) ==> p in SessionOf(w, u).found && e.hit == Some(p);
    }
  }

  lemma LogoutRpcOk(w: World, e: Event)
    requires Inv(w) && Enabled(w, e) && (e.LogoutAt? || e.LogoutStored?)
    ensures UserInv(Step(w, e), e.u)
  {
    Gains(w, e, e.u);
    assert UserInv(w, e.u);
  }

  lemma LoginRpcOk(w: World, e: Event)
    requires Inv(w) && Enabled(w, e) && (e.LoginAt? || e.LoginFetched? || e.LoginAnswered?)
    ensures UserInv(Step(w, e), e.u)
  {
    Gains(w, e, e.u);
    assert UserInv(w, e.u);
  }

  lemma AskOk(w: World, e: Event)
    requires Inv(w) && Enabled(w, e) && (e.AskLogin? || e.AskLogout? || e.AskCreate? || e.Acquired?)
    ensures UserInv(Step(w, e), e.u)
  {
    Gains(w, e, e.u);
    assert UserInv(w, e.u);
  }

  lemma ClosingOk(w: World, e: Event)
    requires Inv(w) && Enabled(w, e) && (e.Close? || e.Closed?)
    ensures UserInv(Step(w, e), e.u)
  {
    Gains(w, e, e.u);
    assert UserInv(w, e.u);
  }

  lemma StepKeepsInv(w: World, e: Event)
    requires Inv(w) && Enabled(w, e) && !e.LoseLogout?
    ensures Inv(Step(w, e))
  {
    var x := Step(w, e);
    forall v ensures UserInv(x, v) {
      if Actor(e) != Some(v) {
        OthersKeepInv(w, e, v);
      } else {
        match e {
          case LogoutAnswered(u, _) => LogoutAnsweredOk(w, e);
          case Loaded(u, _) => LoadedOk(w, e);
          case Created(u, _) => CreatedOk(w, e);
          case LogoutAt(u) => LogoutRpcOk(w, e);
          case LogoutStored(u) => LogoutRpcOk(w, e);
          case LoginAt(u) => LoginRpcOk(w, e);
          case LoginFetched(u, _) => LoginRpcOk(w, e);
          case LoginAnswered(u) => LoginRpcOk(w, e);
          case Close(u) => ClosingOk(w, e);
          case Closed(u) => ClosingOk(w, e);
          case Open(u) => OpeningOk(w, e);
          case Refuse(u) => OpeningOk(w, e);
          case Listed(u) => OpeningOk(w, e);
          case Published(u) => OpeningOk(w, e);
          case ReconnectAt(u, _, _) => ReconnectAtOk(w, e);
          case Reconnected(u, _, _) => ReconnectedOk(w, e);
          case _ => AskOk(w, e);
        }
      }
    }
    WorldInvStays(w, e);
  }

  lemma WorldInvStays(w: World, e: Event)
    requires Inv(w) && Enabled(w, e)
    ensures WorldInv(Step(w, e))
  {
    if e.LoginFetched? {
      assert UserInv(w, e.u);
    }
  }

  // ----- Runs -----

  /** A run with reliable RPC. */
  ghost predicate Legal(w: World, es: seq<Event>)
    decreases |es|
  {
    es == [] || (Enabled(w, es[0]) && !es[0].LoseLogout? && Legal(Step(w, es[0]), es[1..]))
  }

  ghost function Run(w: World, es: seq<Event>): World
    requires Legal(w, es)
    decreases |es|
  {
    if es == [] then w else Run(Step(w, es[0]), es[1..])
  }

  lemma {:induction false} RunKeepsInv(w: World, es: seq<Event>)
    requires Inv(w) && Legal(w, es)
    ensures Inv(Run(w, es))
    decreases |es|
  {
    if es != [] {
      StepKeepsInv(w, es[0]);
      RunKeepsInv(Step(w, es[0]), es[1..]);
    }
  }

  lemma InitialInv(servers: set<nat>)
    ensures Inv(Initial(servers))
  {
  }

  /** Single hydration: over every run of any number of users, agents' sessions and logic servers, at most one
      of a user's roles is hydrated, on at most one logic server. */
  lemma SingleHydration(servers: set<nat>, es: seq<Event>, u: User, p: Place, q: Place)
    requires Legal(Initial(servers), es)
    requires Mine(Run(Initial(servers), es), u, p) && Mine(Run(Initial(servers), es), u, q)
    ensures p == q
  {
    InitialInv(servers);
    RunKeepsInv(Initial(servers), es);
    assert UserInv(Run(Initial(servers), es), u);
  }

  /** Every entry of a table belongs to a user, so the above leaves no role out. */
  lemma HydratedRolesAreOwned(servers: set<nat>, es: seq<Event>, p: Place)
    requires Legal(Initial(servers), es) && p in Run(Initial(servers), es).hydrated
    ensures p.roid in Run(Initial(servers), es).owner
    ensures Mine(Run(Initial(servers), es), Run(Initial(servers), es).owner[p.roid], p)
  {
    InitialInv(servers);
    RunKeepsInv(Initial(servers), es);
  }

  /** Once the welcome exchange is over and while the connection record lasts, the lock is where the user's
      hydrated role is, and where a login in flight will put it - also when logic servers time roles out. */
  lemma HydratedMeansLocked(servers: set<nat>, es: seq<Event>, u: User)
    requires Legal(Initial(servers), es)
    ensures var w := Run(Initial(servers), es);
      u in w.conns && !SessionOf(w, u).Reconnecting? ==>
        && (forall p :: Mine(w, u, p) ==> w.conns[u].lock == Some(p))
        && (SessionOf(w, u).LoggingIn? ==> w.conns[u].lock == Some(SessionOf(w, u).target))
  {
    InitialInv(servers);
    RunKeepsInv(Initial(servers), es);
    assert UserInv(Run(Initial(servers), es), u);
  }

  ghost predicate Reaches(w: World, es: seq<Event>, x: World)
    decreases |es|
  {
    if es == [] then w == x else Enabled(w, es[0]) && Reaches(Step(w, es[0]), es[1..], x)
  }

  lemma OneStep(w: World, e: Event, es: seq<Event>, x: World)
    requires Enabled(w, e) && Reaches(Step(w, e), es, x)
    ensures Reaches(w, [e] + es, x)
  {
    assert ([e] + es)[1..] == es;
  }

  lemma ThreeSteps(w: World, e1: Event, e2: Event, e3: Event, es: seq<Event>, x: World)
    requires Enabled(w, e1) && Enabled(Step(w, e1), e2) && Enabled(Step(Step(w, e1), e2), e3)
    requires Reaches(Step(Step(Step(w, e1), e2), e3), es, x)
    ensures Reaches(w, [e1, e2, e3] + es, x)
  {
    OneStep(Step(Step(w, e1), e2), e3, es, x);
    OneStep(Step(w, e1), e2, [e3] + es, x);
    OneStep(w, e1, [e2] + ([e3] + es), x);
    assert [e1] + ([e2] + ([e3] + es)) == [e1, e2, e3] + es;
  }

  lemma LoseTheLogout(w: World, u: User, p: Place, r: int, c: Choice)
    requires SessionOf(w, u).Idle? && u in w.conns && w.conns[u].lock == Some(p)
    requires r in w.conns[u].cached && r != p.roid && ChoiceOk(w, c)
    ensures Enabled(w, AskLogin(u, r))
    ensures var w1 := Step(w, AskLogin(u, r));
      Enabled(w1, Loaded(u, c)) && Enabled(Step(w1, Loaded(u, c)), LoseLogout(u))
      && Step(Step(w1, Loaded(u, c)), LoseLogout(u))
         == w.(sessions := w.sessions[u := LoggingOut(p, Some(r), LogoutDone)])
  {
    var w2 := Step(Step(w, AskLogin(u, r)), Loaded(u, c));
    assert w2.conns == w.conns && w2.sessions == w.sessions[u := LoggingOut(p, Some(r), LogoutAsked)];
  }

  lemma LoginElsewhere(w: World, u: User, p: Place, r: int, srv: nat)
    requires SessionOf(w, u) == LoggingOut(p, Some(r), LogoutDone) && u in w.conns
    requires srv in w.servers && Place(srv, r) !in w.hydrated
    ensures var c := Choice(Some(srv), true);
      Enabled(w, LogoutAnswered(u, c))
      && var w1 := Step(w, LogoutAnswered(u, c));
      Enabled(w1, LoginAt(u)) && Enabled(Step(w1, LoginAt(u)), LoginFetched(u, true))
      && var x := Step(Step(w1, LoginAt(u)), LoginFetched(u, true));
      x.hydrated == w.hydrated + {Place(srv, r)} && x.owner == w.owner
  {
  }

  /** Reliable RPC is needed: the agent unlocks whatever `*role/logout` answers. From any state in which the user
      plays role p, has a second role r and a second server is online, losing that one request while the user
      changes roles leaves both hydrated. */
  lemma LostLogoutHydratesTwo(w: World, u: User, p: Place, r: int, srv: nat) returns (x: World)
    requires SessionOf(w, u).Idle? && u in w.conns && w.conns[u].lock == Some(p) && p in w.hydrated
    requires r in w.conns[u].cached && r != p.roid && srv in w.servers && Place(srv, r) !in w.hydrated
    ensures var c := Choice(Some(srv), true);
      Reaches(w, [AskLogin(u, r), Loaded(u, c), LoseLogout(u)]
                 + ([LogoutAnswered(u, c), LoginAt(u), LoginFetched(u, true)] + []), x)
    ensures x.hydrated == w.hydrated + {Place(srv, r)} && x.owner == w.owner
  {
    var c := Choice(Some(srv), true);
    LoseTheLogout(w, u, p, r, c);
    var w3 := Step(Step(Step(w, AskLogin(u, r)), Loaded(u, c)), LoseLogout(u));
    LoginElsewhere(w3, u, p, r, srv);
    x := Step(Step(Step(w3, LogoutAnswered(u, c)), LoginAt(u)), LoginFetched(u, true));
    ThreeSteps(w3, LogoutAnswered(u, c), LoginAt(u), LoginFetched(u, true), [], x);
    ThreeSteps(w, AskLogin(u, r), Loaded(u, c), LoseLogout(u),
               [LogoutAnswered(u, c), LoginAt(u), LoginFetched(u, true)] + [], x);
  }

  // ----- The welcome exchange -----

  lemma LegalCons(w: World, e: Event, es: seq<Event>)
    requires Enabled(w, e) && !e.LoseLogout? && Legal(Step(w, e), es)
    ensures Legal(w, [e] + es) && Run(w, [e] + es) == Run(Step(w, e), es)
  {
    assert ([e] + es)[1..] == es;
  }

  lemma {:induction false} LegalAppend(w: World, a: seq<Event>, b: seq<Event>)
    requires Legal(w, a) && Legal(Run(w, a), b)
    ensures Legal(w, a + b) && Run(w, a + b) == Run(Run(w, a), b)
    decreases |a|
  {
    if a == [] {
      assert a + b == b;
    } else {
      LegalAppend(Step(w, a[0]), a[1..], b);
      assert (a + b)[1..] == a[1..] + b;
    }
  }

  lemma LegalThree(w: World, e1: Event, e2: Event, e3: Event)
    requires !e1.LoseLogout? && !e2.LoseLogout? && !e3.LoseLogout?
    requires Enabled(w, e1) && Enabled(Step(w, e1), e2) && Enabled(Step(Step(w, e1), e2), e3)
    ensures Legal(w, [e1, e2, e3]) && Run(w, [e1, e2, e3]) == Step(Step(Step(w, e1), e2), e3)
  {
    var x := Step(Step(Step(w, e1), e2), e3);
    assert Legal(x, []) && Run(x, []) == x;
    LegalCons(Step(Step(w, e1), e2), e3, []);
    LegalCons(Step(w, e1), e2, [e3] + []);
    LegalCons(w, e1, [e2] + ([e3] + []));
    assert [e1] + ([e2] + ([e3] + [])) == [e1, e2, e3];
  }

  /** The user's session is idle, and the user plays role p. */
  ghost predicate Plays(w: World, u: User, p: Place) {
    && SessionOf(w, u).Idle? && u in w.conns && w.conns[u].lock == Some(p)
    && Mine(w, u, p) && p.srv in w.servers
  }

  /** The user's new connection waits for the logic servers; the one that has role p has already taken it over. */
  ghost predicate Welcomed(w: World, u: User, p: Place) {
    && SessionOf(w, u).Reconnecting? && p in SessionOf(w, u).found
    && u in w.conns && w.conns[u].lock == None && Mine(w, u, p)
  }

  function Leaving(u: User): seq<Event> {
    [Event.Close(u), Event.Closed(u), Event.Open(u)]
  }

  function Returning(u: User, p: Place): seq<Event> {
    [Event.Listed(u), Event.Published(u), ReconnectAt(u, p.srv, Some(p.roid))]
  }

  lemma LeavingClient(w: World, u: User, p: Place)
    requires Plays(w, u, p)
    ensures Legal(w, Leaving(u))
    ensures Run(w, Leaving(u)) == w.(conns := w.conns - {u}, sessions := w.sessions[u := Listing])
  {
    var x := Step(w, Event.Close(u));
    assert x.sessions == w.sessions[u := Closing(p)];
    var y := Step(x, Event.Closed(u));
    assert y.sessions == w.sessions[u := Offline];
    LegalThree(w, Event.Close(u), Event.Closed(u), Event.Open(u));
    assert Step(y, Event.Open(u)).sessions == w.sessions[u := Listing];
  }

  lemma ReturningClient(w: World, u: User, p: Place)
    requires SessionOf(w, u).Listing? && Mine(w, u, p) && p.srv in w.servers
    ensures Legal(w, Returning(u, p)) && Welcomed(Run(w, Returning(u, p)), u, p)
  {
    var x := Step(w, Event.Listed(u));
    var roids := SessionOf(x, u).roids;
    assert p.roid in roids && p == Place(p.srv, p.roid);
    var y := Step(x, Event.Published(u));
    assert SessionOf(y, u) == Reconnecting(w.servers, roids, {}) && y.hydrated == w.hydrated;
    LegalThree(w, Event.Listed(u), Event.Published(u), ReconnectAt(u, p.srv, Some(p.roid)));
  }

  /** Every client that loses its connection while playing a role, and comes back, goes through such a state. */
  lemma ClientComesBack(w: World, u: User, p: Place)
    requires Plays(w, u, p)
    ensures Legal(w, Leaving(u) + Returning(u, p)) && Welcomed(Run(w, Leaving(u) + Returning(u, p)), u, p)
  {
    LeavingClient(w, u, p);
    ReturningClient(Run(w, Leaving(u)), u, p);
    LegalAppend(w, Leaving(u), Returning(u, p));
  }

  function Creation(u: User, p: Place): seq<Event> {
    [AskCreate(u), Event.Acquired(u, Some(p.roid)), Event.Created(u, Choice(Some(p.srv), true))]
  }

  function FirstLogin(u: User): seq<Event> {
    [LoginAt(u), LoginFetched(u, true), LoginAnswered(u)]
  }

  lemma FirstConnection(servers: set<nat>, u: User)
    ensures Legal(Initial(servers), [Event.Open(u), Event.Listed(u), Event.Published(u)])
    ensures Run(Initial(servers), [Event.Open(u), Event.Listed(u), Event.Published(u)])
         == Initial(servers).(conns := map[u := Conn(None, {})], sessions := map[u := Idle])
  {
    var x := Step(Initial(servers), Event.Open(u));
    var y := Step(x, Event.Listed(u));
    assert SessionOf(y, u) == Publishing({});
    LegalThree(Initial(servers), Event.Open(u), Event.Listed(u), Event.Published(u));
  }

  lemma FirstRole(w: World, u: User, p: Place)
    requires SessionOf(w, u).Idle? && u in w.conns && w.conns[u].lock == None
    requires p.roid !in w.owner && p.srv in w.servers && p !in w.hydrated
    ensures Legal(w, Creation(u, p))
    ensures var x := Run(w, Creation(u, p));
      && SessionOf(x, u) == LoggingIn(p, LoginAsked) && u in x.conns && x.conns[u].lock == Some(p)
      && Owns(x, u, p.roid) && x.servers == w.servers && x.hydrated == w.hydrated
  {
    LegalThree(w, AskCreate(u), Event.Acquired(u, Some(p.roid)), Event.Created(u, Choice(Some(p.srv), true)));
  }

  lemma FirstPlay(w: World, u: User, p: Place)
    requires SessionOf(w, u) == LoggingIn(p, LoginAsked) && u in w.conns && w.conns[u].lock == Some(p)
    requires Owns(w, u, p.roid) && p.srv in w.servers && p !in w.hydrated
    ensures Legal(w, FirstLogin(u)) && Plays(Run(w, FirstLogin(u)), u, p)
  {
    LegalThree(w, LoginAt(u), LoginFetched(u, true), LoginAnswered(u));
  }

  /** And there are such clients: any user can create any role on any server, play it, and come back. */
  lemma WelcomeIsReachable(servers: set<nat>, u: User, p: Place) returns (es: seq<Event>)
    requires p.srv in servers
    ensures Legal(Initial(servers), es) && Welcomed(Run(Initial(servers), es), u, p)
  {
    var w, first := Initial(servers), [Event.Open(u), Event.Listed(u), Event.Published(u)];
    FirstConnection(servers, u);
    FirstRole(Run(w, first), u, p);
    LegalAppend(w, first, Creation(u, p));
    FirstPlay(Run(w, first + Creation(u, p)), u, p);
    LegalAppend(w, first + Creation(u, p), FirstLogin(u));
    var played := first + Creation(u, p) + FirstLogin(u);
    ClientComesBack(Run(w, played), u, p);
    LegalAppend(w, played, Leaving(u) + Returning(u, p));
    es := played + (Leaving(u) + Returning(u, p));
  }
}
