/** The logic server's role service: hydrated roles, their life cycle, and the snapshots it sends
    to Redis.

    A request handler runs as a fiber that is suspended at each `yield`. The functions below are the
    code between two yields; `Step` interleaves them, one per event, in any order. */
module LogicRoles {
  import opened Options

  // A service UUID; 0 is the nil UUID.
  type Uuid = nat

  // ----- State -----

  /** A hook called on a role. An inactivity logout carries the time of the tick that decided it. */
  datatype Hook =
    | OnLogin
    | OnConnect(agent: Uuid)
    | OnDisconnect(at: int)
    | OnLogout(idleAt: Option<int>)

  /** A `Role` object; `hooks` lists the hooks called on it so far, oldest first. */
  datatype Role = Role(roid: int, agent: Uuid, dcSince: int, hooks: seq<Hook>) {
    predicate Disconnected() { agent == 0 }

    function Connect(newAgent: Uuid): Role {
      this.(agent := newAgent, hooks := hooks + [OnConnect(newAgent)])
    }

    function Disconnect(now: int): Role {
      this.(agent := 0, dcSince := now, hooks := hooks + [OnDisconnect(now)])
    }

    function Logout(idleAt: Option<int>): Role {
      this.(hooks := hooks + [OnLogout(idleAt)])
    }
  }

  /** An entry of `hyd_roles`: the record's role ID, and which object it shares. */
  datatype Hydrated = Hydrated(roid: int, role: nat)

  /** A SET sent to Redis under the key of `roid`: object `role` as it was after `upto` hooks. */
  datatype Write = Write(roid: int, role: nat, upto: nat)

  /** A suspended handler. `ticket` is the position of the SET it waits for. */
  datatype Fiber =
    | LoginFetching(roid: int, agent: Uuid)
    | LogoutStoring(roid: int, hyd: Hydrated, ticket: nat)
    | VisitChecking(roid: int, hyd: Hydrated, now: int)
    | VisitLoggingOut(roid: int, hyd: Hydrated, ticket: nat)
    | VisitStoring(roid: int, hyd: Hydrated, ticket: nat)

  /** Redis takes the SETs of one server in issue order: `writes[..applied]` have taken effect. */
  datatype State = State(
    idleLimit: int,                  // disconnect_to_logout_duration
    roles: map<nat, Role>,
    hydRoles: map<int, Hydrated>,
    fibers: map<nat, Fiber>,
    writes: seq<Write>,
    applied: nat)

  function Initial(idleLimit: int): State {
    State(idleLimit, map[], map[], map[], [], 0)
  }

  // ----- Code between yields -----

  function WithRole(s: State, o: nat, role: Role): State {
    s.(roles := s.roles[o := role])
  }

  /** Serialise object `hyd.role` and issue the SET. */
  function Issue(s: State, hyd: Hydrated): State
    requires hyd.role in s.roles
  {
    s.(writes := s.writes + [Write(hyd.roid, hyd.role, |s.roles[hyd.role].hooks|)])
  }

  function Suspend(s: State, f: nat, fiber: Fiber): State {
    s.(fibers := s.fibers[f := fiber])
  }

  function Finish(s: State, f: nat): State {
    s.(fibers := s.fibers - {f})
  }

  function LoginStart(s: State, f: nat, roid: int, agent: Uuid): State
    requires HydOk(s)
  {
    if roid in s.hydRoles then
      var o := s.hydRoles[roid].role;
      WithRole(s, o, s.roles[o].Connect(agent))
    else
      Suspend(s, f, LoginFetching(roid, agent))
  }

  /** `found` is the role ID in the record that GETEX returned; `o` is the identity of the new object. */
  function LoginResume(s: State, f: nat, found: Option<int>, o: nat): State
    requires HydOk(s) && f in s.fibers && s.fibers[f].LoginFetching?
  {
    var agent, t := s.fibers[f].agent, Finish(s, f);
    match found
    case None => t
    case Some(roid) =>
      if roid in t.hydRoles then
        var winner := t.hydRoles[roid].role;
        WithRole(t, winner, t.roles[winner].Connect(agent))
      else
        WithRole(t, o, Role(roid, 0, 0, [OnLogin]).Connect(agent))
          .(hydRoles := t.hydRoles[roid := Hydrated(roid, o)])
  }

  /** The entry that the loop over the roles of a reconnect request ends with. */
  function LastHydrated(hydRoles: map<int, Hydrated>, roids: seq<int>): (last: Option<Hydrated>)
    ensures last.Some? ==> exists k :: k in roids && k in hydRoles && hydRoles[k] == last.value
    ensures last.None? ==> forall k :: k in roids ==> k !in hydRoles
  {
    if roids == [] then None else
    var roid := roids[|roids| - 1];
    assert roid in roids;
    if roid in hydRoles then Some(hydRoles[roid]) else LastHydrated(hydRoles, roids[..|roids| - 1])
  }

  function Reconnect(s: State, roids: seq<int>, agent: Uuid): State
    requires HydOk(s)
  {
    match LastHydrated(s.hydRoles, roids)
    case None => s
    case Some(hyd) => WithRole(s, hyd.role, s.roles[hyd.role].Connect(agent))
  }

  function Disconnect(s: State, roid: int, now: int): State
    requires HydOk(s)
  {
    if roid !in s.hydRoles then s else
    var o := s.hydRoles[roid].role;
    WithRole(s, o, s.roles[o].Disconnect(now))
  }

  function LogoutStart(s: State, f: nat, roid: int, now: int): State
    requires HydOk(s)
  {
    if roid !in s.hydRoles then s else
    var hyd := s.hydRoles[roid];
    var role := s.roles[hyd.role];
    var offline := if role.Disconnected() then role else role.Disconnect(now);
    Suspend(Issue(WithRole(s, hyd.role, offline.Logout(None)), hyd), f, LogoutStoring(roid, hyd, |s.writes|))
  }

  /** The end of both logout paths: the SET has been answered. */
  function Release(s: State, f: nat): State
    requires f in s.fibers
  {
    Finish(s, f).(hydRoles := s.hydRoles - {s.fibers[f].roid})
  }

  function VisitStart(s: State, f: nat, roid: int, now: int): State
    requires HydOk(s)
  {
    if roid !in s.hydRoles then s else
    var hyd := s.hydRoles[roid];
    if s.roles[hyd.role].Disconnected() then VisitDecide(s, f, roid, hyd, now)
    else Suspend(s, f, VisitChecking(roid, hyd, now))
  }

  /** The agent has answered; `ok` is whether its status was "gs_ok". */
  function VisitChecked(s: State, f: nat, ok: bool): State
    requires f in s.fibers && s.fibers[f].VisitChecking? && s.fibers[f].hyd.role in s.roles
  {
    var fiber, t := s.fibers[f], Finish(s, f);
    if fiber.roid !in t.hydRoles then t else
    var o := fiber.hyd.role;
    var u := if ok then t else WithRole(t, o, t.roles[o].Disconnect(fiber.now));
    VisitDecide(u, f, fiber.roid, fiber.hyd, fiber.now)
  }

  function VisitDecide(s: State, f: nat, roid: int, hyd: Hydrated, now: int): State
    requires hyd.role in s.roles
  {
    var role := s.roles[hyd.role];
    if role.Disconnected() && now - role.dcSince >= s.idleLimit then
      Suspend(Issue(WithRole(s, hyd.role, role.Logout(Some(now))), hyd), f,
              VisitLoggingOut(roid, hyd, |s.writes|))
    else
      Suspend(Issue(s, hyd), f, VisitStoring(roid, hyd, |s.writes|))
  }

  function VisitStored(s: State, f: nat): State
    requires f in s.fibers && s.fibers[f].VisitStoring?
  {
    var fiber, t := s.fibers[f], Finish(s, f);
    if fiber.roid in t.hydRoles then t.(hydRoles := t.hydRoles[fiber.roid := fiber.hyd]) else t
  }

  // ----- Interleavings -----

  datatype Event =
    | ELogin(f: nat, roid: int, agent: Uuid)
    | ELoaded(f: nat, found: Option<int>, o: nat)
    | EReconnect(roids: seq<int>, agent: Uuid)
    | EDisconnect(roid: int, now: int)
    | ELogout(f: nat, roid: int, now: int)
    | EVisit(f: nat, roid: int, now: int)
    | EChecked(f: nat, ok: bool)
    | EStored(f: nat)
    | EApply

  /** What the scheduler, Redis and the identities of new objects allow. */
  predicate Enabled(s: State, e: Event) {
    match e
    case ELogin(f, _, agent) => f !in s.fibers && agent != 0
    case ELoaded(f, found, o) =>
      && f in s.fibers && s.fibers[f].LoginFetching?
      && (found.Some? ==> found.value == s.fibers[f].roid && o !in s.roles)
    case EReconnect(_, agent) => agent != 0
    case EDisconnect(_, _) => true
    case ELogout(f, _, _) => f !in s.fibers
    case EVisit(f, _, _) => f !in s.fibers
    case EChecked(f, _) => f in s.fibers && s.fibers[f].VisitChecking?
    case EStored(f) =>
      && f in s.fibers
      && (s.fibers[f].LogoutStoring? || s.fibers[f].VisitLoggingOut? || s.fibers[f].VisitStoring?)
      && s.fibers[f].ticket < s.applied
    case EApply => s.applied < |s.writes|
  }

  function Step(s: State, e: Event): State
    requires RefsOk(s) && Enabled(s, e)
  {
    match e
    case ELogin(f, roid, agent) => LoginStart(s, f, roid, agent)
    case ELoaded(f, found, o) => LoginResume(s, f, found, o)
    case EReconnect(roids, agent) => Reconnect(s, roids, agent)
    case EDisconnect(roid, now) => Disconnect(s, roid, now)
    case ELogout(f, roid, now) => LogoutStart(s, f, roid, now)
    case EVisit(f, roid, now) => VisitStart(s, f, roid, now)
    case EChecked(f, ok) => VisitChecked(s, f, ok)
    case EStored(f) => if s.fibers[f].VisitStoring? then VisitStored(s, f) else Release(s, f)
    case EApply => s.(applied := s.applied + 1)
  }

  // ----- Invariants -----

  predicate HydOk(s: State) {
    forall k :: k in s.hydRoles ==> s.hydRoles[k].role in s.roles
  }

  /** Entries and fibers agree with their key, and share objects that have been logged in. */
  predicate EntryOk(s: State, roid: int, hyd: Hydrated) {
    hyd.roid == roid && hyd.role in s.roles && s.roles[hyd.role].roid == roid && s.roles[hyd.role].hooks != []
  }

  predicate RefsOk(s: State) {
    && (forall k :: k in s.hydRoles ==> EntryOk(s, k, s.hydRoles[k]))
    && (forall f :: f in s.fibers ==>
         if s.fibers[f].LoginFetching? then s.fibers[f].agent != 0 else EntryOk(s, s.fibers[f].roid, s.fibers[f].hyd))
  }

  /** The latest connect or disconnect hook. */
  function LastLink(hooks: seq<Hook>): Option<Hook> {
    if hooks == [] then None else
    var last := hooks[|hooks| - 1];
    if last.OnConnect? || last.OnDisconnect? then Some(last) else LastLink(hooks[..|hooks| - 1])
  }

  /** A logout may follow these hooks: the latest link event is a disconnect, old enough if the
      logout is for inactivity. */
  predicate MayLogOut(hooks: seq<Hook>, idleAt: Option<int>, idleLimit: int) {
    var link := LastLink(hooks);
    && link.Some? && link.value.OnDisconnect?
    && (idleAt.Some? ==> idleAt.value - link.value.at >= idleLimit)
  }

  ghost predicate HooksOk(hooks: seq<Hook>, idleLimit: int) {
    && (hooks != [] ==> hooks[0] == OnLogin)
    && (forall i :: 0 < i < |hooks| ==> hooks[i] != OnLogin)
    && (forall i :: 0 <= i < |hooks| && hooks[i].OnLogout? ==> MayLogOut(hooks[..i], hooks[i].idleAt, idleLimit))
  }

  ghost predicate RoleOk(role: Role, idleLimit: int) {
    && HooksOk(role.hooks, idleLimit)
    && LastLink(role.hooks).Some?
    && (role.Disconnected() ==> LastLink(role.hooks) == Some(OnDisconnect(role.dcSince)))
    && (!role.Disconnected() ==> LastLink(role.hooks).value.OnConnect?)
  }

  ghost predicate Inv(s: State) {
    && RefsOk(s)
    && s.applied <= |s.writes|
    && (forall o :: o in s.roles ==> RoleOk(s.roles[o], s.idleLimit))
  }

  lemma ConnectKeepsRoleOk(role: Role, agent: Uuid, idleLimit: int)
    requires RoleOk(role, idleLimit) && agent != 0
    ensures RoleOk(role.Connect(agent), idleLimit)
  {
    assert forall i :: 0 <= i <= |role.hooks| ==> role.Connect(agent).hooks[..i] == role.hooks[..i];
  }

  lemma DisconnectKeepsRoleOk(role: Role, now: int, idleLimit: int)
    requires RoleOk(role, idleLimit)
    ensures RoleOk(role.Disconnect(now), idleLimit)
  {
    assert forall i :: 0 <= i <= |role.hooks| ==> role.Disconnect(now).hooks[..i] == role.hooks[..i];
  }

  lemma LogoutKeepsRoleOk(role: Role, idleAt: Option<int>, idleLimit: int)
    requires RoleOk(role, idleLimit)
    requires role.Disconnected() && (idleAt.Some? ==> idleAt.value - role.dcSince >= idleLimit)
    ensures RoleOk(role.Logout(idleAt), idleLimit)
  {
    assert forall i :: 0 <= i <= |role.hooks| ==> role.Logout(idleAt).hooks[..i] == role.hooks[..i];
  }

  lemma FreshRoleOk(roid: int, agent: Uuid, idleLimit: int)
    requires agent != 0
    ensures RoleOk(Role(roid, 0, 0, [OnLogin]).Connect(agent), idleLimit)
  {
    assert LastLink([OnLogin, OnConnect(agent)]) == Some(OnConnect(agent));
  }

  lemma UpdateKeepsInv(s: State, o: nat, role: Role)
    requires Inv(s) && o in s.roles && RoleOk(role, s.idleLimit) && role.roid == s.roles[o].roid
    ensures Inv(WithRole(s, o, role))
  {
    assert role.hooks != [];
  }

  lemma StoreKeepsInv(s: State, f: nat, hyd: Hydrated, fiber: Fiber)
    requires Inv(s) && EntryOk(s, hyd.roid, hyd) && f !in s.fibers
    requires !fiber.LoginFetching? && EntryOk(s, fiber.roid, fiber.hyd)
    ensures Inv(Suspend(Issue(s, hyd), f, fiber))
  {
  }

  lemma DecideKeepsInv(s: State, f: nat, roid: int, hyd: Hydrated, now: int)
    requires Inv(s) && EntryOk(s, roid, hyd) && f !in s.fibers
    ensures Inv(VisitDecide(s, f, roid, hyd, now)) && VisitDecide(s, f, roid, hyd, now).idleLimit == s.idleLimit
  {
    var role := s.roles[hyd.role];
    if role.Disconnected() && now - role.dcSince >= s.idleLimit {
      LogoutKeepsRoleOk(role, Some(now), s.idleLimit);
      UpdateKeepsInv(s, hyd.role, role.Logout(Some(now)));
      StoreKeepsInv(WithRole(s, hyd.role, role.Logout(Some(now))), f, hyd, VisitLoggingOut(roid, hyd, |s.writes|));
    } else {
      StoreKeepsInv(s, f, hyd, VisitStoring(roid, hyd, |s.writes|));
    }
  }

  lemma LogoutKeepsInv(s: State, f: nat, roid: int, now: int)
    requires Inv(s) && f !in s.fibers
    ensures Inv(LogoutStart(s, f, roid, now))
  {
    if roid in s.hydRoles {
      var hyd := s.hydRoles[roid];
      var role := s.roles[hyd.role];
      DisconnectKeepsRoleOk(role, now, s.idleLimit);
      var offline := if role.Disconnected() then role else role.Disconnect(now);
      LogoutKeepsRoleOk(offline, None, s.idleLimit);
      UpdateKeepsInv(s, hyd.role, offline.Logout(None));
      StoreKeepsInv(WithRole(s, hyd.role, offline.Logout(None)), f, hyd, LogoutStoring(roid, hyd, |s.writes|));
    }
  }

  lemma LinkKeepsInv(s: State, o: nat, agent: Uuid, now: int)
    requires Inv(s) && o in s.roles
    ensures agent != 0 ==> Inv(WithRole(s, o, s.roles[o].Connect(agent)))
    ensures Inv(WithRole(s, o, s.roles[o].Disconnect(now)))
  {
    if agent != 0 {
      ConnectKeepsRoleOk(s.roles[o], agent, s.idleLimit);
    }
    DisconnectKeepsRoleOk(s.roles[o], now, s.idleLimit);
  }

  lemma FinishKeepsInv(s: State, f: nat)
    requires Inv(s)
    ensures Inv(Finish(s, f))
  {
  }

  /** A new object enters the table. */
  lemma HydrateKeepsInv(s: State, roid: int, agent: Uuid, o: nat)
    requires Inv(s) && roid !in s.hydRoles && o !in s.roles && agent != 0
    ensures Inv(WithRole(s, o, Role(roid, 0, 0, [OnLogin]).Connect(agent))
                  .(hydRoles := s.hydRoles[roid := Hydrated(roid, o)]))
  {
    FreshRoleOk(roid, agent, s.idleLimit);
  }

  lemma LoadedKeepsInv(s: State, f: nat, found: Option<int>, o: nat)
    requires Inv(s) && Enabled(s, ELoaded(f, found, o))
    ensures Inv(LoginResume(s, f, found, o))
  {
    var fiber, t := s.fibers[f], Finish(s, f);
    FinishKeepsInv(s, f);
    if found.Some? && fiber.roid in s.hydRoles {
      LinkKeepsInv(t, t.hydRoles[fiber.roid].role, fiber.agent, 0);
    } else if found.Some? {
      HydrateKeepsInv(t, fiber.roid, fiber.agent, o);
    }
  }

  lemma CheckedKeepsInv(s: State, f: nat, ok: bool)
    requires Inv(s) && Enabled(s, EChecked(f, ok))
    ensures Inv(VisitChecked(s, f, ok)) && VisitChecked(s, f, ok).idleLimit == s.idleLimit
  {
    var fiber, t := s.fibers[f], Finish(s, f);
    FinishKeepsInv(s, f);
    if fiber.roid in s.hydRoles {
      var o := fiber.hyd.role;
      LinkKeepsInv(t, o, 0, fiber.now);
      DecideKeepsInv(if ok then t else WithRole(t, o, t.roles[o].Disconnect(fiber.now)),
                     f, fiber.roid, fiber.hyd, fiber.now);
    }
  }

  lemma StepKeepsInv(s: State, e: Event)
    requires Inv(s) && Enabled(s, e)
    ensures Inv(Step(s, e)) && Step(s, e).idleLimit == s.idleLimit
  {
    match e {
      case ELogin(f, roid, agent) =>
        if roid in s.hydRoles {
          LinkKeepsInv(s, s.hydRoles[roid].role, agent, 0);
        }
      case ELoaded(f, found, o) =>
        LoadedKeepsInv(s, f, found, o);
      case EReconnect(roids, agent) =>
        var last := LastHydrated(s.hydRoles, roids);
        if last.Some? {
          LinkKeepsInv(s, last.value.role, agent, 0);
        }
      case EDisconnect(roid, now) =>
        if roid in s.hydRoles {
          LinkKeepsInv(s, s.hydRoles[roid].role, 0, now);
        }
      case ELogout(f, roid, now) =>
        LogoutKeepsInv(s, f, roid, now);
      case EVisit(f, roid, now) =>
        if roid in s.hydRoles && s.roles[s.hydRoles[roid].role].Disconnected() {
          DecideKeepsInv(s, f, roid, s.hydRoles[roid], now);
        }
      case EChecked(f, ok) =>
        CheckedKeepsInv(s, f, ok);
      case EStored(f) =>
      case EApply =>
    }
  }

  // ----- Runs -----

  ghost predicate Legal(s: State, es: seq<Event>)
    decreases |es|
  {
    es == [] || (RefsOk(s) && Enabled(s, es[0]) && Legal(Step(s, es[0]), es[1..]))
  }

  ghost function Run(s: State, es: seq<Event>): State
    requires Legal(s, es)
    decreases |es|
  {
    if es == [] then s else Run(Step(s, es[0]), es[1..])
  }

  lemma {:induction false} RunKeepsInv(s: State, es: seq<Event>)
    requires Inv(s) && Legal(s, es)
    ensures Inv(Run(s, es)) && Run(s, es).idleLimit == s.idleLimit
    decreases |es|
  {
    if es != [] {
      StepKeepsInv(s, es[0]);
      RunKeepsInv(Step(s, es[0]), es[1..]);
    }
  }

  /** Hook k is the latest connect or disconnect among the first `end` hooks. */
  ghost predicate IsLastLink(hooks: seq<Hook>, k: nat, end: nat) {
    && k < end <= |hooks|
    && (hooks[k].OnConnect? || hooks[k].OnDisconnect?)
    && forall m :: k < m < end ==> !hooks[m].OnConnect? && !hooks[m].OnDisconnect?
  }

  lemma {:induction false} LastLinkIsLast(hooks: seq<Hook>, end: nat) returns (k: nat)
    requires end <= |hooks| && LastLink(hooks[..end]).Some?
    ensures IsLastLink(hooks, k, end) && LastLink(hooks[..end]) == Some(hooks[k])
  {
    if hooks[end - 1].OnConnect? || hooks[end - 1].OnDisconnect? {
      k := end - 1;
    } else {
      assert hooks[..end][..end - 1] == hooks[..end - 1];
      k := LastLinkIsLast(hooks, end - 1);
    }
  }

  /** For every role object and every interleaving: `on_logout` fires only when the latest connect or
      disconnect hook is a disconnect, and an inactivity logout only when the tick's time is at least
      the configured duration after that disconnect. */
  lemma LogoutOnlyWhenDisconnected(idleLimit: int, es: seq<Event>, o: nat, i: nat)
    requires Legal(Initial(idleLimit), es) && o in Run(Initial(idleLimit), es).roles
    requires var hooks := Run(Initial(idleLimit), es).roles[o].hooks; i < |hooks| && hooks[i].OnLogout?
    ensures var hooks := Run(Initial(idleLimit), es).roles[o].hooks;
      exists k: nat :: IsLastLink(hooks, k, i) && hooks[k].OnDisconnect?
               && (hooks[i].idleAt.Some? ==> hooks[i].idleAt.value - hooks[k].at >= idleLimit)
  {
    RunKeepsInv(Initial(idleLimit), es);
    var role := Run(Initial(idleLimit), es).roles[o];
    assert RoleOk(role, idleLimit);
    var k := LastLinkIsLast(role.hooks, i);
  }

  /** Every object that ever enters the table is logged in exactly once, before any other hook. */
  lemma LoginOnceAndFirst(idleLimit: int, es: seq<Event>, roid: int)
    requires Legal(Initial(idleLimit), es) && roid in Run(Initial(idleLimit), es).hydRoles
    ensures var s := Run(Initial(idleLimit), es);
      var hyd := s.hydRoles[roid];
      && hyd.roid == roid && hyd.role in s.roles && s.roles[hyd.role].roid == roid
      && var hooks := s.roles[hyd.role].hooks;
      hooks != [] && forall i :: 0 <= i < |hooks| ==> (hooks[i].OnLogin? <==> i == 0)
  {
    RunKeepsInv(Initial(idleLimit), es);
    assert RoleOk(Run(Initial(idleLimit), es).roles[Run(Initial(idleLimit), es).hydRoles[roid].role], idleLimit);
  }

  // ----- Runs, one event after another -----

  lemma {:induction false} RunAppend(s: State, es: seq<Event>, e: Event)
    requires Legal(s, es) && RefsOk(Run(s, es)) && Enabled(Run(s, es), e)
    ensures Legal(s, es + [e]) && Run(s, es + [e]) == Step(Run(s, es), e)
    decreases |es|
  {
    if es == [] {
      assert [] + [e] == [e] && [e][1..] == [];
      assert Legal(Step(s, e), []) && Run(Step(s, e), []) == Step(s, e);
    } else {
      RunAppend(Step(s, es[0]), es[1..], e);
      assert (es + [e])[1..] == es[1..] + [e];
    }
  }

  lemma {:induction false} RunPrefix(s: State, es: seq<Event>, n: nat)
    requires Legal(s, es) && n <= |es|
    ensures Legal(s, es[..n])
    decreases |es|
  {
    if n > 0 {
      RunPrefix(Step(s, es[0]), es[1..], n - 1);
      assert es[..n][1..] == es[1..][..n - 1];
    }
  }

  lemma WritesGrow(s: State, e: Event)
    requires RefsOk(s) && Enabled(s, e)
    ensures s.writes <= Step(s, e).writes && s.applied <= Step(s, e).applied
  {
  }

  lemma {:induction false} RunGrows(s: State, es: seq<Event>, n: nat)
    requires Legal(s, es) && n <= |es|
    ensures Legal(s, es[..n])
    ensures Run(s, es[..n]).writes <= Run(s, es).writes && Run(s, es[..n]).applied <= Run(s, es).applied
    decreases |es|
  {
    RunPrefix(s, es, n);
    if es != [] {
      var t, rest := Step(s, es[0]), es[1..];
      if n == 0 {
        RunGrows(t, rest, 0);
        assert rest[..0] == [] && es[..0] == [];
        WritesGrow(s, es[0]);
      } else {
        RunGrows(t, rest, n - 1);
        assert es[..n][1..] == rest[..n - 1];
      }
    }
  }

  // ----- A check that comes too early -----

  /** It leaves the role hydrated and disconnected. */
  lemma DeniedCheck(s: State, roid: int, f: nat, now: int)
    requires Inv(s) && roid in s.hydRoles && f !in s.fibers && !s.roles[s.hydRoles[roid].role].Disconnected()
    ensures Enabled(s, EVisit(f, roid, now))
    ensures var s2 := Step(s, EVisit(f, roid, now));
      && Inv(s2) && Enabled(s2, EChecked(f, false))
      && var s3 := Step(s2, EChecked(f, false));
      && Inv(s3) && s3.idleLimit == s.idleLimit && s3.hydRoles == s.hydRoles && s3.fibers.Keys <= s.fibers.Keys + {f}
      && var role := s3.roles[s3.hydRoles[roid].role]; role.Disconnected() && role.dcSince == now
  {
    StepKeepsInv(s, EVisit(f, roid, now));
    StepKeepsInv(Step(s, EVisit(f, roid, now)), EChecked(f, false));
    CheckIsDenied(Step(s, EVisit(f, roid, now)), roid, f, now);
  }

  lemma CheckIsDenied(s: State, roid: int, f: nat, now: int)
    requires RefsOk(s) && roid in s.hydRoles
    requires f in s.fibers && s.fibers[f] == VisitChecking(roid, s.hydRoles[roid], now)
    ensures var t := Step(s, EChecked(f, false));
      && t.hydRoles == s.hydRoles && t.fibers.Keys == s.fibers.Keys && s.hydRoles[roid].role in t.roles
      && var role := t.roles[t.hydRoles[roid].role]; role.Disconnected() && role.dcSince == now
  {
  }

  lemma LateVisit(s: State, roid: int, f: nat, now: int)
    requires Inv(s) && roid in s.hydRoles && f !in s.fibers
    requires var role := s.roles[s.hydRoles[roid].role]; role.Disconnected() && now - role.dcSince >= s.idleLimit
    ensures Enabled(s, EVisit(f, roid, now))
    ensures var t := Step(s, EVisit(f, roid, now));
      f in t.fibers && t.fibers[f].VisitLoggingOut? && t.fibers[f].roid == roid
  {
  }

  lemma LoneReconnect(s: State, roid: int, agent: Uuid)
    requires RefsOk(s) && roid in s.hydRoles
    ensures var o := s.hydRoles[roid].role; Reconnect(s, [roid], agent) == WithRole(s, o, s.roles[o].Connect(agent))
  {
    assert LastHydrated(s.hydRoles, [roid]) == Some(s.hydRoles[roid]);
  }

  /** What a denied check does to a role that its client has just taken over: it is disconnected; and unless the
      client connects once more, a visit at least `idleLimit` later logs it out, although its client is there. */
  lemma DeniedCheckDisconnects(s: State, roid: int, agent: Uuid, f: nat, now: int, g: nat, later: int)
    requires Inv(s) && roid in s.hydRoles && agent != 0 && f !in s.fibers && g !in s.fibers && f != g
    requires later - now >= s.idleLimit
    ensures var s1 := Step(s, EReconnect([roid], agent));
      && Inv(s1) && s1.roles[s1.hydRoles[roid].role].agent == agent && Enabled(s1, EVisit(f, roid, now))
      && var s2 := Step(s1, EVisit(f, roid, now));
      && Inv(s2) && Enabled(s2, EChecked(f, false))
      && var s3 := Step(s2, EChecked(f, false));
      && Inv(s3) && roid in s3.hydRoles && s3.roles[s3.hydRoles[roid].role].Disconnected()
      && Enabled(s3, EVisit(g, roid, later))
      && var s4 := Step(s3, EVisit(g, roid, later));
      g in s4.fibers && s4.fibers[g].VisitLoggingOut? && s4.fibers[g].roid == roid
  {
    var s1 := Step(s, EReconnect([roid], agent));
    LoneReconnect(s, roid, agent);
    StepKeepsInv(s, EReconnect([roid], agent));
    DeniedCheck(s1, roid, f, now);
    LateVisit(Step(Step(s1, EVisit(f, roid, now)), EChecked(f, false)), roid, g, later);
  }
}
