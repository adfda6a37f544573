/** What sessions can get to, and when a connection is locked: what the safety of `Ownership` leaves open. */
module Journeys {
  import opened Options
  import opened Ownership

  // ----- Moments of a run -----

  lemma {:induction false} LegalPrefix(w: World, es: seq<Event>, n: nat)
    requires Legal(w, es) && n <= |es|
    ensures Legal(w, es[..n])
    decreases |es|
  {
    if n > 0 {
      LegalPrefix(Step(w, es[0]), es[1..], n - 1);
      assert es[..n][1..] == es[1..][..n - 1];
    }
  }

  /** The world after the first m events. */
  ghost function After(w: World, es: seq<Event>, m: nat): World
    requires Legal(w, es) && m <= |es|
  {
    LegalPrefix(w, es, m);
    Run(w, es[..m])
  }

  lemma {:induction false} NextAfter(w: World, es: seq<Event>, m: nat)
    requires Legal(w, es) && m < |es|
    ensures Enabled(After(w, es, m), es[m]) && After(w, es, m + 1) == Step(After(w, es, m), es[m])
    decreases m
  {
    LegalPrefix(w, es, m);
    LegalPrefix(w, es, m + 1);
    if m == 0 {
      assert es[..1] == [es[0]] && [es[0]][1..] == [] && es[..0] == [];
      assert Run(Step(w, es[0]), []) == Step(w, es[0]);
    } else {
      NextAfter(Step(w, es[0]), es[1..], m - 1);
      assert es[..m][1..] == es[1..][..m - 1] && es[..m + 1][1..] == es[1..][..m];
    }
  }

  lemma Extend(w: World, es: seq<Event>, e: Event)
    requires Legal(w, es) && Enabled(Run(w, es), e) && !e.LoseLogout?
    ensures Legal(w, es + [e]) && Run(w, es + [e]) == Step(Run(w, es), e)
  {
    var x := Run(w, es);
    assert [e][1..] == [];
    assert Legal(Step(x, e), []) && Run(Step(x, e), []) == Step(x, e);
    LegalAppend(w, es, [e]);
  }

  // ----- When a connection is locked -----

  /** The role that the session is about to log in, once a server is chosen for it. */
  ghost predicate Wants(w: World, e: Event, u: User, roid: int) {
    || (e.Loaded? && e.u == u && SessionOf(w, u) == Loading(roid) && u in w.conns && w.conns[u].lock == None)
    || (e.Created? && e.u == u && SessionOf(w, u) == Creating(roid) && u in w.conns && w.conns[u].lock == None
        && (roid in w.owner ==> w.owner[roid] == u))
    || (e.LogoutAnswered? && e.u == u && SessionOf(w, u).LoggingOut? && SessionOf(w, u).next == Some(roid)
        && u in w.conns)
  }

  /** The event locks the connection: a logic server has taken the role over, or is chosen for its login. */
  ghost predicate TakesLock(w: World, e: Event, u: User, p: Place) {
    || (e.Reconnected? && e.u == u && e.hit == Some(p) && u in w.conns)
    || (Wants(w, e, u, p.roid) && e.choice.logic == Some(p.srv))
  }

  /** The event leaves it unlocked: the record is new, or a logout has been answered and no login goes on from there. */
  ghost predicate FreesLock(w: World, e: Event, u: User) {
    || e == Published(u)
    || (e.LogoutAnswered? && e.u == u && u in w.conns && SessionOf(w, u).LoggingOut?
        && (SessionOf(w, u).next.None? || e.choice.logic.None?))
  }

  lemma LockTaken(w: World, e: Event, u: User, p: Place)
    requires Enabled(w, e) && TakesLock(w, e, u, p)
    ensures u in Step(w, e).conns && Step(w, e).conns[u].lock == Some(p)
  {
  }

  lemma LockFreed(w: World, e: Event, u: User)
    requires Enabled(w, e) && FreesLock(w, e, u)
    ensures u in Step(w, e).conns && Step(w, e).conns[u].lock == None
  {
  }

  lemma LockStays(w: World, e: Event, u: User)
    requires Enabled(w, e) && u in Step(w, e).conns && !FreesLock(w, e, u) && forall p :: !TakesLock(w, e, u, p)
    ensures u in w.conns && Step(w, e).conns[u].lock == w.conns[u].lock
  {
    if (e.Loaded? || e.Created?) && e.u == u && e.choice.logic.Some? {
      assert !TakesLock(w, e, u, Place(e.choice.logic.value, SessionOf(w, u).roid));
    }
    if e.LogoutAnswered? && e.u == u && e.choice.logic.Some? && SessionOf(w, u).next.Some? {
      assert u in w.conns ==> TakesLock(w, e, u, Place(e.choice.logic.value, SessionOf(w, u).next.value));
    }
    if e.Reconnected? && e.u == u && e.hit.Some? && u in w.conns {
      assert TakesLock(w, e, u, e.hit.value);
    }
  }

  ghost predicate TakesAt(w: World, es: seq<Event>, i: nat, u: User, p: Place)
    requires Legal(w, es)
  {
    i < |es| && TakesLock(After(w, es, i), es[i], u, p)
  }

  /** Event j neither takes nor frees the lock. */
  ghost predicate RestsAt(w: World, es: seq<Event>, j: nat, u: User)
    requires Legal(w, es) && j < |es|
  {
    !FreesLock(After(w, es, j), es[j], u) && forall q :: !TakesLock(After(w, es, j), es[j], u, q)
  }

  /** The lock of a record at moment m: the latest event that took it, if nothing has freed it since. */
  lemma {:induction false} LockAt(w: World, es: seq<Event>, m: nat, u: User, p: Place)
    requires Legal(w, es) && m <= |es| && w.conns == map[] && u in After(w, es, m).conns
    ensures After(w, es, m).conns[u].lock == Some(p) <==> LockedSince(w, es, m, u, p)
    decreases m
  {
    assert es[..0] == [];
    if m > 0 {
      NextAfter(w, es, m - 1);
      var before, e := After(w, es, m - 1), es[m - 1];
      if q :| TakesLock(before, e, u, q) {
        LockTaken(before, e, u, q);
        JustTaken(w, es, m, u, p, q);
      } else if FreesLock(before, e, u) {
        LockFreed(before, e, u);
        JustFreed(w, es, m - 1, u, p);
      } else {
        LockStays(before, e, u);
        LockAt(w, es, m - 1, u, p);
        assert RestsAt(w, es, m - 1, u);
        StillLocked(w, es, m, u, p);
      }
    }
  }

  /** Among the first m events, event i is the latest that takes the lock, for p, and none after it frees it. */
  ghost predicate LockedSince(w: World, es: seq<Event>, m: nat, u: User, p: Place)
    requires Legal(w, es) && m <= |es|
  {
    exists i :: 0 <= i < m && SinceAt(w, es, i, m, u, p)
  }

  ghost predicate SinceAt(w: World, es: seq<Event>, i: nat, m: nat, u: User, p: Place)
    requires Legal(w, es) && i < m <= |es|
  {
    TakesAt(w, es, i, u, p) && forall j :: i < j < m ==> RestsAt(w, es, j, u)
  }

  lemma OneTaker(w: World, e: Event, u: User, p: Place, q: Place)
    requires Enabled(w, e) && TakesLock(w, e, u, p) && TakesLock(w, e, u, q)
    ensures p == q
  {
    LockTaken(w, e, u, p);
    LockTaken(w, e, u, q);
  }

  lemma JustTaken(w: World, es: seq<Event>, m: nat, u: User, p: Place, q: Place)
    requires Legal(w, es) && 0 < m <= |es| && Enabled(After(w, es, m - 1), es[m - 1])
    requires TakesLock(After(w, es, m - 1), es[m - 1], u, q)
    ensures LockedSince(w, es, m, u, p) <==> p == q
  {
    assert SinceAt(w, es, m - 1, m, u, q) && !RestsAt(w, es, m - 1, u);
    if LockedSince(w, es, m, u, p) {
      var i :| 0 <= i < m && SinceAt(w, es, i, m, u, p);
      assert i == m - 1;
      OneTaker(After(w, es, i), es[i], u, p, q);
    }
  }

  lemma JustFreed(w: World, es: seq<Event>, j: nat, u: User, p: Place)
    requires Legal(w, es) && j < |es| && FreesLock(After(w, es, j), es[j], u)
    requires forall q :: !TakesLock(After(w, es, j), es[j], u, q)
    ensures !LockedSince(w, es, j + 1, u, p)
  {
    assert !RestsAt(w, es, j, u);
  }

  lemma NotTaken(w: World, es: seq<Event>, j: nat, u: User, p: Place)
    requires Legal(w, es) && j < |es| && RestsAt(w, es, j, u)
    ensures !TakesAt(w, es, j, u, p)
  {
  }

  lemma SinceEarlier(w: World, es: seq<Event>, i: nat, m: nat, u: User, p: Place)
    requires Legal(w, es) && i < m < |es| && RestsAt(w, es, m, u)
    ensures SinceAt(w, es, i, m + 1, u, p) <==> SinceAt(w, es, i, m, u, p)
  {
  }

  lemma StillLocked(w: World, es: seq<Event>, m: nat, u: User, p: Place)
    requires Legal(w, es) && 0 < m <= |es| && RestsAt(w, es, m - 1, u)
    ensures LockedSince(w, es, m, u, p) <==> LockedSince(w, es, m - 1, u, p)
  {
    NotTaken(w, es, m - 1, u, p);
    if LockedSince(w, es, m, u, p) {
      var i :| 0 <= i < m && SinceAt(w, es, i, m, u, p);
      assert i < m - 1;
      SinceEarlier(w, es, i, m - 1, u, p);
    }
    if LockedSince(w, es, m - 1, u, p) {
      var i :| 0 <= i < m - 1 && SinceAt(w, es, i, m - 1, u, p);
      SinceEarlier(w, es, i, m - 1, u, p);
    }
  }

  /** In every run, as long as the connection record is there, it is locked on p exactly if some event took the lock for
      p and no later one took or freed it; in particular an answered logout leaves an idle connection unlocked. */
  lemma LockedIff(servers: set<nat>, es: seq<Event>, u: User, p: Place)
    requires Legal(Initial(servers), es) && u in Run(Initial(servers), es).conns
    ensures Run(Initial(servers), es).conns[u].lock == Some(p) <==> LockedSince(Initial(servers), es, |es|, u, p)
  {
    assert es[..|es|] == es;
    LockAt(Initial(servers), es, |es|, u, p);
  }

  // ----- What an idle user can get to -----

  /** The connection is idle and not locked. */
  ghost predicate Free(w: World, u: User) {
    SessionOf(w, u).Idle? && u in w.conns && w.conns[u].lock == None
  }

  /** Any cached role can be logged in from there, on any server. */
  lemma LoginIsReachable(w: World, u: User, p: Place) returns (es: seq<Event>)
    requires Inv(w) && Free(w, u) && p.roid in w.conns[u].cached && p.srv in w.servers
    ensures Legal(w, es) && Plays(Run(w, es), u, p) && Run(w, es).conns[u].cached == w.conns[u].cached
  {
    assert UserInv(w, u);
    var c := Choice(Some(p.srv), true);
    es := [];
    Extend(w, es, AskLogin(u, p.roid));
    es := es + [AskLogin(u, p.roid)];
    Extend(w, es, Event.Loaded(u, c));
    es := es + [Event.Loaded(u, c)];
    RunKeepsInv(w, es);
    var rest := AskedIsReachable(Run(w, es), u, p);
    LegalAppend(w, es, rest);
    es := es + rest;
  }

  /** A role that is played can be logged out; then it is out of the table, and the connection free. */
  lemma LogoutIsReachable(w: World, u: User, p: Place) returns (es: seq<Event>)
    requires Plays(w, u, p)
    ensures Legal(w, es) && Free(Run(w, es), u) && p !in Run(w, es).hydrated
    ensures Run(w, es).conns[u].cached == w.conns[u].cached && Run(w, es).servers == w.servers
  {
    var c := Choice(None, false);
    es := [];
    Extend(w, es, AskLogout(u));
    es := es + [AskLogout(u)];
    assert SessionOf(Run(w, es), u) == LoggingOut(p, None, LogoutAsked);
    Extend(w, es, LogoutAt(u));
    es := es + [LogoutAt(u)];
    Extend(w, es, LogoutStored(u));
    es := es + [LogoutStored(u)];
    Extend(w, es, LogoutAnswered(u, c));
    es := es + [LogoutAnswered(u, c)];
  }

  /** After an answered logout the same role, or any other cached one, can be played again. */
  lemma PlayAgainIsReachable(w: World, u: User, p: Place, q: Place) returns (es: seq<Event>)
    requires Inv(w) && Plays(w, u, p) && q.roid in w.conns[u].cached && q.srv in w.servers
    ensures Legal(w, es) && Plays(Run(w, es), u, q)
  {
    var out := LogoutIsReachable(w, u, p);
    RunKeepsInv(w, out);
    var back := LoginIsReachable(Run(w, out), u, q);
    LegalAppend(w, out, back);
    es := out + back;
  }

  /** A login of another role logs the first one out, and goes on from there. */
  lemma SwitchIsReachable(w: World, u: User, p: Place, q: Place) returns (es: seq<Event>)
    requires Inv(w) && Plays(w, u, p) && q.roid in w.conns[u].cached && q.roid != p.roid && q.srv in w.servers
    ensures Legal(w, es) && |es| >= 2
    ensures es[..2] == [AskLogin(u, q.roid), Event.Loaded(u, Choice(Some(q.srv), true))]
    ensures Plays(Run(w, es), u, q) && p !in Run(w, es).hydrated
  {
    var out := SwitchLogsOut(w, u, p, q);
    RunKeepsInv(w, out);
    var back := AskedIsReachable(Run(w, out), u, q);
    LegalAppend(w, out, back);
    es := out + back;
  }

  lemma SwitchLogsOut(w: World, u: User, p: Place, q: Place) returns (es: seq<Event>)
    requires Inv(w) && Plays(w, u, p) && q.roid in w.conns[u].cached && q.roid != p.roid && q.srv in w.servers
    ensures Legal(w, es) && |es| >= 2
    ensures es[..2] == [AskLogin(u, q.roid), Event.Loaded(u, Choice(Some(q.srv), true))]
    ensures var x := Run(w, es);
      && SessionOf(x, u) == LoggingIn(q, LoginAsked) && u in x.conns && x.conns[u].lock == Some(q)
      && p !in x.hydrated && x.servers == w.servers && Owns(x, u, q.roid)
  {
    assert UserInv(w, u);
    var c := Choice(Some(q.srv), true);
    var first := [AskLogin(u, q.roid), Event.Loaded(u, c)];
    assert [] + [AskLogin(u, q.roid)] + [Event.Loaded(u, c)] == first;
    Extend(w, [], AskLogin(u, q.roid));
    Extend(w, [] + [AskLogin(u, q.roid)], Event.Loaded(u, c));
    assert SessionOf(Run(w, first), u) == LoggingOut(p, Some(q.roid), LogoutAsked);
    var rest := LogoutGoesOn(Run(w, first), u, p, q);
    LegalAppend(w, first, rest);
    es := first + rest;
  }

  /** The logout that is part of a login. */
  lemma LogoutGoesOn(w: World, u: User, p: Place, q: Place) returns (es: seq<Event>)
    requires SessionOf(w, u) == LoggingOut(p, Some(q.roid), LogoutAsked) && u in w.conns && p in w.hydrated
    requires q.srv in w.servers
    ensures Legal(w, es)
    ensures var x := Run(w, es);
      && SessionOf(x, u) == LoggingIn(q, LoginAsked) && u in x.conns && x.conns[u].lock == Some(q)
      && p !in x.hydrated && x.servers == w.servers && x.owner == w.owner
  {
    var c := Choice(Some(q.srv), true);
    LegalThree(w, LogoutAt(u), LogoutStored(u), LogoutAnswered(u, c));
    es := [LogoutAt(u), LogoutStored(u), LogoutAnswered(u, c)];
  }

  /** A login that has been asked for ends in play. */
  lemma AskedIsReachable(w: World, u: User, p: Place) returns (es: seq<Event>)
    requires Inv(w) && SessionOf(w, u) == LoggingIn(p, LoginAsked) && u in w.conns && w.conns[u].lock == Some(p)
    ensures Legal(w, es) && Plays(Run(w, es), u, p) && Run(w, es).hydrated == w.hydrated + {p}
    ensures Run(w, es).conns == w.conns
  {
    assert UserInv(w, u);
    es := [];
    Extend(w, es, LoginAt(u));
    es := es + [LoginAt(u)];
    if p !in w.hydrated {
      Extend(w, es, LoginFetched(u, true));
      es := es + [LoginFetched(u, true)];
    }
    Extend(w, es, LoginAnswered(u));
    es := es + [LoginAnswered(u)];
  }

  // ----- A client that comes back -----

  /** While one logic server has taken the role over, the others can only say that they have none. */
  lemma {:induction false} WelcomeEnds(w: World, u: User, p: Place) returns (es: seq<Event>)
    requires Inv(w) && Welcomed(w, u, p)
    ensures Legal(w, es) && Plays(Run(w, es), u, p)
    decreases SessionOf(w, u).waiting
  {
    var q := SessionOf(w, u);
    assert UserInv(w, u);
    if q.waiting == {} {
      Extend(w, [], Event.Reconnected(u, Some(p), None));
      es := [] + [Event.Reconnected(u, Some(p), None)];
    } else {
      var srv :| srv in q.waiting;
      var e := ReconnectAt(u, srv, if srv == p.srv then Some(p.roid) else None);
      AnswerIsLast(w, u, p, srv);
      StepKeepsInv(w, e);
      var rest := WelcomeEnds(Step(w, e), u, p);
      LegalCons(w, e, rest);
      es := [e] + rest;
    }
  }

  lemma AnswerIsLast(w: World, u: User, p: Place, srv: nat)
    requires Inv(w) && Welcomed(w, u, p) && srv in SessionOf(w, u).waiting
    ensures var e := ReconnectAt(u, srv, if srv == p.srv then Some(p.roid) else None);
      && Enabled(w, e) && Welcomed(Step(w, e), u, p)
      && SessionOf(Step(w, e), u).waiting == SessionOf(w, u).waiting - {srv}
  {
    assert UserInv(w, u);
    assert p == Place(p.srv, p.roid);
    if srv != p.srv {
      forall r | r in SessionOf(w, u).roids ensures Place(srv, r) !in w.hydrated {
        assert Place(srv, r) in w.hydrated ==> Mine(w, u, Place(srv, r));
      }
    }
  }

  /** So a client that loses its connection while playing, and comes back, can play on with the same role, which stays
      hydrated all the time. */
  lemma ComingBackIsReachable(w: World, u: User, p: Place) returns (es: seq<Event>)
    requires Inv(w) && Plays(w, u, p)
    ensures Legal(w, es) && Plays(Run(w, es), u, p) && Leaving(u) + Returning(u, p) <= es
  {
    var out := Leaving(u) + Returning(u, p);
    ClientComesBack(w, u, p);
    RunKeepsInv(w, out);
    var back := WelcomeEnds(Run(w, out), u, p);
    LegalAppend(w, out, back);
    es := out + back;
  }

  // ----- The rest of the agent's code -----

  /** A role that the connection is locked on needs no login, and without a logic server there is none: the connection
      stays as it is. */
  lemma NothingToDo(w: World, u: User, roid: int, choice: Choice)
    requires SessionOf(w, u) == Loading(roid) && u in w.conns && ChoiceOk(w, choice)
    requires (w.conns[u].lock.Some? && w.conns[u].lock.value.roid == roid)
      || (w.conns[u].lock == None && choice.logic == None)
    ensures var e := Event.Loaded(u, choice);
      Enabled(w, e) && Step(w, e).conns == w.conns && SessionOf(Step(w, e), u) == Idle
  {
  }

  /** A client can ask for nothing but a login of another cached role, and a logout of the one it is locked on. */
  lemma IdleRequests(w: World, u: User, roid: int)
    requires SessionOf(w, u).Idle? && u in w.conns
    ensures Enabled(w, AskLogin(u, roid)) && Enabled(w, AskLogout(u)) && Enabled(w, AskCreate(u))
    ensures var lock := w.conns[u].lock;
      && SessionOf(Step(w, AskLogin(u, roid)), u)
         == (if roid in w.conns[u].cached && (lock == None || lock.value.roid != roid) then Loading(roid) else Idle)
      && SessionOf(Step(w, AskLogout(u)), u)
         == (match lock case Some(p) => LoggingOut(p, None, LogoutAsked) case None => Idle)
      && SessionOf(Step(w, AskCreate(u)), u) == Acquiring
    ensures Step(w, AskLogin(u, roid)).conns == Step(w, AskLogout(u)).conns == Step(w, AskCreate(u)).conns == w.conns
  {
  }

  /** A creation ends without a nickname, or if the role is somebody else's, and nothing has changed. */
  lemma CreationFails(w: World, u: User, roid: int, choice: Choice)
    ensures SessionOf(w, u).Acquiring? ==>
      Step(w, Event.Acquired(u, None)) == w.(sessions := w.sessions[u := Idle])
    ensures SessionOf(w, u) == Creating(roid) && roid in w.owner && w.owner[roid] != u && ChoiceOk(w, choice) ==>
      Step(w, Event.Created(u, choice)) == w.(sessions := w.sessions[u := Idle])
  {
  }

  /** Without a monitor the connection is locked, but the logic server is not asked. */
  lemma NoMonitor(w: World, u: User, roid: int, srv: nat)
    requires SessionOf(w, u) == Loading(roid) && u in w.conns && w.conns[u].lock == None && srv in w.servers
    ensures var e := Event.Loaded(u, Choice(Some(srv), false));
      && Enabled(w, e)
      && var x := Step(w, e);
      SessionOf(x, u) == Idle && u in x.conns && x.conns[u].lock == Some(Place(srv, roid)) && x.hydrated == w.hydrated
  {
  }

  /** The connection knows exactly the user's roles. */
  ghost predicate KnowsRoles(w: World, u: User) {
    u in w.conns ==> forall r :: r in w.conns[u].cached <==> Owns(w, u, r)
  }

  lemma StepKeepsKnowledge(w: World, e: Event, u: User)
    requires Inv(w) && Enabled(w, e) && KnowsRoles(w, u)
    ensures KnowsRoles(Step(w, e), u)
  {
    assert UserInv(w, u);
    OwnersStay(w, e, u);
  }

  lemma {:induction false} RunKeepsKnowledge(w: World, es: seq<Event>, u: User)
    requires Inv(w) && Legal(w, es) && KnowsRoles(w, u)
    ensures KnowsRoles(Run(w, es), u)
    decreases |es|
  {
    if es != [] {
      StepKeepsInv(w, es[0]);
      StepKeepsKnowledge(w, es[0], u);
      RunKeepsKnowledge(Step(w, es[0]), es[1..], u);
    }
  }

  /** In every run, the avatars that a connection has cached are those of exactly the roles that its user owns. */
  lemma CachedRolesAreOwned(servers: set<nat>, es: seq<Event>, u: User)
    requires Legal(Initial(servers), es) && u in Run(Initial(servers), es).conns
    ensures forall r :: r in Run(Initial(servers), es).conns[u].cached <==> Owns(Run(Initial(servers), es), u, r)
  {
    InitialInv(servers);
    RunKeepsKnowledge(Initial(servers), es, u);
  }

  /** If no logic server has a role of the user, a fresh one is loaded and logged in. */
  lemma FreshRoleIsResumed(w: World, u: User, p: Place) returns (es: seq<Event>)
    requires Inv(w) && SessionOf(w, u).Reconnecting? && u in w.conns && p.srv in w.servers
    requires SessionOf(w, u).waiting == {} && SessionOf(w, u).found == {} && p.roid in SessionOf(w, u).roids
    ensures Legal(w, es) && Plays(Run(w, es), u, p)
  {
    assert UserInv(w, u);
    var c := Choice(Some(p.srv), true);
    es := [];
    Extend(w, es, Event.Reconnected(u, None, Some(p.roid)));
    es := es + [Event.Reconnected(u, None, Some(p.roid))];
    Extend(w, es, Event.Loaded(u, c));
    es := es + [Event.Loaded(u, c)];
    assert SessionOf(Run(w, es), u) == LoggingIn(p, LoginAsked);
    RunKeepsInv(w, es);
    var rest := AskedIsReachable(Run(w, es), u, p);
    LegalAppend(w, es, rest);
    es := es + rest;
  }

  /** A close takes the record away, and tells the logic server of the role that it was locked on, if any; a record that
      the ping timer has dropped is gone without that. */
  lemma CloseForgets(w: World, u: User)
    requires SessionOf(w, u).Idle?
    ensures var x := Step(w, Event.Close(u));
      && u !in x.conns && x.hydrated == w.hydrated
      && SessionOf(x, u) == (if u in w.conns && w.conns[u].lock.Some? then Closing(w.conns[u].lock.value) else Offline)
      && (SessionOf(x, u).Closing? ==> SessionOf(Step(x, Event.Closed(u)), u) == Offline)
    ensures u !in Step(w, Drop(u)).conns && SessionOf(Step(w, Drop(u)), u) == SessionOf(w, u)
  {
  }

  /** A role that a logic server has timed out is not hydrated there any more; the agent does not notice. */
  lemma ReapedIsOut(w: World, p: Place)
    ensures var x := Step(w, Reap(p));
      p !in x.hydrated && (forall q :: q != p ==> (q in x.hydrated <==> q in w.hydrated))
      && x.conns == w.conns && x.sessions == w.sessions && x.owner == w.owner
  {
  }

  /** A session that cannot be opened ends without a record. */
  lemma RefusedIsOffline(w: World, u: User)
    requires Enabled(w, Event.Refuse(u))
    ensures Step(w, Event.Refuse(u)) == w.(sessions := w.sessions[u := Offline])
  {
  }
}
