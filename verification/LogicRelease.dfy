/** What leaves a logic server when a role is released, and how concurrent logins converge. */
module LogicRelease {
  import opened Options
  import opened LogicRoles

  // ----- Store before release -----

  predicate Releasing(fiber: Fiber) {
    fiber.LogoutStoring? || fiber.VisitLoggingOut?
  }

  /** The snapshot of `roid` that Redis holds: the latest SET of it that has taken effect. */
  function LatestWrite(writes: seq<Write>, roid: int): Option<Write> {
    if writes == [] then None else
    var last := writes[|writes| - 1];
    if last.roid == roid then Some(last) else LatestWrite(writes[..|writes| - 1], roid)
  }

  /** A role is not hydrated anew while a visit or logout of its previous object is suspended. The
      write-back and the erase after a yield carry no version, so this is needed. */
  predicate NoOverlap(s: State, e: Event) {
    e.ELoaded? && e.found.Some? && e.found.value !in s.hydRoles ==>
      forall f :: f in s.fibers && !s.fibers[f].LoginFetching? ==> s.fibers[f].roid != e.found.value
  }

  ghost predicate Disciplined(s: State, es: seq<Event>)
    decreases |es|
  {
    es == [] || (RefsOk(s) && Enabled(s, es[0]) && NoOverlap(s, es[0]) && Disciplined(Step(s, es[0]), es[1..]))
  }

  /** SET number `ticket` holds a state just after an `on_logout`, and so do all later SETs of the role. */
  ghost predicate Settled(s: State, roid: int, o: nat, ticket: nat) {
    && o in s.roles && ticket < |s.writes|
    && s.writes[ticket].roid == roid
    && 0 < s.writes[ticket].upto <= |s.roles[o].hooks|
    && s.roles[o].hooks[s.writes[ticket].upto - 1].OnLogout?
    && forall i :: ticket <= i < |s.writes| && s.writes[i].roid == roid ==>
         s.writes[i].role == o && s.writes[ticket].upto <= s.writes[i].upto <= |s.roles[o].hooks|
  }

  /** Fiber f is suspended with a hydrated role in hand. */
  ghost predicate Holds(s: State, f: nat) {
    f in s.fibers && !s.fibers[f].LoginFetching?
  }

  /** All fibers that hold a role share the object in the table. */
  ghost predicate OneObject(s: State) {
    && (forall f, g :: Holds(s, f) && Holds(s, g) && s.fibers[f].roid == s.fibers[g].roid ==>
          s.fibers[f].hyd.role == s.fibers[g].hyd.role)
    && (forall f :: Holds(s, f) && s.fibers[f].roid in s.hydRoles ==>
          s.hydRoles[s.fibers[f].roid].role == s.fibers[f].hyd.role)
  }

  ghost predicate ReleaseInv(s: State) {
    && RefsOk(s) && OneObject(s) && s.applied <= |s.writes|
    && forall f :: f in s.fibers && Releasing(s.fibers[f]) ==>
         Settled(s, s.fibers[f].roid, s.fibers[f].hyd.role, s.fibers[f].ticket)
  }

  /** Hooks are only ever appended. */
  ghost predicate HooksGrow(s: State, t: State) {
    forall o :: o in s.roles ==> o in t.roles && s.roles[o].hooks <= t.roles[o].hooks
  }

  lemma SettledStays(s: State, t: State, roid: int, o: nat, ticket: nat)
    requires Settled(s, roid, o, ticket) && HooksGrow(s, t)
    requires t.writes == s.writes
      || (exists w :: t.writes == s.writes + [w]
           && (w.roid == roid ==> w.role == o && o in t.roles && w.upto == |t.roles[o].hooks|))
    ensures Settled(t, roid, o, ticket)
  {
  }

  /** A step that issues no SET, and neither suspends a fiber with a role in hand nor hydrates one. */
  lemma QuietStep(s: State, t: State)
    requires ReleaseInv(s) && RefsOk(t) && HooksGrow(s, t)
    requires t.writes == s.writes && t.applied <= |t.writes|
    requires forall f :: Holds(t, f) ==> f in s.fibers && s.fibers[f] == t.fibers[f]
    requires forall k :: k in t.hydRoles ==> k in s.hydRoles && t.hydRoles[k].role == s.hydRoles[k].role
    ensures ReleaseInv(t)
  {
    forall f | f in t.fibers && Releasing(t.fibers[f])
      ensures Settled(t, t.fibers[f].roid, t.fibers[f].hyd.role, t.fibers[f].ticket)
    {
      assert Holds(t, f);
      SettledStays(s, t, t.fibers[f].roid, t.fibers[f].hyd.role, t.fibers[f].ticket);
    }
  }

  /** The step from s to t issues the SET that `fiber` then waits for; on a logout path `on_logout` has
      just been called. */
  ghost predicate Stored(s: State, t: State, fiber: Fiber)
    requires !fiber.LoginFetching? && !fiber.VisitChecking? && fiber.hyd.role in t.roles
  {
    var hooks := t.roles[fiber.hyd.role].hooks;
    && fiber.ticket == |s.writes|
    && t.writes == s.writes + [Write(fiber.roid, fiber.hyd.role, |hooks|)]
    && hooks != []
    && (Releasing(fiber) ==> hooks[|hooks| - 1].OnLogout?)
  }

  /** A step that suspends fiber f with the role of the table, or of the fiber it resumes, in hand. */
  lemma HoldingStep(s: State, t: State, f: nat)
    requires ReleaseInv(s) && RefsOk(t) && HooksGrow(s, t) && t.applied == s.applied
    requires t.hydRoles == s.hydRoles && Holds(t, f)
    requires forall g :: g != f && g in t.fibers ==> g in s.fibers && s.fibers[g] == t.fibers[g]
    requires t.fibers[f].roid in s.hydRoles
    requires s.hydRoles[t.fibers[f].roid].role == t.fibers[f].hyd.role
    requires var o := t.fibers[f].hyd.role;
      if t.fibers[f].VisitChecking? then t.writes == s.writes else Stored(s, t, t.fibers[f])
    ensures ReleaseInv(t)
  {
    var o, roid := t.fibers[f].hyd.role, t.fibers[f].roid;
    forall g | g in t.fibers && Releasing(t.fibers[g])
      ensures Settled(t, t.fibers[g].roid, t.fibers[g].hyd.role, t.fibers[g].ticket)
    {
      if g != f {
        assert Holds(s, g);
        assert t.fibers[g].roid == roid ==> t.fibers[g].hyd.role == o;
        SettledStays(s, t, t.fibers[g].roid, t.fibers[g].hyd.role, t.fibers[g].ticket);
      }
    }
    forall g | g != f && Holds(t, g)
      ensures Holds(s, g)
    {
    }
  }

  /** Object `hyd.role` is serialised, and fiber f waits for the SET. */
  lemma IssueEffect(u: State, f: nat, hyd: Hydrated, fiber: Fiber)
    requires RefsOk(u) && EntryOk(u, hyd.roid, hyd)
    requires (fiber.VisitLoggingOut? && u.roles[hyd.role].hooks[|u.roles[hyd.role].hooks| - 1].OnLogout?)
      || fiber.VisitStoring?
    requires fiber.roid == hyd.roid && fiber.hyd == hyd && fiber.ticket == |u.writes|
    ensures var t := Suspend(Issue(u, hyd), f, fiber); RefsOk(t) && HooksGrow(u, t) && Stored(u, t, fiber)
  {
  }

  /** What the end of a visit does: one SET, and one fiber that waits for it. */
  lemma DecideEffect(u: State, f: nat, roid: int, hyd: Hydrated, now: int)
    requires RefsOk(u) && EntryOk(u, roid, hyd)
    ensures var t := VisitDecide(u, f, roid, hyd, now);
      && RefsOk(t) && HooksGrow(u, t) && t.hydRoles == u.hydRoles && t.applied == u.applied
      && f in t.fibers && t.fibers == u.fibers[f := t.fibers[f]]
      && Holds(t, f) && t.fibers[f].roid == roid && t.fibers[f].hyd == hyd && !t.fibers[f].VisitChecking?
      && Stored(u, t, t.fibers[f])
  {
    var role := u.roles[hyd.role];
    if role.Disconnected() && now - role.dcSince >= u.idleLimit {
      var v := WithRole(u, hyd.role, role.Logout(Some(now)));
      HookKeepsRefs(u, hyd.role, role.Logout(Some(now)));
      IssueEffect(v, f, hyd, VisitLoggingOut(roid, hyd, |u.writes|));
      HooksGrowOn(u, v, VisitDecide(u, f, roid, hyd, now));
    } else {
      IssueEffect(u, f, hyd, VisitStoring(roid, hyd, |u.writes|));
    }
  }

  lemma HooksGrowOn(s: State, u: State, t: State)
    requires HooksGrow(s, u) && HooksGrow(u, t)
    ensures HooksGrow(s, t)
  {
  }

  lemma DecideKeepsReleaseInv(s: State, u: State, f: nat, roid: int, hyd: Hydrated, now: int)
    requires ReleaseInv(s) && RefsOk(u) && HooksGrow(s, u)
    requires u.writes == s.writes && u.applied == s.applied && u.hydRoles == s.hydRoles
    requires forall g :: g != f && g in u.fibers ==> g in s.fibers && s.fibers[g] == u.fibers[g]
    requires EntryOk(u, roid, hyd) && roid in s.hydRoles && s.hydRoles[roid].role == hyd.role
    ensures ReleaseInv(VisitDecide(u, f, roid, hyd, now))
  {
    var t := VisitDecide(u, f, roid, hyd, now);
    DecideEffect(u, f, roid, hyd, now);
    HooksGrowOn(s, u, t);
    HoldingStep(s, t, f);
  }

  lemma HydrationIsQuiet(s: State, e: Event)
    requires RefsOk(s) && Enabled(s, e) && e.ELoaded? && e.found.Some? && e.found.value !in s.hydRoles
    ensures var t := Step(s, e);
      && RefsOk(t) && HooksGrow(s, t) && t.writes == s.writes && t.applied == s.applied
      && t.hydRoles == s.hydRoles[e.found.value := Hydrated(e.found.value, e.o)]
      && forall f :: Holds(t, f) ==> Holds(s, f) && s.fibers[f] == t.fibers[f]
  {
  }

  lemma HydrationKeepsReleaseInv(s: State, e: Event)
    requires ReleaseInv(s) && Enabled(s, e) && NoOverlap(s, e)
    requires e.ELoaded? && e.found.Some? && e.found.value !in s.hydRoles
    ensures ReleaseInv(Step(s, e))
  {
    var t := Step(s, e);
    HydrationIsQuiet(s, e);
    forall f | f in t.fibers && Releasing(t.fibers[f])
      ensures Settled(t, t.fibers[f].roid, t.fibers[f].hyd.role, t.fibers[f].ticket)
    {
      assert Holds(t, f);
      SettledStays(s, t, t.fibers[f].roid, t.fibers[f].hyd.role, t.fibers[f].ticket);
    }
  }

  lemma LogoutKeepsReleaseInv(s: State, f: nat, roid: int, now: int)
    requires ReleaseInv(s) && f !in s.fibers && roid in s.hydRoles
    ensures ReleaseInv(LogoutStart(s, f, roid, now))
  {
    var t := LogoutStart(s, f, roid, now);
    assert Stored(s, t, t.fibers[f]);
    HoldingStep(s, t, f);
  }

  lemma CheckedKeepsReleaseInv(s: State, f: nat, ok: bool)
    requires ReleaseInv(s) && Enabled(s, EChecked(f, ok))
    ensures ReleaseInv(VisitChecked(s, f, ok))
  {
    var fiber, t := s.fibers[f], Finish(s, f);
    assert Holds(s, f);
    if fiber.roid in s.hydRoles {
      var o := fiber.hyd.role;
      DecideKeepsReleaseInv(s, if ok then t else WithRole(t, o, t.roles[o].Disconnect(fiber.now)),
                            f, fiber.roid, fiber.hyd, fiber.now);
    } else {
      QuietStep(s, t);
    }
  }

  lemma HookKeepsRefs(s: State, o: nat, role: Role)
    requires RefsOk(s) && o in s.roles && role.roid == s.roles[o].roid && s.roles[o].hooks <= role.hooks
    ensures RefsOk(WithRole(s, o, role)) && HooksGrow(s, WithRole(s, o, role))
  {
  }

  lemma LinkKeepsRefs(s: State, e: Event)
    requires RefsOk(s) && Enabled(s, e) && (e.ELogin? || e.EReconnect? || e.EDisconnect? || e.EApply?)
    ensures RefsOk(Step(s, e)) && HooksGrow(s, Step(s, e))
  {
    match e
    case ELogin(_, roid, agent) =>
      if roid in s.hydRoles {
        HookKeepsRefs(s, s.hydRoles[roid].role, s.roles[s.hydRoles[roid].role].Connect(agent));
      }
    case EReconnect(roids, agent) =>
      var last := LastHydrated(s.hydRoles, roids);
      if last.Some? {
        HookKeepsRefs(s, last.value.role, s.roles[last.value.role].Connect(agent));
      }
    case EDisconnect(roid, now) =>
      if roid in s.hydRoles {
        HookKeepsRefs(s, s.hydRoles[roid].role, s.roles[s.hydRoles[roid].role].Disconnect(now));
      }
    case EApply =>
  }

  lemma LinkIsQuiet(s: State, e: Event)
    requires RefsOk(s) && Enabled(s, e) && (e.ELogin? || e.EReconnect? || e.EDisconnect? || e.EApply?)
    ensures var t := Step(s, e);
      && t.writes == s.writes && t.hydRoles == s.hydRoles
      && (forall f :: Holds(t, f) ==> f in s.fibers && s.fibers[f] == t.fibers[f])
  {
  }

  lemma LinkKeepsReleaseInv(s: State, e: Event)
    requires ReleaseInv(s) && Enabled(s, e) && (e.ELogin? || e.EReconnect? || e.EDisconnect? || e.EApply?)
    ensures ReleaseInv(Step(s, e))
  {
    LinkKeepsRefs(s, e);
    LinkIsQuiet(s, e);
    QuietStep(s, Step(s, e));
  }

  lemma LoadedKeepsReleaseInv(s: State, e: Event)
    requires ReleaseInv(s) && Enabled(s, e) && NoOverlap(s, e) && e.ELoaded?
    ensures ReleaseInv(Step(s, e))
  {
    if e.found.Some? && e.found.value !in s.hydRoles {
      HydrationKeepsReleaseInv(s, e);
    } else {
      QuietStep(s, Step(s, e));
    }
  }

  lemma StoredKeepsReleaseInv(s: State, f: nat)
    requires ReleaseInv(s) && Enabled(s, EStored(f))
    ensures ReleaseInv(Step(s, EStored(f)))
  {
    assert Holds(s, f);
    QuietStep(s, Step(s, EStored(f)));
  }

  lemma StepKeepsReleaseInv(s: State, e: Event)
    requires ReleaseInv(s) && Enabled(s, e) && NoOverlap(s, e)
    ensures ReleaseInv(Step(s, e))
  {
    match e {
      case ELoaded(f, found, o) =>
        LoadedKeepsReleaseInv(s, e);
      case ELogout(f, roid, now) =>
        if roid in s.hydRoles {
          LogoutKeepsReleaseInv(s, f, roid, now);
        }
      case EVisit(f, roid, now) =>
        if roid in s.hydRoles {
          var hyd := s.hydRoles[roid];
          if s.roles[hyd.role].Disconnected() {
            DecideKeepsReleaseInv(s, s, f, roid, hyd, now);
          } else {
            HoldingStep(s, VisitStart(s, f, roid, now), f);
          }
        }
      case EChecked(f, ok) =>
        CheckedKeepsReleaseInv(s, f, ok);
      case EStored(f) =>
        StoredKeepsReleaseInv(s, f);
      case _ =>
        LinkKeepsReleaseInv(s, e);
    }
  }

  lemma {:induction false} RunKeepsReleaseInv(s: State, es: seq<Event>)
    requires ReleaseInv(s) && Disciplined(s, es)
    ensures Legal(s, es) && ReleaseInv(Run(s, es))
    decreases |es|
  {
    if es != [] {
      StepKeepsReleaseInv(s, es[0]);
      RunKeepsReleaseInv(Step(s, es[0]), es[1..]);
    }
  }

  lemma {:induction false} LatestWriteIsLate(writes: seq<Write>, roid: int, t: nat) returns (i: nat)
    requires t < |writes| && writes[t].roid == roid
    ensures t <= i < |writes| && LatestWrite(writes, roid) == Some(writes[i]) && writes[i].roid == roid
  {
    i := |writes| - 1;
    if writes[i].roid != roid {
      i := LatestWriteIsLate(writes[..i], roid, t);
    }
  }

  /** When a logout or an inactivity timeout is about to erase a role from the table, Redis already
      holds a snapshot of that object serialised after this `on_logout`, and every SET of the role
      still on its way is of that object and later. */
  lemma StoredBeforeRelease(idleLimit: int, es: seq<Event>, f: nat)
    requires Disciplined(Initial(idleLimit), es)
    ensures Legal(Initial(idleLimit), es)
    ensures var s := Run(Initial(idleLimit), es);
      Enabled(s, EStored(f)) && Releasing(s.fibers[f]) ==>
        var fiber := s.fibers[f];
        && s.applied <= |s.writes|
        && var latest := LatestWrite(s.writes[..s.applied], fiber.roid);
        && Settled(s, fiber.roid, fiber.hyd.role, fiber.ticket)
        && latest.Some? && latest.value.role == fiber.hyd.role
        && latest.value.upto >= s.writes[fiber.ticket].upto
  {
    RunKeepsReleaseInv(Initial(idleLimit), es);
    var s := Run(Initial(idleLimit), es);
    if Enabled(s, EStored(f)) && Releasing(s.fibers[f]) {
      var i := LatestWriteIsLate(s.writes[..s.applied], s.fibers[f].roid, s.fibers[f].ticket);
    }
  }

  // ----- Who enters and who leaves the table -----

  /** Only a login that found the record adds a key, and only the end of a logout path removes one:
      the write-back of a visit never hydrates a role again. */
  lemma OnlyLoginHydrates(s: State, e: Event, k: int)
    requires RefsOk(s) && Enabled(s, e)
    ensures k in Step(s, e).hydRoles && k !in s.hydRoles ==>
      e.ELoaded? && e.found == Some(k)
    ensures k !in Step(s, e).hydRoles && k in s.hydRoles ==>
      e.EStored? && Releasing(s.fibers[e.f]) && s.fibers[e.f].roid == k
  {
  }

  // ----- Convergence of concurrent logins -----

  /** Login traffic, of any roles, in any interleaving. */
  predicate LoginTraffic(es: seq<Event>) {
    forall i :: 0 <= i < |es| ==> es[i].ELogin? || es[i].ELoaded? || es[i].EApply?
  }

  /** The step answers a login request for `roid` with "gs_ok". */
  predicate Accepts(s: State, e: Event, roid: int) {
    (e.ELogin? && e.roid == roid && roid in s.hydRoles) || (e.ELoaded? && e.found == Some(roid))
  }

  /** How many login requests for `roid` this run answers with "gs_ok". */
  ghost function Accepted(s: State, es: seq<Event>, roid: int): nat
    requires Legal(s, es)
    decreases |es|
  {
    if es == [] then 0 else
    (if Accepts(s, es[0], roid) then 1 else 0) + Accepted(Step(s, es[0]), es[1..], roid)
  }

  ghost predicate RolesPersist(s: State, t: State) {
    forall o :: o in s.roles ==> o in t.roles && t.roles[o].roid == s.roles[o].roid
  }

  /** `t` has no object of `roid` beyond those of `s` and `winner`. */
  ghost predicate NoneNewBut(s: State, t: State, roid: int, winner: Option<nat>) {
    forall o :: o in t.roles && t.roles[o].roid == roid && o !in s.roles ==> winner == Some(o)
  }

  /** `o` is the hydrated object of `roid`, with n hooks called. */
  ghost predicate Live(s: State, roid: int, o: nat, n: nat) {
    roid in s.hydRoles && s.hydRoles[roid].role == o && o in s.roles && |s.roles[o].hooks| == n
  }

  lemma LoginStepKeeps(s: State, e: Event, roid: int)
    requires RefsOk(s) && Enabled(s, e) && (e.ELogin? || e.ELoaded? || e.EApply?)
    ensures RolesPersist(s, Step(s, e))
    ensures roid in s.hydRoles ==> NoneNewBut(s, Step(s, e), roid, None)
    ensures forall n: nat :: roid in s.hydRoles && Live(s, roid, s.hydRoles[roid].role, n) ==>
      Live(Step(s, e), roid, s.hydRoles[roid].role, if Accepts(s, e, roid) then n + 1 else n)
    ensures roid !in s.hydRoles && !Accepts(s, e, roid) ==>
      roid !in Step(s, e).hydRoles && NoneNewBut(s, Step(s, e), roid, None)
    ensures roid !in s.hydRoles && Accepts(s, e, roid) ==>
      e.o !in s.roles && Live(Step(s, e), roid, e.o, 2) && NoneNewBut(s, Step(s, e), roid, Some(e.o))
  {
  }

  lemma LoadedKeepsRefs(s: State, f: nat, found: Option<int>, o: nat)
    requires RefsOk(s) && Enabled(s, ELoaded(f, found, o))
    ensures RefsOk(LoginResume(s, f, found, o))
  {
    var t := Finish(s, f);
    if found.Some? && found.value in s.hydRoles {
      var winner := t.hydRoles[found.value].role;
      HookKeepsRefs(t, winner, t.roles[winner].Connect(s.fibers[f].agent));
    }
  }

  lemma RefsStay(s: State, e: Event)
    requires RefsOk(s) && Enabled(s, e) && (e.ELogin? || e.ELoaded? || e.EApply?)
    ensures RefsOk(Step(s, e))
  {
    if e.ELoaded? {
      LoadedKeepsRefs(s, e.f, e.found, e.o);
    } else {
      LinkKeepsRefs(s, e);
    }
  }

  lemma NewRolesCompose(s: State, u: State, t: State, roid: int, a: Option<nat>, b: Option<nat>)
    requires RolesPersist(s, u) && RolesPersist(u, t)
    requires NoneNewBut(s, u, roid, a) && NoneNewBut(u, t, roid, b) && (a.None? || b.None?)
    ensures RolesPersist(s, t) && NoneNewBut(s, t, roid, if a.Some? then a else b)
  {
  }

  lemma {:induction false} LoginsReachTheWinner(s: State, es: seq<Event>, roid: int, o: nat, n: nat)
    requires Legal(s, es) && LoginTraffic(es) && RefsOk(s) && Live(s, roid, o, n)
    ensures Live(Run(s, es), roid, o, n + Accepted(s, es, roid))
    ensures RolesPersist(s, Run(s, es)) && NoneNewBut(s, Run(s, es), roid, None)
    decreases |es|
  {
    if es != [] {
      RefsStay(s, es[0]);
      LoginStepKeeps(s, es[0], roid);
      LoginsReachTheWinner(Step(s, es[0]), es[1..], roid, o, if Accepts(s, es[0], roid) then n + 1 else n);
    }
  }

  /** What a run of login traffic from s to t, with n accepted logins of `roid`, comes to. */
  ghost predicate Converged(s: State, t: State, roid: int, n: nat, winner: nat) {
    && RolesPersist(s, t)
    && (n == 0 ==> roid !in t.hydRoles && NoneNewBut(s, t, roid, None))
    && (n > 0 ==> winner !in s.roles && Live(t, roid, winner, 1 + n) && NoneNewBut(s, t, roid, Some(winner)))
  }

  lemma FirstLoginWins(s: State, u: State, es: seq<Event>, roid: int, winner: nat)
    requires Legal(u, es) && LoginTraffic(es) && RefsOk(u)
    requires RolesPersist(s, u) && winner !in s.roles && NoneNewBut(s, u, roid, Some(winner))
    requires Live(u, roid, winner, 2)
    ensures Converged(s, Run(u, es), roid, 1 + Accepted(u, es, roid), winner)
  {
    LoginsReachTheWinner(u, es, roid, winner, 2);
    NewRolesCompose(s, u, Run(u, es), roid, Some(winner), None);
  }

  /** Any number of concurrent logins of a role that is not hydrated, each of which may miss and load it
      from Redis, end with one object: it is the only new one, and all accepted logins connect to it. */
  lemma {:induction false} LoginsConverge(s: State, es: seq<Event>, roid: int) returns (winner: nat)
    requires Legal(s, es) && LoginTraffic(es) && RefsOk(s) && roid !in s.hydRoles
    ensures Converged(s, Run(s, es), roid, Accepted(s, es, roid), winner)
    decreases |es|
  {
    if es == [] {
      winner := 0;
    } else {
      var u, rest := Step(s, es[0]), es[1..];
      RefsStay(s, es[0]);
      LoginStepKeeps(s, es[0], roid);
      if Accepts(s, es[0], roid) {
        winner := es[0].o;
        FirstLoginWins(s, u, rest, roid, winner);
      } else {
        winner := LoginsConverge(u, rest, roid);
        LaterLoginWins(s, u, Run(u, rest), roid, Accepted(u, rest, roid), winner);
      }
    }
  }

  lemma LaterLoginWins(s: State, u: State, t: State, roid: int, n: nat, winner: nat)
    requires RolesPersist(s, u) && NoneNewBut(s, u, roid, None) && Converged(u, t, roid, n, winner)
    ensures Converged(s, t, roid, n, winner)
  {
    NewRolesCompose(s, u, t, roid, None, if n == 0 then None else Some(winner));
  }

  // ----- What is still on its way -----

  predicate Awaits(fiber: Fiber) {
    fiber.LogoutStoring? || fiber.VisitLoggingOut? || fiber.VisitStoring?
  }

  /** Each fiber that waits for a SET waits for one of its role. */
  ghost predicate TicketsOk(s: State) {
    forall g :: g in s.fibers && Awaits(s.fibers[g]) ==>
      s.fibers[g].ticket < |s.writes| && s.writes[s.fibers[g].ticket].roid == s.fibers[g].roid
  }

  ghost predicate Awaited(s: State, i: nat) {
    exists g :: g in s.fibers && Awaits(s.fibers[g]) && s.fibers[g].ticket == i
  }

  /** Each SET that is still on its way has a fiber that waits for it. */
  ghost predicate AllAwaited(s: State) {
    forall i :: s.applied <= i < |s.writes| ==> Awaited(s, i)
  }

  ghost predicate OnItsWay(s: State, roid: int) {
    exists i :: s.applied <= i < |s.writes| && s.writes[i].roid == roid
  }

  ghost predicate SomeoneAwaits(s: State, roid: int) {
    exists g :: g in s.fibers && Awaits(s.fibers[g]) && s.fibers[g].roid == roid && s.fibers[g].ticket >= s.applied
  }

  /** A step that issues nothing and lets only answered fibers go. */
  lemma QuietKeepsTickets(s: State, t: State)
    requires TicketsOk(s) && AllAwaited(s) && t.writes == s.writes && s.applied <= t.applied
    requires forall g :: g in t.fibers && Awaits(t.fibers[g]) ==> g in s.fibers && t.fibers[g] == s.fibers[g]
    requires forall g :: g in s.fibers && Awaits(s.fibers[g]) && s.fibers[g].ticket >= s.applied ==>
      g in t.fibers && t.fibers[g] == s.fibers[g]
    ensures TicketsOk(t) && AllAwaited(t)
  {
    forall i | t.applied <= i < |t.writes| ensures Awaited(t, i) {
      assert Awaited(s, i);
    }
  }

  /** A step that issues one SET, for which fiber f then waits. */
  lemma IssueKeepsTickets(s: State, t: State, f: nat)
    requires TicketsOk(s) && AllAwaited(s) && t.applied == s.applied
    requires f in t.fibers && Awaits(t.fibers[f]) && t.fibers[f].ticket == |s.writes|
    requires |t.writes| == |s.writes| + 1 && s.writes <= t.writes && t.writes[|s.writes|].roid == t.fibers[f].roid
    requires t.fibers == s.fibers[f := t.fibers[f]] && (f in s.fibers ==> !Awaits(s.fibers[f]))
    ensures TicketsOk(t) && AllAwaited(t)
  {
    forall i | t.applied <= i < |t.writes| ensures Awaited(t, i) {
      if i < |s.writes| {
        assert Awaited(s, i);
        var g :| g in s.fibers && Awaits(s.fibers[g]) && s.fibers[g].ticket == i;
        assert g in t.fibers && t.fibers[g] == s.fibers[g];
      }
    }
  }

  lemma DecideKeepsTickets(s: State, u: State, f: nat, roid: int, hyd: Hydrated, now: int)
    requires TicketsOk(s) && AllAwaited(s) && RefsOk(u) && EntryOk(u, roid, hyd)
    requires u.writes == s.writes && u.applied == s.applied && (f in s.fibers ==> !Awaits(s.fibers[f]))
    requires u.fibers == s.fibers || u.fibers == s.fibers - {f}
    ensures TicketsOk(VisitDecide(u, f, roid, hyd, now)) && AllAwaited(VisitDecide(u, f, roid, hyd, now))
  {
    var t := VisitDecide(u, f, roid, hyd, now);
    DecideEffect(u, f, roid, hyd, now);
    assert t.fibers == s.fibers[f := t.fibers[f]];
    IssueKeepsTickets(s, t, f);
  }

  lemma VisitKeepsTickets(s: State, e: Event)
    requires RefsOk(s) && Enabled(s, e) && TicketsOk(s) && AllAwaited(s) && (e.EVisit? || e.EChecked?)
    ensures TicketsOk(Step(s, e)) && AllAwaited(Step(s, e))
  {
    if e.EVisit? {
      if e.roid in s.hydRoles && s.roles[s.hydRoles[e.roid].role].Disconnected() {
        DecideKeepsTickets(s, s, e.f, e.roid, s.hydRoles[e.roid], e.now);
      } else {
        QuietKeepsTickets(s, Step(s, e));
      }
    } else {
      var fiber, t := s.fibers[e.f], Finish(s, e.f);
      if fiber.roid in s.hydRoles {
        var o := fiber.hyd.role;
        DecideKeepsTickets(s, if e.ok then t else WithRole(t, o, t.roles[o].Disconnect(fiber.now)),
                           e.f, fiber.roid, fiber.hyd, fiber.now);
      } else {
        QuietKeepsTickets(s, t);
      }
    }
  }

  lemma LogoutKeepsTickets(s: State, f: nat, roid: int, now: int)
    requires RefsOk(s) && TicketsOk(s) && AllAwaited(s) && f !in s.fibers
    ensures TicketsOk(LogoutStart(s, f, roid, now)) && AllAwaited(LogoutStart(s, f, roid, now))
  {
    if roid in s.hydRoles {
      IssueKeepsTickets(s, LogoutStart(s, f, roid, now), f);
    }
  }

  lemma StepKeepsTickets(s: State, e: Event)
    requires RefsOk(s) && Enabled(s, e) && TicketsOk(s) && AllAwaited(s)
    ensures TicketsOk(Step(s, e)) && AllAwaited(Step(s, e))
  {
    match e
    case EVisit(_, _, _) => VisitKeepsTickets(s, e);
    case EChecked(_, _) => VisitKeepsTickets(s, e);
    case ELogout(f, roid, now) => LogoutKeepsTickets(s, f, roid, now);
    case _ => QuietKeepsTickets(s, Step(s, e));
  }

  lemma {:induction false} RunKeepsTickets(s: State, es: seq<Event>)
    requires Legal(s, es) && TicketsOk(s) && AllAwaited(s)
    ensures TicketsOk(Run(s, es)) && AllAwaited(Run(s, es))
    decreases |es|
  {
    if es != [] {
      StepKeepsTickets(s, es[0]);
      RunKeepsTickets(Step(s, es[0]), es[1..]);
    }
  }

  /** What this server has stored of a role is its last word, which no other SET of its will overwrite, exactly if no
      handler still waits for a SET of the role. */
  lemma SnapshotIsFinalIff(idleLimit: int, es: seq<Event>, roid: int)
    requires Legal(Initial(idleLimit), es)
    ensures var s := Run(Initial(idleLimit), es); OnItsWay(s, roid) <==> SomeoneAwaits(s, roid)
  {
    RunKeepsTickets(Initial(idleLimit), es);
    var s := Run(Initial(idleLimit), es);
    if OnItsWay(s, roid) {
      var i :| s.applied <= i < |s.writes| && s.writes[i].roid == roid;
      assert Awaited(s, i);
    }
  }

  // ----- The need for `NoOverlap` -----

  /** The handler of a visit waits for its SET although the role has gone meanwhile, and the role is being logged in. */
  ghost predicate Straggles(s: State, f: nat, g: nat, roid: int) {
    && f in s.fibers && s.fibers[f].VisitStoring? && s.fibers[f].roid == roid && s.fibers[f].ticket < s.applied
    && g in s.fibers && s.fibers[g].LoginFetching? && s.fibers[g].roid == roid && roid !in s.hydRoles
  }

  /** Then the end of the visit puts its old object in the place of the new one. */
  lemma OldVisitReplacesNewLogin(s: State, f: nat, g: nat, roid: int, o: nat)
    requires Inv(s) && Straggles(s, f, g, roid) && o !in s.roles
    ensures var e := ELoaded(g, Some(roid), o);
      && Enabled(s, e) && !NoOverlap(s, e) && Accepts(s, e, roid)
      && var t := Step(s, e);
      && Inv(t) && roid in t.hydRoles && t.hydRoles[roid].role == o && Enabled(t, EStored(f))
      && var u := Step(t, EStored(f));
      roid in u.hydRoles && u.hydRoles[roid].role == s.fibers[f].hyd.role != o
  {
    assert EntryOk(s, s.fibers[f].roid, s.fibers[f].hyd);
    StepKeepsInv(s, ELoaded(g, Some(roid), o));
  }

  /** These three steps lead from s to t. */
  ghost predicate LeadsTo(s: State, es: seq<Event>, t: State) {
    && |es| == 3 && RefsOk(s) && Enabled(s, es[0])
    && var s1 := Step(s, es[0]);
    && RefsOk(s1) && Enabled(s1, es[1])
    && var s2 := Step(s1, es[1]);
    && RefsOk(s2) && Enabled(s2, es[2]) && t == Step(s2, es[2])
  }

  lemma ThenThree(s: State, past: seq<Event>, es: seq<Event>, t: State)
    requires Legal(s, past) && LeadsTo(Run(s, past), es, t)
    ensures Legal(s, past + es) && Run(s, past + es) == t
  {
    RunAppend(s, past, es[0]);
    RunAppend(s, past + [es[0]], es[1]);
    RunAppend(s, past + [es[0]] + [es[1]], es[2]);
    assert past + es == past + [es[0]] + [es[1]] + [es[2]];
  }

  /** Role `roid` alone is hydrated, and disconnected since time 0. */
  ghost predicate Offline(s: State, roid: int) {
    && s.idleLimit > 0 && s.hydRoles == map[roid := Hydrated(roid, 0)] && s.fibers == map[] && s.writes == []
    && s.applied == 0 && 0 in s.roles && s.roles[0].Disconnected() && s.roles[0].dcSince == 0
  }

  /** A visit and a logout of it wait for their SETs, of which the first has taken effect. */
  ghost predicate VisitAndLogout(s: State, roid: int) {
    && s.hydRoles == map[roid := Hydrated(roid, 0)] && 2 in s.fibers && 3 in s.fibers && 4 !in s.fibers
    && s.fibers[2] == VisitStoring(roid, Hydrated(roid, 0), 0)
    && s.fibers[3] == LogoutStoring(roid, Hydrated(roid, 0), 1)
    && |s.writes| == 2 && s.applied == 1
  }

  lemma RoleGoesOffline(idleLimit: int, roid: int, agent: Uuid) returns (es: seq<Event>, t: State)
    requires idleLimit > 0 && agent != 0
    ensures LeadsTo(Initial(idleLimit), es, t) && Inv(t) && Offline(t, roid)
  {
    var s := Initial(idleLimit);
    es := [ELogin(1, roid, agent), ELoaded(1, Some(roid), 0), EDisconnect(roid, 0)];
    StepKeepsInv(s, es[0]);
    var s1 := Step(s, es[0]);
    StepKeepsInv(s1, es[1]);
    var s2 := Step(s1, es[1]);
    StepKeepsInv(s2, es[2]);
    t := Step(s2, es[2]);
  }

  /** A visit of it waits for its SET. */
  ghost predicate OnlyVisit(s: State, roid: int) {
    && s.hydRoles == map[roid := Hydrated(roid, 0)] && |s.writes| == 1 && s.applied == 0
    && s.fibers == map[2 := VisitStoring(roid, Hydrated(roid, 0), 0)]
  }

  lemma VisitOffline(s: State, roid: int)
    requires Inv(s) && Offline(s, roid)
    ensures Enabled(s, EVisit(2, roid, 0)) && OnlyVisit(Step(s, EVisit(2, roid, 0)), roid)
  {
    assert Step(s, EVisit(2, roid, 0)).fibers == map[2 := VisitStoring(roid, Hydrated(roid, 0), 0)];
  }

  lemma LogoutMeanwhile(s: State, roid: int)
    requires Inv(s) && OnlyVisit(s, roid)
    ensures Enabled(s, ELogout(3, roid, 0))
    ensures var t := Step(s, ELogout(3, roid, 0));
      RefsOk(t) ==> Enabled(t, EApply) && VisitAndLogout(Step(t, EApply), roid)
  {
  }

  lemma VisitMeetsLogout(s: State, roid: int) returns (es: seq<Event>, t: State)
    requires Inv(s) && Offline(s, roid)
    ensures LeadsTo(s, es, t) && Inv(t) && VisitAndLogout(t, roid)
  {
    es := [EVisit(2, roid, 0), ELogout(3, roid, 0), EApply];
    VisitOffline(s, roid);
    StepKeepsInv(s, es[0]);
    var s1 := Step(s, es[0]);
    LogoutMeanwhile(s1, roid);
    StepKeepsInv(s1, es[1]);
    var s2 := Step(s1, es[1]);
    StepKeepsInv(s2, es[2]);
    t := Step(s2, es[2]);
  }

  lemma LogoutEndsFirst(s: State, roid: int, agent: Uuid) returns (es: seq<Event>, t: State)
    requires Inv(s) && VisitAndLogout(s, roid) && agent != 0
    ensures LeadsTo(s, es, t) && Straggles(t, 2, 4, roid)
  {
    es := [EApply, EStored(3), ELogin(4, roid, agent)];
    StepKeepsInv(s, es[0]);
    var s1 := Step(s, es[0]);
    StepKeepsInv(s1, es[1]);
    t := Step(Step(s1, es[1]), es[2]);
  }

  /** Such a state is reached: a visit and a logout of the role overlap, and its next login comes before the visit's
      handler goes on. */
  lemma StragglersAreReachable(idleLimit: int, roid: int, agent: Uuid) returns (es: seq<Event>)
    requires idleLimit > 0 && agent != 0
    ensures Legal(Initial(idleLimit), es) && Straggles(Run(Initial(idleLimit), es), 2, 4, roid)
  {
    var s := Initial(idleLimit);
    var a, t1 := RoleGoesOffline(idleLimit, roid, agent);
    var b, t2 := VisitMeetsLogout(t1, roid);
    var c, t3 := LogoutEndsFirst(t2, roid, agent);
    assert [] + a == a;
    ThenThree(s, [], a, t1);
    ThenThree(s, a, b, t2);
    ThenThree(s, a + b, c, t3);
    es := a + b + c;
  }

  /** A login that arrives between `on_logout` and the erase is accepted at once, and then the erase takes the role
      away from it. */
  lemma LoginDuringLogoutIsLost(s: State, f: nat, g: nat, roid: int, agent: Uuid)
    requires Inv(s) && f in s.fibers && Releasing(s.fibers[f]) && s.fibers[f].roid == roid && roid in s.hydRoles
    requires g !in s.fibers && agent != 0 && s.fibers[f].ticket < s.applied
    ensures Enabled(s, ELogin(g, roid, agent)) && Accepts(s, ELogin(g, roid, agent), roid)
    ensures var t := Step(s, ELogin(g, roid, agent));
      && Inv(t) && t.roles[t.hydRoles[roid].role].agent == agent && Enabled(t, EStored(f))
      && roid !in Step(t, EStored(f)).hydRoles
  {
    StepKeepsInv(s, ELogin(g, roid, agent));
  }
}
