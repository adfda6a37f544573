/** What each stretch of the logic server's handlers does to the role that it is about, told by the fields of the role's
    object, the table, the SETs and the fiber, and without the functions that the handlers are made of. */
module RoleEffects {
  import opened Options
  import opened LogicRoles

  /** A request of a client or an agent, told by the fields of the role's object. */
  lemma RequestEffects(s: State, roid: int, agent: Uuid, f: nat, now: int)
    requires RefsOk(s) && roid in s.hydRoles && agent != 0 && f !in s.fibers
    ensures var o := s.hydRoles[roid].role;
      var was := s.roles[o];
      && (var t := Step(s, ELogin(f, roid, agent));
          && t.roles[o].agent == agent && t.roles[o].dcSince == was.dcSince
          && t.roles[o].hooks == was.hooks + [OnConnect(agent)] && t.fibers == s.fibers)
      && (var t := Step(s, EReconnect([roid], agent));
          t.roles[o].agent == agent && t.roles[o].hooks == was.hooks + [OnConnect(agent)])
      && (var t := Step(s, EDisconnect(roid, now));
          && t.roles[o].agent == 0 && t.roles[o].dcSince == now
          && t.roles[o].hooks == was.hooks + [OnDisconnect(now)])
      && (var t := Step(s, ELogout(f, roid, now));
          && t.roles[o].agent == 0 && t.roles[o].dcSince == (if was.agent == 0 then was.dcSince else now)
          && t.roles[o].hooks == was.hooks + (if was.agent == 0 then [] else [OnDisconnect(now)]) + [OnLogout(None)])
  {
    LoneReconnect(s, roid, agent);
  }

  /** Of a role that is not hydrated, a login is the only thing that anything is done about: it asks Redis. */
  lemma MissedRequests(s: State, roid: int, agent: Uuid, f: nat, now: int)
    requires RefsOk(s) && roid !in s.hydRoles && agent != 0 && f !in s.fibers
    ensures Step(s, ELogin(f, roid, agent)) == s.(fibers := s.fibers[f := LoginFetching(roid, agent)])
    ensures Step(s, EDisconnect(roid, now)) == Step(s, ELogout(f, roid, now)) == Step(s, EVisit(f, roid, now)) == s
  {
  }

  /** A visit, told by the same fields: it asks about a connected role, logs out one that has been disconnected for long
      enough, at the time of the tick, and otherwise stores it as it is. */
  lemma VisitEffects(s: State, roid: int, f: nat, now: int)
    requires RefsOk(s) && roid in s.hydRoles && f !in s.fibers
    ensures var o, t := s.hydRoles[roid].role, Step(s, EVisit(f, roid, now));
      var was := s.roles[o];
      && t.hydRoles == s.hydRoles && f in t.fibers && t.fibers[f].roid == roid && t.fibers[f].hyd == s.hydRoles[roid]
      && (forall q :: q in s.roles && q != o ==> q in t.roles && t.roles[q] == s.roles[q])
      && o in t.roles && t.roles[o].agent == was.agent && t.roles[o].dcSince == was.dcSince
      && (if was.agent != 0 then
            t.fibers[f] == VisitChecking(roid, s.hydRoles[roid], now) && t.roles[o].hooks == was.hooks
            && t.writes == s.writes
          else if now - was.dcSince >= s.idleLimit then
            t.fibers[f].VisitLoggingOut? && t.roles[o].hooks == was.hooks + [OnLogout(Some(now))]
            && t.writes == s.writes + [Write(roid, o, |was.hooks| + 1)]
          else
            t.fibers[f].VisitStoring? && t.roles[o].hooks == was.hooks
            && t.writes == s.writes + [Write(roid, o, |was.hooks|)])
  {
  }

  /** If the role has gone while the agent was asked, the visit ends there, whatever the answer. */
  lemma CheckOfGoneRole(s: State, f: nat, ok: bool)
    requires RefsOk(s) && Enabled(s, EChecked(f, ok)) && s.fibers[f].roid !in s.hydRoles
    ensures Step(s, EChecked(f, ok)) == s.(fibers := s.fibers - {f})
  {
  }

  /** A denied check disconnects the role at the time of its tick, and is followed by a SET. */
  lemma DeniedCheckEffects(s: State, f: nat)
    requires RefsOk(s) && Enabled(s, EChecked(f, false)) && s.fibers[f].roid in s.hydRoles && s.idleLimit > 0
    ensures var fiber, t := s.fibers[f], Step(s, EChecked(f, false));
      var o, now := fiber.hyd.role, fiber.now;
      && o in s.roles && o in t.roles && t.roles[o].agent == 0 && t.roles[o].dcSince == now
      && t.roles[o].hooks == s.roles[o].hooks + [OnDisconnect(now)]
      && (forall q :: q in s.roles && q != o ==> q in t.roles && t.roles[q] == s.roles[q])
      && t.hydRoles == s.hydRoles && f in t.fibers && t.fibers[f].VisitStoring?
      && t.writes == s.writes + [Write(fiber.roid, o, |s.roles[o].hooks| + 1)]
  {
    assert EntryOk(s, s.fibers[f].roid, s.fibers[f].hyd);
  }

  /** The end of a handler that has waited for its SET: a logout path takes the key out, a save writes its entry back if
      the key is still there; nothing else changes. */
  lemma StoredEffects(s: State, f: nat)
    requires RefsOk(s) && Enabled(s, EStored(f))
    ensures var fiber, t := s.fibers[f], Step(s, EStored(f));
      && t.roles == s.roles && t.writes == s.writes && t.applied == s.applied && t.fibers == s.fibers - {f}
      && (forall k :: k != fiber.roid ==> (k in t.hydRoles <==> k in s.hydRoles))
      && (forall k :: k != fiber.roid && k in s.hydRoles ==> t.hydRoles[k] == s.hydRoles[k])
      && (fiber.roid in t.hydRoles <==> fiber.VisitStoring? && fiber.roid in s.hydRoles)
      && (fiber.roid in t.hydRoles ==> t.hydRoles[fiber.roid] == fiber.hyd)
  {
  }

  /** A login whose GETEX has been answered: without a record nothing happens; the first to hydrate the role makes a new
      object, which is logged in and connected; any later one connects the object that is there. */
  lemma LoadedEffects(s: State, f: nat, found: Option<int>, o: nat)
    requires RefsOk(s) && Enabled(s, ELoaded(f, found, o))
    ensures var agent, roid, t := s.fibers[f].agent, s.fibers[f].roid, Step(s, ELoaded(f, found, o));
      && t.fibers == s.fibers - {f} && t.writes == s.writes
      && (found.None? ==> t.roles == s.roles && t.hydRoles == s.hydRoles)
      && (found.Some? && roid !in s.hydRoles ==>
           && t.hydRoles == s.hydRoles[roid := Hydrated(roid, o)] && o in t.roles && t.roles[o].roid == roid
           && t.roles[o].agent == agent && t.roles[o].hooks == [OnLogin, OnConnect(agent)])
      && (found.Some? && roid in s.hydRoles ==>
           var winner := s.hydRoles[roid].role;
           && t.hydRoles == s.hydRoles && t.roles.Keys == s.roles.Keys && winner in t.roles
           && t.roles[winner].agent == agent && t.roles[winner].hooks == s.roles[winner].hooks + [OnConnect(agent)])
  {
  }

  /** Position i has the last role of the list that is hydrated. */
  predicate IsLastHydrated(hydRoles: map<int, Hydrated>, roids: seq<int>, i: int) {
    0 <= i < |roids| && roids[i] in hydRoles && forall j :: i < j < |roids| ==> roids[j] !in hydRoles
  }

  lemma {:induction false} LastIsLast(hydRoles: map<int, Hydrated>, roids: seq<int>, i: nat)
    requires IsLastHydrated(hydRoles, roids, i)
    ensures LastHydrated(hydRoles, roids) == Some(hydRoles[roids[i]])
    decreases |roids|
  {
    if i < |roids| - 1 {
      LastIsLast(hydRoles, roids[..|roids| - 1], i);
    }
  }

  /** Of the roles of a reconnect request that are hydrated, the last listed one is connected, and no other. */
  lemma ReconnectTakesTheLast(s: State, roids: seq<int>, agent: Uuid, i: nat)
    requires RefsOk(s) && agent != 0 && IsLastHydrated(s.hydRoles, roids, i)
    ensures var o, t := s.hydRoles[roids[i]].role, Step(s, EReconnect(roids, agent));
      && t.roles.Keys == s.roles.Keys && t.hydRoles == s.hydRoles && o in t.roles
      && t.roles[o].agent == agent && t.roles[o].hooks == s.roles[o].hooks + [OnConnect(agent)]
      && forall q :: q in s.roles && q != o ==> t.roles[q] == s.roles[q]
  {
    LastIsLast(s.hydRoles, roids, i);
  }

  /** A confirmed check of a connected role that is still hydrated leaves its object as it is, and issues the SET. */
  lemma ConfirmedCheckOnlyStores(s: State, f: nat)
    requires RefsOk(s) && Enabled(s, EChecked(f, true)) && s.fibers[f].roid in s.hydRoles
    requires s.roles[s.fibers[f].hyd.role].agent != 0
    ensures var t, fiber := Step(s, EChecked(f, true)), s.fibers[f];
      && t.roles == s.roles && t.hydRoles == s.hydRoles && t.applied == s.applied
      && |t.writes| == |s.writes| + 1 && t.writes[..|s.writes|] == s.writes
      && t.writes[|s.writes|].roid == fiber.roid && t.writes[|s.writes|].role == fiber.hyd.role
      && f in t.fibers && t.fibers[f].VisitStoring? && t.fibers[f].ticket == |s.writes|
  {
    assert EntryOk(s, s.fibers[f].roid, s.fibers[f].hyd);
  }
}
