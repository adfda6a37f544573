/** Several logic servers over one role store: what a role's next login starts from, wherever it comes.

    `store` is the one map that Redis over MySQL stands for (`RoleStore.TwoTiersRefineOneMap`); only SETs change it. */
module Handover {
  import opened Options
  import opened LogicRoles
  import opened LogicRelease

  /** The SET of which server a role's record comes from. */
  datatype Snapshot = Snapshot(srv: nat, write: Write)

  /** The object that was hydrated last. */
  datatype Owner = Owner(srv: nat, role: nat)

  /** `at[r]` is the server that the latest login of r went to, and `owners[r]` the latest object of r. */
  datatype Cluster = Cluster(
    servers: map<nat, State>,
    store: map<int, Snapshot>,
    at: map<int, nat>,
    owners: map<int, Owner>)

  /** Server `srv` takes a step. */
  datatype Move = Move(srv: nat, e: Event)

  function Start(servers: set<nat>, idleLimit: int): Cluster {
    Cluster(map q | q in servers :: LogicRoles.Initial(idleLimit), map[], map[], map[])
  }

  predicate CanMove(c: Cluster, m: Move) {
    m.srv in c.servers && RefsOk(c.servers[m.srv]) && Enabled(c.servers[m.srv], m.e)
  }

  /** The login misses and asks Redis. */
  predicate Asks(c: Cluster, m: Move)
    requires CanMove(c, m)
  {
    m.e.ELogin? && m.e.roid !in c.servers[m.srv].hydRoles
  }

  /** The login has found the record and hydrates the role. */
  predicate Hydrates(c: Cluster, m: Move)
    requires CanMove(c, m)
  {
    m.e.ELoaded? && m.e.found.Some? && m.e.found.value !in c.servers[m.srv].hydRoles
  }

  function Moved(c: Cluster, m: Move): Cluster
    requires CanMove(c, m)
  {
    var s := c.servers[m.srv];
    Cluster(
      c.servers[m.srv := Step(s, m.e)],
      if m.e.EApply? then c.store[s.writes[s.applied].roid := Snapshot(m.srv, s.writes[s.applied])] else c.store,
      if Asks(c, m) then c.at[m.e.roid := m.srv] else c.at,
      if Hydrates(c, m) then c.owners[m.e.found.value := Owner(m.srv, m.e.o)] else c.owners)
  }

  /** Neither the table nor a suspended handler of the server has to do with the role. */
  ghost predicate Uninvolved(s: State, r: int) {
    r !in s.hydRoles && forall f :: f in s.fibers ==> s.fibers[f].roid != r
  }

  /** A login goes to Redis only if no server has to do with the role: one login of a role at a time, and none before
      its logout has come to its end. */
  ghost predicate Exclusive(c: Cluster, m: Move)
    requires CanMove(c, m)
  {
    Asks(c, m) ==> forall q :: q in c.servers ==> Uninvolved(c.servers[q], m.e.roid)
  }

  // ----- One server -----

  /** SETs of one object come in the order of its states. */
  ghost predicate WritesOk(s: State) {
    && (forall i :: 0 <= i < |s.writes| ==>
          s.writes[i].role in s.roles && s.writes[i].upto <= |s.roles[s.writes[i].role].hooks|)
    && (forall i, j :: 0 <= i <= j < |s.writes| && s.writes[i].role == s.writes[j].role ==>
          s.writes[i].upto <= s.writes[j].upto)
  }

  ghost predicate ServerInv(s: State) {
    Inv(s) && ReleaseInv(s) && TicketsOk(s) && AllAwaited(s) && WritesOk(s)
  }

  /** Whatever of the role is hydrated, in hand, or on its way to Redis is object o. */
  ghost predicate Owned(s: State, r: int, o: nat) {
    && o in s.roles && (r in s.hydRoles ==> s.hydRoles[r].role == o)
    && (forall f :: f in s.fibers && s.fibers[f].roid == r ==> !s.fibers[f].LoginFetching? && s.fibers[f].hyd.role == o)
    && (forall i :: s.applied <= i < |s.writes| && s.writes[i].roid == r ==> s.writes[i].role == o)
  }

  /** One login of the role waits for its GETEX, and nothing else has to do with it. */
  ghost predicate Fetching(s: State, r: int) {
    && r !in s.hydRoles
    && (forall f :: f in s.fibers && s.fibers[f].roid == r ==> s.fibers[f].LoginFetching?)
    && (forall f, g :: f in s.fibers && g in s.fibers && s.fibers[f].roid == r && s.fibers[g].roid == r ==> f == g)
  }

  lemma NothingOnItsWay(s: State, r: int)
    requires ServerInv(s) && (Uninvolved(s, r) || Fetching(s, r))
    ensures forall i :: s.applied <= i < |s.writes| ==> s.writes[i].roid != r
  {
    forall i | s.applied <= i < |s.writes| ensures s.writes[i].roid != r {
      assert Awaited(s, i);
    }
  }

  lemma UninvolvedStays(s: State, e: Event, r: int)
    requires RefsOk(s) && Enabled(s, e) && Uninvolved(s, r) && !(e.ELogin? && e.roid == r)
    ensures Uninvolved(Step(s, e), r)
  {
  }

  lemma LoginIsFetching(s: State, e: Event, r: int)
    requires RefsOk(s) && Enabled(s, e) && Uninvolved(s, r) && e.ELogin? && e.roid == r
    ensures Fetching(Step(s, e), r)
  {
  }

  lemma FetchingWaits(s: State, e: Event, r: int)
    requires RefsOk(s) && Enabled(s, e) && Fetching(s, r)
    requires !(e.ELogin? && e.roid == r) && !(e.ELoaded? && e.found == Some(r))
    ensures Fetching(Step(s, e), r)
  {
    var t := Step(s, e);
    forall f | f in t.fibers && t.fibers[f].roid == r ensures f in s.fibers && t.fibers[f] == s.fibers[f] {
    }
  }

  lemma FetchingEnds(s: State, e: Event, r: int)
    requires RefsOk(s) && Enabled(s, e) && Fetching(s, r) && e.ELoaded? && e.found == Some(r)
    requires forall i :: s.applied <= i < |s.writes| ==> s.writes[i].roid != r
    ensures r in Step(s, e).hydRoles && Owned(Step(s, e), r, e.o)
  {
  }

  lemma OwnedThroughRequest(s: State, e: Event, r: int, o: nat)
    requires RefsOk(s) && Enabled(s, e) && Owned(s, r, o)
    requires e.ELogin? || e.ELoaded? || e.EReconnect? || e.EDisconnect? || e.EApply?
    requires e.ELogin? && e.roid == r ==> r in s.hydRoles
    ensures Owned(Step(s, e), r, o)
  {
  }

  lemma OwnedThroughLogout(s: State, e: Event, r: int, o: nat)
    requires RefsOk(s) && Enabled(s, e) && Owned(s, r, o) && s.applied <= |s.writes| && (e.ELogout? || e.EStored?)
    ensures Owned(Step(s, e), r, o)
  {
  }

  lemma DecisionKeepsOwned(s: State, f: nat, roid: int, hyd: Hydrated, now: int, r: int, o: nat)
    requires Owned(s, r, o) && s.applied <= |s.writes| && EntryOk(s, roid, hyd) && (roid == r ==> hyd.role == o)
    ensures Owned(VisitDecide(s, f, roid, hyd, now), r, o)
  {
  }

  lemma OwnedThroughVisit(s: State, e: Event, r: int, o: nat)
    requires RefsOk(s) && Enabled(s, e) && Owned(s, r, o) && s.applied <= |s.writes| && e.EVisit?
    ensures Owned(Step(s, e), r, o)
  {
    if e.roid in s.hydRoles && s.roles[s.hydRoles[e.roid].role].Disconnected() {
      DecisionKeepsOwned(s, e.f, e.roid, s.hydRoles[e.roid], e.now, r, o);
    }
  }

  lemma OwnedThroughCheck(s: State, e: Event, r: int, o: nat)
    requires RefsOk(s) && Enabled(s, e) && Owned(s, r, o) && s.applied <= |s.writes| && e.EChecked?
    ensures Owned(Step(s, e), r, o)
  {
    var fiber, t := s.fibers[e.f], Finish(s, e.f);
    if fiber.roid in s.hydRoles {
      var q := fiber.hyd.role;
      DecisionKeepsOwned(if e.ok then t else WithRole(t, q, t.roles[q].Disconnect(fiber.now)),
                         e.f, fiber.roid, fiber.hyd, fiber.now, r, o);
    }
  }

  lemma OwnedStays(s: State, e: Event, r: int, o: nat)
    requires RefsOk(s) && Enabled(s, e) && Owned(s, r, o) && s.applied <= |s.writes|
    requires e.ELogin? && e.roid == r ==> r in s.hydRoles
    ensures Owned(Step(s, e), r, o)
  {
    match e
    case ELogout(_, _, _) => OwnedThroughLogout(s, e, r, o);
    case EStored(_) => OwnedThroughLogout(s, e, r, o);
    case EVisit(_, _, _) => OwnedThroughVisit(s, e, r, o);
    case EChecked(_, _) => OwnedThroughCheck(s, e, r, o);
    case _ => OwnedThroughRequest(s, e, r, o);
  }

  lemma HooksGrowOnRequest(s: State, e: Event)
    requires RefsOk(s) && Enabled(s, e) && (e.ELogin? || e.ELoaded? || e.EReconnect? || e.EDisconnect? || e.ELogout?)
    ensures HooksGrow(s, Step(s, e))
  {
  }

  lemma HooksGrowOnVisit(s: State, e: Event)
    requires RefsOk(s) && Enabled(s, e) && (e.EVisit? || e.EChecked?)
    ensures HooksGrow(s, Step(s, e))
  {
  }

  lemma HooksGrowStep(s: State, e: Event)
    requires RefsOk(s) && Enabled(s, e)
    ensures HooksGrow(s, Step(s, e))
  {
    match e
    case EVisit(_, _, _) => HooksGrowOnVisit(s, e);
    case EChecked(_, _) => HooksGrowOnVisit(s, e);
    case EStored(_) =>
    case EApply =>
    case _ => HooksGrowOnRequest(s, e);
  }

  /** The SET that a step issues, if any, is of its object as it is then. */
  lemma IssuedIsCurrent(s: State, e: Event)
    requires RefsOk(s) && Enabled(s, e)
    ensures IssuesCurrent(s, Step(s, e))
  {
  }

  predicate IssuesCurrent(s: State, t: State) {
    t.writes == s.writes ||
    (|t.writes| == |s.writes| + 1 && t.writes[..|s.writes|] == s.writes &&
     var w := t.writes[|s.writes|]; w.role in t.roles && w.upto == |t.roles[w.role].hooks|)
  }

  lemma WritesStayOk(s: State, t: State)
    requires WritesOk(s) && HooksGrow(s, t) && IssuesCurrent(s, t)
    ensures WritesOk(t)
  {
    forall i | 0 <= i < |s.writes|
      ensures t.writes[i] == s.writes[i] && s.writes[i].upto <= |t.roles[s.writes[i].role].hooks|
    {
    }
  }

  lemma StepKeepsWritesOk(s: State, e: Event)
    requires RefsOk(s) && Enabled(s, e) && WritesOk(s)
    ensures WritesOk(Step(s, e))
  {
    HooksGrowStep(s, e);
    IssuedIsCurrent(s, e);
    WritesStayOk(s, Step(s, e));
  }

  lemma StepKeepsServerInv(s: State, e: Event)
    requires ServerInv(s) && Enabled(s, e) && NoOverlap(s, e)
    ensures ServerInv(Step(s, e))
  {
    StepKeepsInv(s, e);
    StepKeepsReleaseInv(s, e);
    StepKeepsTickets(s, e);
    StepKeepsWritesOk(s, e);
  }

  /** The latest SET of the role that has taken effect. */
  function Latest(s: State, r: int): Option<Write>
    requires s.applied <= |s.writes|
  {
    LatestWrite(s.writes[..s.applied], r)
  }

  lemma LatestStep(s: State, e: Event, r: int)
    requires RefsOk(s) && Enabled(s, e) && s.applied <= |s.writes|
    ensures var t := Step(s, e);
      && t.applied <= |t.writes|
      && Latest(t, r) == if e.EApply? && s.writes[s.applied].roid == r then Some(s.writes[s.applied]) else Latest(s, r)
  {
    var t := Step(s, e);
    if e.EApply? {
      var upto := t.writes[..t.applied];
      assert upto[..|upto| - 1] == s.writes[..s.applied] && upto[|upto| - 1] == s.writes[s.applied];
    } else {
      WritesGrow(s, e);
      assert t.applied == s.applied && t.writes[..t.applied] == s.writes[..s.applied];
    }
  }

  // ----- The cluster -----

  predicate LoggedOut(hooks: seq<Hook>, upto: nat) {
    exists j :: 0 <= j < upto <= |hooks| && hooks[j].OnLogout?
  }

  /** The server has had object o logged out, and the store has a snapshot of it from after that: its latest SET. */
  predicate Released(s: State, r: int, o: nat, srv: nat, snapshot: Snapshot) {
    && s.applied <= |s.writes| && o in s.roles && snapshot.srv == srv
    && Latest(s, r) == Some(snapshot.write) && snapshot.write.role == o
    && LoggedOut(s.roles[o].hooks, snapshot.write.upto)
  }

  /** What the store has is the latest SET of the latest object, if there has been one. */
  predicate Current(s: State, r: int, o: nat, srv: nat, store: map<int, Snapshot>) {
    && s.applied <= |s.writes| && o in s.roles
    && (Latest(s, r).Some? && Latest(s, r).value.role == o ==>
          r in store && store[r] == Snapshot(srv, Latest(s, r).value))
  }

  /** Wherever the latest object of the role is, the store has its SETs, and the last one after its release. */
  ghost predicate OwnerOk(c: Cluster, r: int) {
    r in c.owners ==>
      var owner := c.owners[r];
      && owner.srv in c.servers
      && var s := c.servers[owner.srv];
      && Current(s, r, owner.role, owner.srv, c.store)
      && (r !in s.hydRoles ==> r in c.store && Released(s, r, owner.role, owner.srv, c.store[r]))
  }

  /** At most one server has to do with the role. */
  ghost predicate PlaceOk(c: Cluster, r: int) {
    && (forall q :: q in c.servers && (r in c.at ==> c.at[r] != q) ==> Uninvolved(c.servers[q], r))
    && (r in c.at && c.at[r] in c.servers ==>
         || Fetching(c.servers[c.at[r]], r)
         || (r in c.owners && c.owners[r].srv == c.at[r] && Owned(c.servers[c.at[r]], r, c.owners[r].role)))
  }

  ghost predicate ClusterInv(c: Cluster) {
    && (forall q :: q in c.servers ==> ServerInv(c.servers[q]))
    && (forall r :: OwnerOk(c, r))
    && (forall r :: PlaceOk(c, r))
  }

  /** Of a hydrating login there is no other trace on its server. */
  lemma HydratingServerFetches(c: Cluster, m: Move)
    requires ClusterInv(c) && CanMove(c, m) && Hydrates(c, m)
    ensures var r := m.e.found.value; r in c.at && c.at[r] == m.srv && Fetching(c.servers[m.srv], r)
  {
    assert PlaceOk(c, m.e.found.value);
  }

  lemma MoveKeepsServerInv(c: Cluster, m: Move)
    requires ClusterInv(c) && CanMove(c, m)
    ensures ServerInv(Step(c.servers[m.srv], m.e))
  {
    if Hydrates(c, m) {
      HydratingServerFetches(c, m);
    }
    StepKeepsServerInv(c.servers[m.srv], m.e);
  }

  // ----- Where the role is -----

  lemma LoginKeepsPlace(c: Cluster, m: Move, r: int)
    requires CanMove(c, m) && Exclusive(c, m) && Asks(c, m) && m.e.roid == r
    ensures PlaceOk(Moved(c, m), r)
  {
    LoginIsFetching(c.servers[m.srv], m.e, r);
  }

  lemma ElsewhereKeepsPlace(c: Cluster, m: Move, r: int)
    requires PlaceOk(c, r) && CanMove(c, m) && !(Asks(c, m) && m.e.roid == r) && (r in c.at ==> c.at[r] != m.srv)
    ensures PlaceOk(Moved(c, m), r)
  {
    UninvolvedStays(c.servers[m.srv], m.e, r);
    assert Hydrates(c, m) ==> m.e.found.value != r;
  }

  lemma FetchingKeepsPlace(c: Cluster, m: Move, r: int)
    requires PlaceOk(c, r) && CanMove(c, m) && !(Asks(c, m) && m.e.roid == r)
    requires r in c.at && c.at[r] == m.srv && Fetching(c.servers[m.srv], r)
    requires var s := c.servers[m.srv]; forall i :: s.applied <= i < |s.writes| ==> s.writes[i].roid != r
    ensures PlaceOk(Moved(c, m), r)
  {
    if m.e.ELoaded? && m.e.found == Some(r) {
      FetchingEnds(c.servers[m.srv], m.e, r);
    } else {
      FetchingWaits(c.servers[m.srv], m.e, r);
    }
  }

  lemma OwnedKeepsPlace(c: Cluster, m: Move, r: int)
    requires PlaceOk(c, r) && CanMove(c, m) && !(Asks(c, m) && m.e.roid == r)
    requires r in c.at && c.at[r] == m.srv && r in c.owners && c.owners[r].srv == m.srv
    requires var s := c.servers[m.srv]; s.applied <= |s.writes| && Owned(s, r, c.owners[r].role)
    ensures PlaceOk(Moved(c, m), r)
  {
    OwnedStays(c.servers[m.srv], m.e, r, c.owners[r].role);
    assert Hydrates(c, m) ==> m.e.found.value != r;
  }

  lemma MoveKeepsPlace(c: Cluster, m: Move, r: int)
    requires PlaceOk(c, r) && CanMove(c, m) && Exclusive(c, m) && ServerInv(c.servers[m.srv])
    ensures PlaceOk(Moved(c, m), r)
  {
    if Asks(c, m) && m.e.roid == r {
      LoginKeepsPlace(c, m, r);
    } else if r in c.at ==> c.at[r] != m.srv {
      ElsewhereKeepsPlace(c, m, r);
    } else if Fetching(c.servers[m.srv], r) {
      NothingOnItsWay(c.servers[m.srv], r);
      FetchingKeepsPlace(c, m, r);
    } else {
      OwnedKeepsPlace(c, m, r);
    }
  }

  // ----- What the store has -----

  lemma {:induction false} LatestIsWritten(writes: seq<Write>, r: int) returns (i: nat)
    requires LatestWrite(writes, r).Some?
    ensures i < |writes| && LatestWrite(writes, r) == Some(writes[i]) && writes[i].roid == r
  {
    i := |writes| - 1;
    if writes[i].roid != r {
      i := LatestIsWritten(writes[..i], r);
    }
  }

  /** The move changes the record of role r. */
  predicate Stores(c: Cluster, m: Move, r: int)
    requires CanMove(c, m)
  {
    m.e.EApply? && var s := c.servers[m.srv]; s.writes[s.applied].roid == r
  }

  /** What is needed of the server that moves. */
  ghost predicate MoveOk(c: Cluster, m: Move, r: int) {
    CanMove(c, m) && OwnerOk(c, r) && PlaceOk(c, r) && ServerInv(c.servers[m.srv])
  }

  /** Only the server that the role is on can change its record. */
  lemma OnlyOwnerStores(c: Cluster, m: Move, r: int)
    requires MoveOk(c, m, r) && r in c.owners && Stores(c, m, r)
    ensures r in c.at && c.at[r] == m.srv == c.owners[r].srv
    ensures var s := c.servers[m.srv]; s.writes[s.applied].role == c.owners[r].role
  {
    var s := c.servers[m.srv];
    if Uninvolved(s, r) || Fetching(s, r) {
      NothingOnItsWay(s, r);
    }
  }

  lemma HydrationKeepsOwner(c: Cluster, m: Move, r: int)
    requires MoveOk(c, m, r) && Hydrates(c, m) && m.e.found.value == r
    ensures OwnerOk(Moved(c, m), r)
  {
    var s := c.servers[m.srv];
    LatestStep(s, m.e, r);
    if Latest(s, r).Some? {
      var i := LatestIsWritten(s.writes[..s.applied], r);
      assert s.writes[i].role in s.roles;
    }
  }

  lemma CurrentStays(c: Cluster, m: Move, r: int)
    requires MoveOk(c, m, r) && r in c.owners && c.owners[r].srv == m.srv
    ensures Current(Step(c.servers[m.srv], m.e), r, c.owners[r].role, m.srv, Moved(c, m).store)
  {
    HooksGrowStep(c.servers[m.srv], m.e);
    LatestStep(c.servers[m.srv], m.e, r);
    if Stores(c, m, r) {
      OnlyOwnerStores(c, m, r);
    }
  }

  lemma LoggedOutStays(before: seq<Hook>, after: seq<Hook>, a: nat, b: nat)
    requires LoggedOut(before, a) && before <= after && a <= b <= |after|
    ensures LoggedOut(after, b)
  {
    var j :| 0 <= j < a && before[j].OnLogout?;
    assert after[j].OnLogout?;
  }

  /** A later SET of the same object is of a later state. */
  lemma LaterUpto(s: State, r: int, o: nat)
    requires WritesOk(s) && s.applied < |s.writes| && s.writes[s.applied].role == o
    requires Latest(s, r).Some? && Latest(s, r).value.role == o
    ensures o in s.roles && Latest(s, r).value.upto <= s.writes[s.applied].upto <= |s.roles[o].hooks|
  {
    var i := LatestIsWritten(s.writes[..s.applied], r);
  }

  /** A released role's record is replaced by later ones of the same object only. */
  lemma ReleasedStays(c: Cluster, m: Move, r: int)
    requires MoveOk(c, m, r) && r in c.owners && c.owners[r].srv == m.srv && r !in c.servers[m.srv].hydRoles
    ensures r in Moved(c, m).store
    ensures Released(Step(c.servers[m.srv], m.e), r, c.owners[r].role, m.srv, Moved(c, m).store[r])
  {
    var s, o := c.servers[m.srv], c.owners[r].role;
    var t := Step(s, m.e);
    HooksGrowStep(s, m.e);
    LatestStep(s, m.e, r);
    if Stores(c, m, r) {
      OnlyOwnerStores(c, m, r);
      LaterUpto(s, r, o);
    }
    LoggedOutStays(s.roles[o].hooks, t.roles[o].hooks, c.store[r].write.upto, Moved(c, m).store[r].write.upto);
  }

  /** After the SET of a logout the latest one is from after `on_logout`. */
  lemma SettledIsLoggedOut(s: State, r: int, o: nat, ticket: nat)
    requires Settled(s, r, o, ticket) && ticket < s.applied <= |s.writes|
    ensures Latest(s, r).Some? && Latest(s, r).value.role == o
    ensures LoggedOut(s.roles[o].hooks, Latest(s, r).value.upto)
  {
    var i := LatestWriteIsLate(s.writes[..s.applied], r, ticket);
    assert s.roles[o].hooks[s.writes[ticket].upto - 1].OnLogout?;
  }

  /** The end of a logout. */
  lemma ReleasedNow(s: State, e: Event, r: int, o: nat)
    requires ServerInv(s) && Enabled(s, e) && Owned(s, r, o) && r in s.hydRoles && r !in Step(s, e).hydRoles
    ensures e.EStored? && Step(s, e).roles == s.roles && Step(s, e).writes == s.writes
    ensures Step(s, e).applied == s.applied <= |s.writes| && Latest(s, r).Some? && Latest(s, r).value.role == o
    ensures LoggedOut(s.roles[o].hooks, Latest(s, r).value.upto)
  {
    OnlyLoginHydrates(s, e, r);
    SettledIsLoggedOut(s, r, o, s.fibers[e.f].ticket);
  }

  /** When a server releases a role, the store has it as it was after `on_logout`. */
  lemma ReleaseIsStored(c: Cluster, m: Move, r: int)
    requires MoveOk(c, m, r) && r in c.owners && c.owners[r].srv == m.srv
    requires r in c.servers[m.srv].hydRoles && r !in Step(c.servers[m.srv], m.e).hydRoles
    ensures r in c.store && Moved(c, m).store == c.store
    ensures Released(Step(c.servers[m.srv], m.e), r, c.owners[r].role, m.srv, c.store[r])
  {
    ReleasedNow(c.servers[m.srv], m.e, r, c.owners[r].role);
  }

  lemma OwnerMoves(c: Cluster, m: Move, r: int)
    requires MoveOk(c, m, r) && r in c.owners && c.owners[r].srv == m.srv && !(Hydrates(c, m) && m.e.found.value == r)
    ensures OwnerOk(Moved(c, m), r)
  {
    CurrentStays(c, m, r);
    if r !in c.servers[m.srv].hydRoles {
      ReleasedStays(c, m, r);
    } else if r !in Step(c.servers[m.srv], m.e).hydRoles {
      ReleaseIsStored(c, m, r);
    }
  }

  lemma OtherMoves(c: Cluster, m: Move, r: int)
    requires MoveOk(c, m, r) && r in c.owners && c.owners[r].srv != m.srv && !(Hydrates(c, m) && m.e.found.value == r)
    ensures OwnerOk(Moved(c, m), r)
  {
    if Stores(c, m, r) {
      OnlyOwnerStores(c, m, r);
    }
  }

  lemma MoveKeepsOwner(c: Cluster, m: Move, r: int)
    requires MoveOk(c, m, r)
    ensures OwnerOk(Moved(c, m), r)
  {
    if Hydrates(c, m) && m.e.found.value == r {
      HydrationKeepsOwner(c, m, r);
    } else if r in c.owners && c.owners[r].srv == m.srv {
      OwnerMoves(c, m, r);
    } else if r in c.owners {
      OtherMoves(c, m, r);
    }
  }

  /** Every move of every server keeps all of this. */
  lemma MoveKeepsInv(c: Cluster, m: Move)
    requires ClusterInv(c) && CanMove(c, m) && Exclusive(c, m)
    ensures ClusterInv(Moved(c, m))
  {
    MoveKeepsServerInv(c, m);
    forall r ensures OwnerOk(Moved(c, m), r) && PlaceOk(Moved(c, m), r) {
      MoveKeepsOwner(c, m, r);
      MoveKeepsPlace(c, m, r);
    }
  }

  // ----- Runs -----

  ghost predicate Disciplined(c: Cluster, ms: seq<Move>)
    decreases |ms|
  {
    ms == [] || (CanMove(c, ms[0]) && Exclusive(c, ms[0]) && Disciplined(Moved(c, ms[0]), ms[1..]))
  }

  ghost function Run(c: Cluster, ms: seq<Move>): Cluster
    requires Disciplined(c, ms)
    decreases |ms|
  {
    if ms == [] then c else Run(Moved(c, ms[0]), ms[1..])
  }

  lemma {:induction false} RunKeepsInv(c: Cluster, ms: seq<Move>)
    requires ClusterInv(c) && Disciplined(c, ms)
    ensures ClusterInv(Run(c, ms))
    decreases |ms|
  {
    if ms != [] {
      MoveKeepsInv(c, ms[0]);
      RunKeepsInv(Moved(c, ms[0]), ms[1..]);
    }
  }

  lemma StartInv(servers: set<nat>, idleLimit: int)
    ensures ClusterInv(Start(servers, idleLimit))
  {
  }

  /** No server has a SET of the role on its way. */
  ghost predicate AllArrived(c: Cluster, r: int) {
    forall q :: q in c.servers ==> !OnItsWay(c.servers[q], r)
  }

  /** Whatever login, logout, reconnection, inactivity and save visits have done on all servers: when a login, on
      whichever server, hydrates a role that has been hydrated before, the record that it finds is the latest SET of the
      latest object of the role, from after that object's `on_logout`; and no other SET of the role is on its way. */
  lemma NextLoginStartsFromLogout(servers: set<nat>, idleLimit: int, ms: seq<Move>, m: Move)
    requires Disciplined(Start(servers, idleLimit), ms)
    requires var c := Run(Start(servers, idleLimit), ms);
      CanMove(c, m) && Hydrates(c, m) && m.e.found.value in c.owners
    ensures var c, r := Run(Start(servers, idleLimit), ms), m.e.found.value;
      && AllArrived(c, r) && r in c.store && c.owners[r].srv in c.servers
      && Released(c.servers[c.owners[r].srv], r, c.owners[r].role, c.owners[r].srv, c.store[r])
  {
    StartInv(servers, idleLimit);
    RunKeepsInv(Start(servers, idleLimit), ms);
    var c, r := Run(Start(servers, idleLimit), ms), m.e.found.value;
    assert OwnerOk(c, r) && PlaceOk(c, r);
    HydratingServerFetches(c, m);
    forall q | q in c.servers ensures !OnItsWay(c.servers[q], r) {
      NothingOnItsWay(c.servers[q], r);
    }
  }

  /** The GETEX of that login has read the same record whenever it took effect: as long as a login waits for its GETEX,
      the record does not change. */
  lemma RecordRestsMeanwhile(c: Cluster, m: Move, q: nat, f: nat)
    requires ClusterInv(c) && CanMove(c, m) && q in c.servers
    requires f in c.servers[q].fibers && c.servers[q].fibers[f].LoginFetching?
    ensures var r := c.servers[q].fibers[f].roid;
      && (r in Moved(c, m).store <==> r in c.store)
      && (r in c.store ==> Moved(c, m).store[r] == c.store[r])
  {
    var r := c.servers[q].fibers[f].roid;
    assert MoveOk(c, m, r);
    NobodyStores(c, m, r, q, f);
  }

  lemma NobodyStores(c: Cluster, m: Move, r: int, q: nat, f: nat)
    requires MoveOk(c, m, r) && q in c.servers && f in c.servers[q].fibers
    requires c.servers[q].fibers[f].LoginFetching? && c.servers[q].fibers[f].roid == r
    ensures !Stores(c, m, r)
  {
    assert !Uninvolved(c.servers[q], r) && c.at[r] == q && Fetching(c.servers[q], r);
    NothingOnItsWay(c.servers[m.srv], r);
  }
}
