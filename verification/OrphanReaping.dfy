/** A role whose client is gone is logged out: what the agent answers, and what the visits of the save ticks make of
    it, in any run of the logic server. */
module OrphanReaping {
  import opened Options
  import opened SavePlan
  import opened LogicRoles
  import opened LogicRelease
  import opened SaveTicks
  import opened SaveTiming
  import AgentService

  // ----- One step -----

  /** Nobody logs role r in or reconnects it, and no request disconnects it later than `at`. */
  predicate Untouched(e: Event, r: int, at: int) {
    match e
    case ELogin(_, roid, _) => roid != r
    case ELoaded(_, found, _) => found != Some(r)
    case EReconnect(roids, _) => r !in roids
    case EDisconnect(roid, now) => roid == r ==> now <= at
    case ELogout(_, roid, now) => roid == r ==> now <= at
    case _ => true
  }

  /** The agent confirms that the client of r is there. */
  predicate Confirmed(s: State, e: Event, r: int)
    requires Enabled(s, e)
  {
    e.EChecked? && s.fibers[e.f].roid == r && e.ok
  }

  predicate Quiet(s: State, e: Event, r: int, at: int)
    requires Enabled(s, e)
  {
    Untouched(e, r, at) && !Confirmed(s, e, r)
  }

  predicate Gone(s: State, r: int) {
    r !in s.hydRoles
  }

  function ObjectOf(s: State, r: int): Role
    requires RefsOk(s) && !Gone(s, r)
  {
    s.roles[s.hydRoles[r].role]
  }

  predicate IsVisit(s: State, f: nat, r: int) {
    f in s.fibers && Visiting(s.fibers[f]) && s.fibers[f].roid == r
  }

  predicate Checking(s: State, f: nat, r: int) {
    f in s.fibers && s.fibers[f].VisitChecking? && s.fibers[f].roid == r
  }

  /** The visits of r that are in progress are of the object in the table. */
  ghost predicate Shared(s: State, r: int) {
    !Gone(s, r) ==> forall f :: IsVisit(s, f, r) ==> s.fibers[f].hyd.role == s.hydRoles[r].role
  }

  /** If the role is disconnected, then since `at` or earlier. */
  predicate NotLater(s: State, r: int, at: int) {
    RefsOk(s) && (!Gone(s, r) && ObjectOf(s, r).Disconnected() ==> ObjectOf(s, r).dcSince <= at)
  }

  predicate GoneOrOffline(s: State, r: int) {
    RefsOk(s) && (!Gone(s, r) ==> ObjectOf(s, r).Disconnected())
  }

  /** An object that stays in the table is as it was, or disconnected by a request or by a check. */
  predicate Fades(s: State, t: State, e: Event, r: int, at: int)
    requires RefsOk(s) && RefsOk(t) && Enabled(s, e) && !Gone(s, r) && !Gone(t, r)
  {
    var before, after := ObjectOf(s, r), ObjectOf(t, r);
    || (after.agent == before.agent && after.dcSince == before.dcSince)
    || (after.Disconnected() && after.dcSince <= at)
    || (e.EChecked? && Checking(s, e.f, r) && after.Disconnected() && after.dcSince == s.fibers[e.f].now)
  }

  /** What a quiet step means for role r. */
  ghost predicate Fading(s: State, t: State, e: Event, r: int, at: int)
    requires RefsOk(s) && RefsOk(t) && Enabled(s, e)
  {
    Shared(t, r) && (Gone(s, r) ==> Gone(t, r)) && (!Gone(t, r) ==> Fades(s, t, e, r, at))
  }

  lemma RequestIsQuiet(s: State, e: Event, r: int, at: int)
    requires RefsOk(s) && Enabled(s, e) && Quiet(s, e, r, at) && Shared(s, r) && RefsOk(Step(s, e))
    requires e.ELogin? || e.ELoaded? || e.EReconnect? || e.EDisconnect?
    ensures Fading(s, Step(s, e), e, r, at)
  {
  }

  lemma LogoutIsQuiet(s: State, e: Event, r: int, at: int)
    requires RefsOk(s) && Enabled(s, e) && Quiet(s, e, r, at) && Shared(s, r) && RefsOk(Step(s, e))
    requires e.ELogout? || e.EStored? || e.EApply?
    ensures Fading(s, Step(s, e), e, r, at)
  {
  }

  /** The decision at the end of a visit changes no link, and its fiber shares the object. */
  lemma DecisionIsQuiet(s: State, f: nat, roid: int, hyd: Hydrated, now: int, r: int)
    requires RefsOk(s) && EntryOk(s, roid, hyd) && Shared(s, r)
    requires roid == r && !Gone(s, r) ==> s.hydRoles[r].role == hyd.role
    ensures var t := VisitDecide(s, f, roid, hyd, now);
      && Shared(t, r) && t.hydRoles == s.hydRoles
      && forall o :: o in s.roles ==>
           o in t.roles && t.roles[o].agent == s.roles[o].agent && t.roles[o].dcSince == s.roles[o].dcSince
  {
  }

  lemma VisitIsQuiet(s: State, e: Event, r: int, at: int)
    requires RefsOk(s) && Enabled(s, e) && Quiet(s, e, r, at) && Shared(s, r) && RefsOk(Step(s, e)) && e.EVisit?
    ensures Fading(s, Step(s, e), e, r, at)
  {
    if !Gone(s, e.roid) && s.roles[s.hydRoles[e.roid].role].Disconnected() {
      DecisionIsQuiet(s, e.f, e.roid, s.hydRoles[e.roid], e.now, r);
    }
  }

  lemma CheckIsQuiet(s: State, e: Event, r: int, at: int)
    requires RefsOk(s) && Enabled(s, e) && Quiet(s, e, r, at) && Shared(s, r) && RefsOk(Step(s, e)) && e.EChecked?
    ensures Fading(s, Step(s, e), e, r, at)
  {
    var fiber, t := s.fibers[e.f], Finish(s, e.f);
    assert IsVisit(s, e.f, fiber.roid);
    if !Gone(s, fiber.roid) {
      var o := fiber.hyd.role;
      var u := if e.ok then t else WithRole(t, o, t.roles[o].Disconnect(fiber.now));
      DecisionIsQuiet(u, e.f, fiber.roid, fiber.hyd, fiber.now, r);
    }
  }

  lemma QuietStep(s: State, e: Event, r: int, at: int)
    requires Inv(s) && Enabled(s, e) && Quiet(s, e, r, at) && Shared(s, r)
    ensures Inv(Step(s, e)) && Fading(s, Step(s, e), e, r, at)
  {
    StepKeepsInv(s, e);
    match e
    case ELogout(_, _, _) => LogoutIsQuiet(s, e, r, at);
    case EStored(_) => LogoutIsQuiet(s, e, r, at);
    case EApply => LogoutIsQuiet(s, e, r, at);
    case EVisit(_, _, _) => VisitIsQuiet(s, e, r, at);
    case EChecked(_, _) => CheckIsQuiet(s, e, r, at);
    case _ => RequestIsQuiet(s, e, r, at);
  }

  // ----- Until the role is disconnected -----

  /** All checks of r in progress began at `at` or earlier, and so did a disconnection. */
  ghost predicate Watched(s: State, r: int, at: int) {
    Inv(s) && Shared(s, r) && NotLater(s, r, at) && forall f :: Checking(s, f, r) ==> s.fibers[f].now <= at
  }

  /** The role is gone or offline, or fiber f is about to find that its client is not there. */
  predicate Settling(s: State, f: nat, r: int) {
    GoneOrOffline(s, r) || Checking(s, f, r)
  }

  /** Only a visit of an online role starts a check. */
  lemma ChecksStart(s: State, e: Event, f: nat, r: int)
    requires RefsOk(s) && Enabled(s, e) && Checking(Step(s, e), f, r)
    ensures (Checking(s, f, r) && Step(s, e).fibers[f] == s.fibers[f])
         || (e.EVisit? && e.f == f && e.roid == r && Step(s, e).fibers[f].now == e.now && !GoneOrOffline(s, r))
  {
  }

  lemma ChecksGoOn(s: State, e: Event, f: nat, r: int)
    requires RefsOk(s) && Enabled(s, e) && Checking(s, f, r) && !(e.EChecked? && e.f == f)
    ensures Checking(Step(s, e), f, r)
  {
  }

  lemma VisitSettles(s: State, e: Event, r: int)
    requires RefsOk(s) && Enabled(s, e) && RefsOk(Step(s, e)) && e.EVisit? && e.roid == r
    ensures Settling(Step(s, e), e.f, r)
  {
  }

  lemma CheckSettles(s: State, e: Event, r: int)
    requires RefsOk(s) && Enabled(s, e) && RefsOk(Step(s, e)) && Shared(s, r)
    requires e.EChecked? && Checking(s, e.f, r) && !e.ok
    ensures GoneOrOffline(Step(s, e), r)
  {
    assert IsVisit(s, e.f, r);
  }

  lemma WatchStep(s: State, e: Event, r: int, at: int, f: nat)
    requires Watched(s, r, at) && Enabled(s, e) && Quiet(s, e, r, at) && (e.EVisit? ==> e.now <= at)
    ensures Watched(Step(s, e), r, at) && (Settling(s, f, r) ==> Settling(Step(s, e), f, r))
  {
    var t := Step(s, e);
    QuietStep(s, e, r, at);
    forall g | Checking(t, g, r) ensures t.fibers[g].now <= at {
      ChecksStart(s, e, g, r);
    }
    if Checking(s, f, r) {
      if e.EChecked? && e.f == f {
        CheckSettles(s, e, r);
      } else {
        ChecksGoOn(s, e, f, r);
      }
    }
  }

  // ----- Until it is logged out -----

  ghost predicate Fallen(s: State, r: int, at: int) {
    Inv(s) && Shared(s, r) && NotLater(s, r, at) && GoneOrOffline(s, r) && forall f :: !Checking(s, f, r)
  }

  /** The role is gone, or fiber f is logging it out. */
  predicate Leaving(s: State, f: nat, r: int) {
    Gone(s, r) || (f in s.fibers && s.fibers[f].VisitLoggingOut? && s.fibers[f].roid == r)
  }

  lemma LeavingStep(s: State, e: Event, f: nat, r: int, at: int)
    requires RefsOk(s) && Enabled(s, e) && Untouched(e, r, at) && Leaving(s, f, r)
    ensures Leaving(Step(s, e), f, r)
  {
  }

  lemma LateVisitLeaves(s: State, e: Event, r: int, at: int)
    requires RefsOk(s) && Enabled(s, e) && e.EVisit? && e.roid == r && e.now >= at + s.idleLimit
    requires NotLater(s, r, at) && GoneOrOffline(s, r)
    ensures Leaving(Step(s, e), e.f, r)
  {
  }

  lemma FallenStep(s: State, e: Event, r: int, at: int)
    requires Fallen(s, r, at) && Enabled(s, e) && Quiet(s, e, r, at)
    ensures Fallen(Step(s, e), r, at)
  {
    QuietStep(s, e, r, at);
    forall f ensures !Checking(Step(s, e), f, r) {
      if Checking(Step(s, e), f, r) {
        ChecksStart(s, e, f, r);
      }
    }
  }

  // ----- Runs -----

  ghost predicate QuietAt(s: State, es: seq<Event>, i: nat, r: int, at: int) {
    Legal(s, es) && i < |es| && Enabled(After(s, es, i), es[i]) && Quiet(After(s, es, i), es[i], r, at)
  }

  ghost predicate AllQuiet(s: State, es: seq<Event>, a: nat, b: nat, r: int, at: int) {
    Legal(s, es) && a <= b <= |es| && forall i :: a <= i < b ==> QuietAt(s, es, i, r, at)
  }

  lemma {:induction false} WatchRun(s: State, es: seq<Event>, a: nat, b: nat, r: int, at: int, f: nat)
    requires AllQuiet(s, es, a, b, r, at) && Watched(After(s, es, a), r, at)
    requires forall i :: a <= i < b && es[i].EVisit? ==> es[i].now <= at
    ensures Watched(After(s, es, b), r, at)
    ensures Settling(After(s, es, a), f, r) ==> Settling(After(s, es, b), f, r)
    decreases b
  {
    if a < b {
      WatchRun(s, es, a, b - 1, r, at, f);
      NextAfter(s, es, b - 1);
      assert QuietAt(s, es, b - 1, r, at);
      WatchStep(After(s, es, b - 1), es[b - 1], r, at, f);
    }
  }

  lemma {:induction false} FallenRun(s: State, es: seq<Event>, a: nat, b: nat, r: int, at: int)
    requires AllQuiet(s, es, a, b, r, at) && Fallen(After(s, es, a), r, at)
    ensures Fallen(After(s, es, b), r, at)
    decreases b
  {
    if a < b {
      FallenRun(s, es, a, b - 1, r, at);
      NextAfter(s, es, b - 1);
      assert QuietAt(s, es, b - 1, r, at);
      FallenStep(After(s, es, b - 1), es[b - 1], r, at);
    }
  }

  lemma {:induction false} LeavingRun(s: State, es: seq<Event>, a: nat, b: nat, r: int, at: int, f: nat)
    requires AllQuiet(s, es, a, b, r, at) && Leaving(After(s, es, a), f, r)
    ensures Leaving(After(s, es, b), f, r)
    decreases b
  {
    if a < b {
      LeavingRun(s, es, a, b - 1, r, at, f);
      NextAfter(s, es, b - 1);
      assert QuietAt(s, es, b - 1, r, at);
      LeavingStep(After(s, es, b - 1), es[b - 1], f, r, at);
    }
  }

  // ----- Two visits -----

  lemma StartOfVisit(s: State, es: seq<Event>, a: nat, b: nat, r: int, now: int) returns (i: nat)
    requires Legal(s, es) && VisitStarts(es, a, b, r, now)
    ensures a <= i < b && i < |es| && es[i].EVisit? && es[i].roid == r && es[i].now == now
    ensures RefsOk(After(s, es, i)) && Enabled(After(s, es, i), es[i])
    ensures After(s, es, i + 1) == Step(After(s, es, i), es[i])
  {
    i :| a <= i < b && i < |es| && es[i].EVisit? && es[i].roid == r && es[i].now == now;
    NextAfter(s, es, i);
  }

  lemma WatchedVisit(s: State, e: Event, r: int, at: int)
    requires Watched(s, r, at) && Enabled(s, e) && e.EVisit? && e.roid == r && e.now <= at
    ensures Watched(Step(s, e), r, at) && Settling(Step(s, e), e.f, r)
  {
    WatchStep(s, e, r, at, e.f);
    VisitSettles(s, e, r);
  }

  lemma VisitsOver(s: State, f: nat, r: int, at: int)
    requires Watched(s, r, at) && Settling(s, f, r) && NoVisits(s)
    ensures Fallen(s, r, at)
  {
    assert forall g :: Checking(s, g, r) ==> Visiting(s.fibers[g]);
  }

  /** A tick that visits the role leaves it gone or disconnected. */
  lemma VisitDisconnects(s: State, es: seq<Event>, c: nat, a: nat, b: nat, r: int, at: int, now: int)
    requires AllQuiet(s, es, c, b, r, at) && Watched(After(s, es, c), r, at) && c <= a <= b && NoVisits(After(s, es, b))
    requires forall i :: c <= i < b && es[i].EVisit? ==> es[i].now <= at
    requires VisitStarts(es, a, b, r, now)
    ensures Fallen(After(s, es, b), r, at)
  {
    var i := StartOfVisit(s, es, a, b, r, now);
    WatchRun(s, es, c, i, r, at, 0);
    WatchedVisit(After(s, es, i), es[i], r, at);
    WatchRun(s, es, i + 1, b, r, at, es[i].f);
    VisitsOver(After(s, es, b), es[i].f, r, at);
  }

  lemma LimitAfter(s: State, es: seq<Event>, i: nat)
    requires Inv(s) && Legal(s, es) && i <= |es|
    ensures Inv(After(s, es, i)) && After(s, es, i).idleLimit == s.idleLimit
  {
    RunPrefix(s, es, i);
    RunKeepsInv(s, es[..i]);
  }

  /** A late enough tick that visits it after that leaves it gone. */
  lemma VisitLogsOut(s: State, es: seq<Event>, c: nat, a: nat, b: nat, r: int, at: int, now: int)
    requires AllQuiet(s, es, c, b, r, at) && Fallen(After(s, es, c), r, at) && c <= a <= b && NoVisits(After(s, es, b))
    requires VisitStarts(es, a, b, r, now) && now >= at + s.idleLimit && Inv(s)
    ensures Gone(After(s, es, b), r)
  {
    var i := StartOfVisit(s, es, a, b, r, now);
    FallenRun(s, es, c, i, r, at);
    LimitAfter(s, es, i);
    LateVisitLeaves(After(s, es, i), es[i], r, at);
    LeavingRun(s, es, i + 1, b, r, at, es[i].f);
    assert forall g :: g in After(s, es, b).fibers ==> !Visiting(After(s, es, b).fibers[g]);
  }

  // ----- Orphans -----

  /** From tick s on the run is quiet about role r, and a disconnection of it is not later than `at`. */
  ghost predicate Orphan(idleLimit: int, es: seq<Event>, begin: seq<nat>, ticks: nat, s: nat, r: int, at: int) {
    && s < ticks < |begin| && AllQuiet(Initial(idleLimit), es, begin[s], begin[ticks], r, at)
    && NotLater(After(Initial(idleLimit), es, begin[s]), r, at)
  }

  lemma {:induction false} EarlyVisits(idleLimit: int, es: seq<Event>, begin: seq<nat>, orders: seq<seq<int>>,
                                       times: seq<int>, period: int, s: nat, b: nat, at: int)
    requires SavesAsPlanned(idleLimit, es, begin, orders, times) && OnTime(times, period)
    requires s < b <= |orders| && times[b - 1] <= at
    ensures forall i :: begin[s] <= i < begin[b] && es[i].EVisit? ==> es[i].now <= at
    decreases b
  {
    var k := b - 1;
    assert PlannedTick(idleLimit, es, begin, orders, times, k);
    if s < k {
      assert NextOnTime(times, period, k - 1);
      EarlyVisits(idleLimit, es, begin, orders, times, period, s, k, at);
    }
  }

  lemma OrphanIsWatched(idleLimit: int, es: seq<Event>, begin: seq<nat>, orders: seq<seq<int>>, times: seq<int>, s: nat,
                        r: int, at: int)
    requires SavesAsPlanned(idleLimit, es, begin, orders, times)
    requires Orphan(idleLimit, es, begin, |orders|, s, r, at)
    ensures Watched(After(Initial(idleLimit), es, begin[s]), r, at)
  {
    LimitAfter(Initial(idleLimit), es, begin[s]);
    assert PlannedTick(idleLimit, es, begin, orders, times, s);
  }

  /** A visit in the first window disconnects an orphan. */
  lemma FirstWindow(idleLimit: int, es: seq<Event>, begin: seq<nat>, orders: seq<seq<int>>, times: seq<int>,
                    period: int, s: nat, v: nat, r: int, at: int)
    requires SavesAsPlanned(idleLimit, es, begin, orders, times) && OnTime(times, period)
    requires Orphan(idleLimit, es, begin, |orders|, s, r, at) && s <= v < |orders| && times[v] <= at
    requires Visits(orders, r)[v]
    ensures begin[v + 1] <= begin[|orders|] <= |es| && Fallen(After(Initial(idleLimit), es, begin[v + 1]), r, at)
  {
    assert begin[s] <= begin[v] <= begin[v + 1] <= begin[|orders|];
    assert PlannedTick(idleLimit, es, begin, orders, times, v);
    OrphanIsWatched(idleLimit, es, begin, orders, times, s, r, at);
    EarlyVisits(idleLimit, es, begin, orders, times, period, s, v + 1, at);
    assert r in Visited(Plans(orders), v);
    VisitDisconnects(Initial(idleLimit), es, begin[s], begin[v], begin[v + 1], r, at, times[v]);
  }

  /** A visit in the second window logs it out. */
  lemma SecondWindow(idleLimit: int, es: seq<Event>, begin: seq<nat>, orders: seq<seq<int>>, times: seq<int>, v: nat,
                     u: nat, r: int, at: int)
    requires SavesAsPlanned(idleLimit, es, begin, orders, times) && v < u < |orders|
    requires AllQuiet(Initial(idleLimit), es, begin[v + 1], begin[|orders|], r, at)
    requires Fallen(After(Initial(idleLimit), es, begin[v + 1]), r, at)
    requires Visits(orders, r)[u] && times[u] >= at + idleLimit
    ensures Gone(After(Initial(idleLimit), es, begin[|orders|]), r)
  {
    var start := Initial(idleLimit);
    assert begin[v + 1] <= begin[u] <= begin[u + 1] <= begin[|orders|];
    assert PlannedTick(idleLimit, es, begin, orders, times, u);
    assert r in Visited(Plans(orders), u);
    VisitLogsOut(start, es, begin[v + 1], begin[u], begin[u + 1], r, at, times[u]);
    GoneStays(start, es, begin[u + 1], begin[|orders|], r, at);
  }

  lemma {:induction false} GoneStays(s: State, es: seq<Event>, a: nat, b: nat, r: int, at: int)
    requires AllQuiet(s, es, a, b, r, at) && Gone(After(s, es, a), r)
    ensures Gone(After(s, es, b), r)
    decreases b
  {
    if a < b {
      GoneStays(s, es, a, b - 1, r, at);
      NextAfter(s, es, b - 1);
      assert QuietAt(s, es, b - 1, r, at);
      OnlyLoginHydrates(After(s, es, b - 1), es[b - 1], r);
    }
  }

  /** As long as it is hydrated, every window of ticks visits it. */
  lemma StillVisited(idleLimit: int, es: seq<Event>, begin: seq<nat>, orders: seq<seq<int>>, times: seq<int>, s: nat,
                     n: nat, r: int, at: int)
    requires SavesAsPlanned(idleLimit, es, begin, orders, times)
    requires Orphan(idleLimit, es, begin, |orders|, s, r, at)
    requires forall k :: 0 <= k < |orders| ==> |orders[k]| <= n
    requires !Gone(After(Initial(idleLimit), es, begin[|orders|]), r)
    ensures Dense(Visits(orders, r), s, Window(n))
  {
    forall k | s <= k < |orders| ensures r in orders[k] {
      assert begin[s] <= begin[k] <= begin[|orders|];
      if Gone(After(Initial(idleLimit), es, begin[k]), r) {
        GoneStays(Initial(idleLimit), es, begin[k], begin[|orders|], r, at);
      }
      RunPrefix(Initial(idleLimit), es, begin[k]);
      assert HydratedAt(idleLimit, es, begin[k], r) && PlannedTick(idleLimit, es, begin, orders, times, k);
    }
    TrackedIsDense(orders, s, n, r);
  }

  /** A visit in each of the two windows. */
  lemma TwoVisits(visits: seq<bool>, times: seq<int>, period: int, s: nat, w: nat, k: nat) returns (v: nat, u: nat)
    requires |times| == |visits| && OnTime(times, period) && Dense(visits, s, w)
    requires s + w <= k && k + w <= |visits| && w > 0
    ensures s <= v < u < |visits| && visits[v] && visits[u]
    ensures times[v] <= times[s + w - 1] && times[k] <= times[u]
  {
    assert VisitWithin(visits, s, w) && VisitWithin(visits, k, w);
    v :| s <= v < s + w && visits[v];
    u :| k <= u < k + w && visits[u];
    InOrder(times, period, v, s + w - 1);
    InOrder(times, period, k, u);
  }

  lemma ReapedByVisits(idleLimit: int, es: seq<Event>, begin: seq<nat>, orders: seq<seq<int>>, times: seq<int>,
                       period: int, s: nat, v: nat, u: nat, r: int, at: int)
    requires SavesAsPlanned(idleLimit, es, begin, orders, times) && OnTime(times, period)
    requires Orphan(idleLimit, es, begin, |orders|, s, r, at) && s <= v < u < |orders|
    requires Visits(orders, r)[v] && Visits(orders, r)[u] && times[v] <= at && at + idleLimit <= times[u]
    ensures Gone(After(Initial(idleLimit), es, begin[|orders|]), r)
  {
    FirstWindow(idleLimit, es, begin, orders, times, period, s, v, r, at);
    assert begin[s] <= begin[v + 1];
    SecondWindow(idleLimit, es, begin, orders, times, v, u, r, at);
  }

  lemma ReapedIfVisited(idleLimit: int, es: seq<Event>, begin: seq<nat>, orders: seq<seq<int>>, times: seq<int>,
                        period: int, s: nat, w: nat, k: nat, r: int, at: int)
    requires SavesAsPlanned(idleLimit, es, begin, orders, times) && OnTime(times, period)
    requires Dense(Visits(orders, r), s, w) && w > 0 && s + w <= k && k + w <= |orders|
    requires at == times[s + w - 1] && times[k] >= at + idleLimit && Orphan(idleLimit, es, begin, |orders|, s, r, at)
    ensures Gone(After(Initial(idleLimit), es, begin[|orders|]), r)
  {
    var v, u := TwoVisits(Visits(orders, r), times, period, s, w, k);
    ReapedByVisits(idleLimit, es, begin, orders, times, period, s, v, u, r, at);
  }

  /** Orphan reaping, in any run of the logic server with on-time ticks and at most n roles: if from tick s on every
      check of the role is denied, nobody logs it in or reconnects it, and a request disconnects it within the first
      window at most, it is out of the table by the end of any run in which a window of ticks passes, then `idleLimit`,
      and then another window. The window is 39 ticks for at most 5100 roles. */
  lemma OrphanIsReaped(idleLimit: int, es: seq<Event>, begin: seq<nat>, orders: seq<seq<int>>, times: seq<int>,
                       period: int, s: nat, n: nat, k: nat, r: int)
    requires SavesAsPlanned(idleLimit, es, begin, orders, times) && OnTime(times, period)
    requires forall i :: 0 <= i < |orders| ==> |orders[i]| <= n
    requires s + Window(n) <= k && k + Window(n) <= |orders|
    requires var at := times[s + Window(n) - 1];
      times[k] >= at + idleLimit && Orphan(idleLimit, es, begin, |orders|, s, r, at)
    ensures Gone(After(Initial(idleLimit), es, begin[|orders|]), r)
  {
    if !Gone(After(Initial(idleLimit), es, begin[|orders|]), r) {
      var at := times[s + Window(n) - 1];
      StillVisited(idleLimit, es, begin, orders, times, s, n, r, at);
      ReapedIfVisited(idleLimit, es, begin, orders, times, period, s, Window(n), k, r, at);
    }
  }

  // ----- The agent -----

  /** The agent's connection records, and the sessions whose weak references are good. */
  datatype Moment = Moment(connections: map<string, AgentService.Connection>, sessions: set<nat>)

  function RecordOf(m: Moment, u: string): Option<AgentService.Connection> {
    if u in m.connections then Some(m.connections[u]) else None
  }

  /** The answer to `*user/check_role`. */
  predicate Confirms(m: Moment, u: string, roid: int, srv: nat) {
    AgentService.CheckStatus(u, RecordOf(m, u), m.sessions, roid, srv) == AgentService.GsOk
  }

  /** The connection has been closed, or dropped by the ping timer, or its session has died unnoticed. */
  predicate Lost(m: Moment, u: string) {
    u !in m.connections || m.connections[u].session !in m.sessions
  }

  /** Whatever the agent does in between, the user has not connected again; a dead session stays dead. */
  predicate NotReconnected(m: Moment, next: Moment, u: string) {
    && (u in next.connections ==> u in m.connections && next.connections[u].session == m.connections[u].session)
    && (u in m.connections && m.connections[u].session !in m.sessions ==>
          m.connections[u].session !in next.sessions)
  }

  ghost predicate Away(moments: seq<Moment>, a: nat, u: string) {
    && a < |moments| && Lost(moments[a], u)
    && forall i :: a <= i < |moments| - 1 ==> NotReconnected(moments[i], moments[i + 1], u)
  }

  lemma {:induction false} StaysLost(moments: seq<Moment>, a: nat, u: string, k: nat, roid: int, srv: nat)
    requires Away(moments, a, u) && a <= k < |moments|
    ensures Lost(moments[k], u) && !Confirms(moments[k], u, roid, srv)
    decreases k
  {
    if k > a {
      StaysLost(moments, a, u, k - 1, roid, srv);
      assert NotReconnected(moments[k - 1], moments[k - 1 + 1], u);
    }
  }

  /** `moments[m]` is the state of the agent after the first m events of the logic server. Whenever it confirms the
      role in event i, it has done so at some moment since event a. */
  ghost predicate AnsweredAt(es: seq<Event>, s: State, moments: seq<Moment>, a: nat, i: nat, u: string, r: int,
                             srv: nat) {
    Legal(s, es) && i < |es| < |moments| && Enabled(After(s, es, i), es[i]) &&
    (Confirmed(After(s, es, i), es[i], r) ==> exists m :: a <= m <= i && Confirms(moments[m], u, r, srv))
  }

  /** From tick s on, all checks are answered by the agent, and no other request brings the role back. */
  ghost predicate Abandoned(idleLimit: int, es: seq<Event>, begin: seq<nat>, ticks: nat, moments: seq<Moment>,
                            u: string, srv: nat, s: nat, r: int, at: int) {
    && s < ticks < |begin| && Legal(Initial(idleLimit), es) && begin[s] <= begin[ticks] <= |es| < |moments|
    && Away(moments, begin[s], u)
    && (forall i :: begin[s] <= i < begin[ticks] ==>
          Untouched(es[i], r, at) && AnsweredAt(es, Initial(idleLimit), moments, begin[s], i, u, r, srv))
    && NotLater(After(Initial(idleLimit), es, begin[s]), r, at)
  }

  /** If the agent has lost a user's connection by tick s, in whatever way, and the user does not connect again, every
      check of his role is denied, and so the role is reaped. */
  lemma LostConnectionIsReaped(idleLimit: int, es: seq<Event>, begin: seq<nat>, orders: seq<seq<int>>, times: seq<int>,
                               moments: seq<Moment>, u: string, srv: nat, period: int, s: nat, n: nat, k: nat, r: int)
    requires SavesAsPlanned(idleLimit, es, begin, orders, times) && OnTime(times, period)
    requires forall i :: 0 <= i < |orders| ==> |orders[i]| <= n
    requires s + Window(n) <= k && k + Window(n) <= |orders|
    requires var at := times[s + Window(n) - 1];
      times[k] >= at + idleLimit && Abandoned(idleLimit, es, begin, |orders|, moments, u, srv, s, r, at)
    ensures Gone(After(Initial(idleLimit), es, begin[|orders|]), r)
  {
    var at := times[s + Window(n) - 1];
    forall i | begin[s] <= i < begin[|orders|] ensures QuietAt(Initial(idleLimit), es, i, r, at) {
      assert AnsweredAt(es, Initial(idleLimit), moments, begin[s], i, u, r, srv);
      forall m | begin[s] <= m <= i ensures !Confirms(moments[m], u, r, srv) {
        StaysLost(moments, begin[s], u, m, r, srv);
      }
    }
    OrphanIsReaped(idleLimit, es, begin, orders, times, period, s, n, k, r);
  }
}
