/** What the save plan guarantees in time: keys of tracked roles never expire, dirty data reaches MySQL
    before it could, and orphaned roles are logged out. Times are in milliseconds. */
module SaveTiming {
  import opened Options
  import opened SavePlan
  import opened LogicRoles
  import opened SaveTicks

  const LOGIC_PERIOD: int := 3001
  const MONITOR_PERIOD: int := 11001
  const MIN_TTL: int := 600000

  // ----- Ticks in time -----

  /** `times[k]` is when tick k runs; consecutive ticks are at most `period` apart. */
  ghost predicate OnTime(times: seq<int>, period: int) {
    period >= 0 && forall k :: 0 <= k < |times| - 1 ==> NextOnTime(times, period, k)
  }

  predicate NextOnTime(times: seq<int>, period: int, k: nat)
    requires k + 1 < |times|
  {
    times[k] <= times[k + 1] <= times[k] + period
  }

  lemma {:induction false} Elapsed(times: seq<int>, period: int, a: nat, b: nat, w: nat)
    requires OnTime(times, period) && a <= b < |times| && b - a <= w
    ensures times[a] <= times[b] <= times[a] + w * period
    decreases b
  {
    if a < b {
      Elapsed(times, period, a, b - 1, w - 1);
      assert NextOnTime(times, period, b - 1);
      assert (w - 1) * period + period == w * period;
    } else {
      assert w * period >= 0;
    }
  }

  lemma InOrder(times: seq<int>, period: int, a: nat, b: nat)
    requires OnTime(times, period) && a <= b < |times|
    ensures times[a] <= times[b]
  {
    Elapsed(times, period, a, b, b - a);
  }

  ghost predicate VisitWithin(visits: seq<bool>, a: nat, w: nat) {
    exists k :: a <= k < a + w && k < |visits| && visits[k]
  }

  /** From tick s on, any w consecutive ticks contain a visit. */
  ghost predicate Dense(visits: seq<bool>, s: nat, w: nat) {
    forall a :: s <= a && a + w <= |visits| ==> VisitWithin(visits, a, w)
  }

  /** The window within which n tracked roles are all visited. */
  function Window(n: nat): (w: nat)
    ensures n <= FULL_LOAD ==> w == 39
    ensures w > 0
  {
    2 * PlanSize(n) - 1
  }

  /** The ticks at which a run of the scheduler visits role r. */
  function Visits(orders: seq<seq<int>>, r: int): (visits: seq<bool>)
    ensures |visits| == |orders|
  {
    seq(|orders|, k requires 0 <= k < |orders| => r in Visited(Plans(orders), k))
  }

  ghost predicate Tracked(orders: seq<seq<int>>, s: nat, n: nat, r: int) {
    && (forall k :: s <= k < |orders| ==> r in orders[k])
    && (forall k :: 0 <= k < |orders| ==> |orders[k]| <= n)
  }

  lemma TrackedIsDense(orders: seq<seq<int>>, s: nat, n: nat, r: int)
    requires Tracked(orders, s, n, r)
    ensures Dense(Visits(orders, r), s, Window(n))
  {
    forall a | s <= a && a + Window(n) <= |orders|
      ensures VisitWithin(Visits(orders, r), a, Window(n))
    {
      VisitedInWindow(orders, a, n, r);
      var k :| a <= k < a + Window(n) && r in Visited(Plans(orders), k);
      assert Visits(orders, r)[k];
    }
  }

  // ----- The key of an online role -----

  /** When the key was last refreshed before tick k: at the login before tick s, or by a visit's SET. */
  function LastRefresh(visits: seq<bool>, times: seq<int>, s: nat, login: int, k: nat): int
    requires s <= k <= |visits| == |times|
  {
    if k == s then login
    else if visits[k - 1] then times[k - 1]
    else LastRefresh(visits, times, s, login, k - 1)
  }

  lemma {:induction false} RefreshIsRecent(visits: seq<bool>, times: seq<int>, s: nat, login: int, k: nat)
    returns (v: int)
    requires s <= k <= |visits| == |times|
    ensures s - 1 <= v < k && (v >= s ==> visits[v])
    ensures LastRefresh(visits, times, s, login, k) == if v == s - 1 then login else times[v]
    ensures forall i :: v < i < k ==> !visits[i]
  {
    v := k - 1;
    if k != s && !visits[k - 1] {
      v := RefreshIsRecent(visits, times, s, login, k - 1);
    }
  }

  lemma RefreshedInTime(visits: seq<bool>, times: seq<int>, period: int, s: nat, login: int, w: nat, k: nat)
    requires |visits| == |times| && s <= k < |visits| && Dense(visits, s, w) && w > 0
    requires OnTime(times, period) && login <= times[s] <= login + period
    ensures times[k] - LastRefresh(visits, times, s, login, k) <= w * period
  {
    var v := RefreshIsRecent(visits, times, s, login, k);
    assert k - v > w ==> VisitWithin(visits, v + 1, w);
    if v == s - 1 {
      Elapsed(times, period, s, k, w - 1);
      assert (w - 1) * period + period == w * period;
    } else {
      Elapsed(times, period, v, k, w);
    }
  }

  /** Ticks of a logic server with at most n roles; role r logs in before tick s and is tracked from then on. */
  ghost predicate LogicTicks(orders: seq<seq<int>>, times: seq<int>, n: nat, s: nat, login: int, r: int) {
    && s < |orders| == |times| && Tracked(orders, s, n, r)
    && OnTime(times, LOGIC_PERIOD) && login <= times[s] <= login + LOGIC_PERIOD
  }

  /** Whenever a tick runs, the key was refreshed less than the smallest configurable TTL ago. */
  ghost predicate KeysLast(n: nat) {
    forall orders, times, s: nat, login, r, k: nat :: LogicTicks(orders, times, n, s, login, r) && s <= k < |orders| ==>
      times[k] < LastRefresh(Visits(orders, r), times, s, login, k) + MIN_TTL
  }

  // ----- Dirty data -----

  /** Ticks of a monitor with at most n roles; role r is stored in Redis before tick s and tracked from then on. */
  ghost predicate MonitorTicks(orders: seq<seq<int>>, times: seq<int>, n: nat, s: nat, stored: int, r: int) {
    && s + Window(n) <= |orders| == |times| && Tracked(orders, s, n, r)
    && OnTime(times, MONITOR_PERIOD) && stored <= times[s] <= stored + MONITOR_PERIOD
  }

  ghost predicate VisitBefore(visits: seq<bool>, times: seq<int>, s: nat, end: int)
    requires |visits| == |times|
  {
    exists k :: s <= k < |visits| && visits[k] && times[k] < end
  }

  /** A snapshot is visited before its key could expire, even if nobody refreshes it. */
  ghost predicate DataIsVisited(n: nat) {
    forall orders, times, s: nat, stored, r :: MonitorTicks(orders, times, n, s, stored, r) ==>
      VisitBefore(Visits(orders, r), times, s, stored + MIN_TTL)
  }

  lemma WindowFitsMinTtl(n: nat)
    ensures Window(n) * LOGIC_PERIOD < MIN_TTL <==> n <= 5180
    ensures Window(n) * MONITOR_PERIOD < MIN_TTL <==> n <= 5107
  {
  }

  // ----- The limits are exact -----

  /** More than 5100 roles, of which the last one comes last in one plan and first in the next. */
  function LastOrder(n: nat): (order: seq<int>)
    ensures |order| == n && forall i :: 0 <= i < n ==> order[i] == i
  {
    seq(n, i => i)
  }

  function FirstOrder(n: nat): (order: seq<int>)
    ensures |order| == n && forall i :: 0 <= i < n ==> order[i] == if i == 0 then n - 1 else i - 1
  {
    seq(n, i => if i == 0 then n - 1 else i - 1)
  }

  function Regular(period: int, ticks: nat): (times: seq<int>)
    ensures |times| == ticks && forall k :: 0 <= k < ticks ==> times[k] == k * period
  {
    seq(ticks, k => k * period)
  }

  lemma RegularIsOnTime(period: int, ticks: nat)
    requires period >= 0
    ensures OnTime(Regular(period, ticks), period)
  {
    var times := Regular(period, ticks);
    forall k | 0 <= k < ticks - 1
      ensures NextOnTime(times, period, k)
    {
      assert times[k + 1] == (k + 1) * period == k * period + period;
    }
  }

  /** In that run the role is visited by its first and last tick, a window apart, and by no other. */
  lemma RareVisits(n: nat)
    requires n > FULL_LOAD
    ensures var orders := TwoPlans(LastOrder(n), FirstOrder(n));
      && |orders| == Window(n) + 1 && Tracked(orders, 0, n, n - 1)
      && var visits := Visits(orders, n - 1);
      forall k :: 0 <= k < |visits| ==> (visits[k] <==> k == 0 || k == Window(n))
  {
    var last, first := LastOrder(n), FirstOrder(n);
    var orders := TwoPlans(last, first);
    var visits := Visits(orders, n - 1);
    SlotOfPosition(last, n - 1);
    SlotOfPosition(first, 0);
    forall k | 0 <= k < |visits|
      ensures visits[k] <==> k == 0 || k == Window(n)
    {
      WindowIsTight(last, first, n - 1, k);
    }
  }

  lemma {:induction false} NoRefreshMeanwhile(visits: seq<bool>, times: seq<int>, login: int, k: nat)
    requires 1 <= k <= |visits| == |times| && visits[0] && forall i :: 1 <= i < k ==> !visits[i]
    ensures LastRefresh(visits, times, 0, login, k) == times[0]
    decreases k
  {
    if k > 1 {
      NoRefreshMeanwhile(visits, times, login, k - 1);
    }
  }

  lemma LongGap(n: nat, period: int)
    requires n > FULL_LOAD && period >= 0
    ensures var orders, times := TwoPlans(LastOrder(n), FirstOrder(n)), Regular(period, Window(n) + 1);
      && |orders| == |times| && OnTime(times, period) && times[0] == 0 && times[1] == period
      && times[Window(n)] == LastRefresh(Visits(orders, n - 1), times, 0, 0, Window(n)) + Window(n) * period
  {
    RareVisits(n);
    RegularIsOnTime(period, Window(n) + 1);
    var orders, times := TwoPlans(LastOrder(n), FirstOrder(n)), Regular(period, Window(n) + 1);
    NoRefreshMeanwhile(Visits(orders, n - 1), times, 0, Window(n));
  }

  lemma KeyIsRefreshed(orders: seq<seq<int>>, times: seq<int>, n: nat, s: nat, login: int, r: int, k: nat)
    requires n <= 5180 && LogicTicks(orders, times, n, s, login, r) && s <= k < |orders|
    ensures times[k] < LastRefresh(Visits(orders, r), times, s, login, k) + MIN_TTL
  {
    WindowFitsMinTtl(n);
    TrackedIsDense(orders, s, n, r);
    RefreshedInTime(Visits(orders, r), times, LOGIC_PERIOD, s, login, Window(n), k);
  }

  /** With on-time ticks a logic server keeps every online role's key alive exactly if it has at most 5180 roles. */
  lemma KeysLastIff(n: nat)
    ensures KeysLast(n) <==> n <= 5180
  {
    WindowFitsMinTtl(n);
    if n <= 5180 {
      forall orders, times, s: nat, login, r, k: nat | LogicTicks(orders, times, n, s, login, r) && s <= k < |orders|
        ensures times[k] < LastRefresh(Visits(orders, r), times, s, login, k) + MIN_TTL
      {
        KeyIsRefreshed(orders, times, n, s, login, r, k);
      }
    } else {
      var orders, times := TwoPlans(LastOrder(n), FirstOrder(n)), Regular(LOGIC_PERIOD, Window(n) + 1);
      RareVisits(n);
      LongGap(n, LOGIC_PERIOD);
      assert LogicTicks(orders, times, n, 0, 0, n - 1);
    }
  }

  /** With on-time ticks a monitor visits every snapshot before its key could expire exactly if it tracks at most 5107
      roles. */
  lemma DataIsVisitedIff(n: nat)
    ensures DataIsVisited(n) <==> n <= 5107
  {
    WindowFitsMinTtl(n);
    if n <= 5107 {
      forall orders, times, s: nat, stored, r | MonitorTicks(orders, times, n, s, stored, r)
        ensures VisitBefore(Visits(orders, r), times, s, stored + MIN_TTL)
      {
        var k := VisitInWindow(orders, times, n, s, stored, r);
      }
    } else {
      var orders, times := TwoPlans(LastOrder(n), FirstOrder(n)), Regular(MONITOR_PERIOD, Window(n) + 1);
      RareVisits(n);
      LongGap(n, MONITOR_PERIOD);
      assert MonitorTicks(orders, times, n, 1, 0, n - 1);
    }
  }

  lemma VisitInWindow(orders: seq<seq<int>>, times: seq<int>, n: nat, s: nat, stored: int, r: int) returns (k: nat)
    requires s + Window(n) <= |orders| == |times| && OnTime(times, MONITOR_PERIOD)
    requires forall i :: s <= i < s + Window(n) ==> r in orders[i]
    requires forall i :: 0 <= i < |orders| ==> |orders[i]| <= n
    requires stored <= times[s] <= stored + MONITOR_PERIOD
    ensures s <= k < s + Window(n) && Visits(orders, r)[k]
    ensures stored <= times[k] <= stored + Window(n) * MONITOR_PERIOD
  {
    VisitedInWindow(orders, s, n, r);
    k :| s <= k < s + Window(n) && r in Visited(Plans(orders), k);
    SoonAfter(times, n, s, stored, k);
  }

  /** Each tick of the window after s comes in time. */
  lemma SoonAfter(times: seq<int>, n: nat, s: nat, stored: int, k: nat)
    requires OnTime(times, MONITOR_PERIOD) && s <= k < s + Window(n) && k < |times|
    requires stored <= times[s] <= stored + MONITOR_PERIOD
    ensures stored <= times[k] <= stored + Window(n) * MONITOR_PERIOD
  {
    Elapsed(times, MONITOR_PERIOD, s, k, Window(n) - 1);
    assert (Window(n) - 1) * MONITOR_PERIOD + MONITOR_PERIOD == Window(n) * MONITOR_PERIOD;
  }

  // ----- The ticks of a run -----

  /** Tick k of a run takes place between its first `begin[k]` and its first `begin[k + 1]` events. */
  ghost predicate Divided(begin: seq<nat>, ticks: nat, events: nat) {
    |begin| == ticks + 1 && (forall i, j :: 0 <= i <= j <= ticks ==> begin[i] <= begin[j]) && begin[ticks] <= events
  }

  /** Tick k begins at `times[k]`; it enumerates the roles that are hydrated then, and visits those of its bucket. */
  ghost predicate SavesAsPlanned(idleLimit: int, es: seq<Event>, begin: seq<nat>, orders: seq<seq<int>>,
                                 times: seq<int>) {
    && Legal(Initial(idleLimit), es) && Divided(begin, |orders|, |es|) && |times| == |orders|
    && forall k :: 0 <= k < |orders| ==> PlannedTick(idleLimit, es, begin, orders, times, k)
  }

  ghost predicate PlannedTick(idleLimit: int, es: seq<Event>, begin: seq<nat>, orders: seq<seq<int>>, times: seq<int>,
                              k: nat)
    requires k < |orders| == |times| == |begin| - 1
  {
    && TickRuns(Initial(idleLimit), es, begin[k], begin[k + 1], Visited(Plans(orders), k), times[k])
    && forall r :: HydratedAt(idleLimit, es, begin[k], r) ==> r in orders[k]
  }

  ghost predicate HydratedAt(idleLimit: int, es: seq<Event>, m: nat, r: int) {
    m <= |es| && Legal(Initial(idleLimit), es[..m]) && r in Run(Initial(idleLimit), es[..m]).hydRoles
  }

  /** `clock[i]` is when event i happens; the first tick runs within a period of the start. */
  ghost predicate Clocked(clock: seq<int>, begin: seq<nat>, times: seq<int>, period: int) {
    && |begin| == |times| + 1
    && (forall i, k :: 0 <= k < |times| && 0 <= i < |clock| ==>
         if i < begin[k] then clock[i] <= times[k] else times[k] <= clock[i])
    && (forall i :: 0 <= i < |clock| && times != [] ==> times[0] <= clock[i] + period)
  }

  /** Tick s is the next one after event i. */
  ghost predicate NextTick(clock: seq<int>, begin: seq<nat>, s: nat, i: nat) {
    i < |clock| && s < |begin| && i < begin[s] && (s > 0 ==> begin[s - 1] <= i)
  }

  lemma NextTickIsNear(clock: seq<int>, begin: seq<nat>, times: seq<int>, period: int, s: nat, i: nat)
    requires Clocked(clock, begin, times, period) && OnTime(times, period)
    requires NextTick(clock, begin, s, i) && s < |times|
    ensures clock[i] <= times[s] <= clock[i] + period
  {
    if s > 0 {
      assert NextOnTime(times, period, s - 1);
    }
  }

  /** Event g starts a login of role r, and event l its end, as GETEX has found the key; no tick begins in between, and
      `login` is when the GETEX took effect. */
  ghost predicate LogsIn(es: seq<Event>, clock: seq<int>, begin: seq<nat>, s: nat, g: nat, l: nat, login: int, r: int) {
    && g < l < |es| == |clock| && NextTick(clock, begin, s, g) && NextTick(clock, begin, s, l)
    && es[g].ELogin? && es[g].roid == r && es[l].ELoaded? && es[l].f == es[g].f && es[l].found == Some(r)
    && clock[g] <= login <= clock[l]
  }

  /** With on-time ticks and at most 5180 roles, an online role's key never expires: when the last tick of a run begins,
      the key has been refreshed less than the smallest configurable TTL ago, by the GETEX of its login or by a SET
      that an earlier tick has issued and seen answered. */
  lemma OnlineKeyNeverExpires(idleLimit: int, es: seq<Event>, clock: seq<int>, begin: seq<nat>, orders: seq<seq<int>>,
                              times: seq<int>, ttl: int, n: nat, s: nat, g: nat, l: nat, login: int, r: int)
    returns (refreshed: int)
    requires SavesAsPlanned(idleLimit, es, begin, orders, times) && Clocked(clock, begin, times, LOGIC_PERIOD)
    requires LogsIn(es, clock, begin, s, g, l, login, r) && s < |orders|
    requires forall m :: l < m <= begin[|orders| - 1] ==> HydratedAt(idleLimit, es, m, r)
    requires n <= 5180 && forall k :: 0 <= k < |orders| ==> |orders[k]| <= n
    requires OnTime(times, LOGIC_PERIOD) && ttl >= MIN_TTL
    ensures times[|orders| - 1] < refreshed + ttl
    ensures refreshed == login ||
      exists v: nat :: s <= v < |orders| - 1 && refreshed == times[v]
                       && StoredBetween(Initial(idleLimit), es, begin[v], begin[v + 1], r)
  {
    NextTickIsNear(clock, begin, times, LOGIC_PERIOD, s, g);
    NextTickIsNear(clock, begin, times, LOGIC_PERIOD, s, l);
    var v := LatestRefresh(idleLimit, es, begin, orders, times, n, s, login, r);
    if v < s {
      refreshed := login;
    } else {
      refreshed := times[v];
      VisitStores(idleLimit, es, begin, orders, times, s, v, r);
    }
  }

  /** The last visit before the last tick, if there has been one, or else the login. */
  lemma LatestRefresh(idleLimit: int, es: seq<Event>, begin: seq<nat>, orders: seq<seq<int>>, times: seq<int>, n: nat,
                      s: nat, login: int, r: int) returns (v: int)
    requires SavesAsPlanned(idleLimit, es, begin, orders, times) && s < |orders|
    requires forall m :: begin[s] <= m <= begin[|orders| - 1] ==> HydratedAt(idleLimit, es, m, r)
    requires n <= 5180 && forall k :: 0 <= k < |orders| ==> |orders[k]| <= n
    requires OnTime(times, LOGIC_PERIOD) && login <= times[s] <= login + LOGIC_PERIOD
    ensures s - 1 <= v < |orders| - 1 && (v >= s ==> Visits(orders, r)[v])
    ensures times[|orders| - 1] < (if v < s then login else times[v]) + MIN_TTL
  {
    HydratedIsTracked(idleLimit, es, begin, orders, times, n, s, r);
    v := LatestVisit(orders, times, n, s, login, r, |orders| - 1);
  }

  /** A visit of a role that stays hydrated stores it. */
  lemma VisitStores(idleLimit: int, es: seq<Event>, begin: seq<nat>, orders: seq<seq<int>>, times: seq<int>, s: nat,
                    v: nat, r: int)
    requires SavesAsPlanned(idleLimit, es, begin, orders, times) && s <= v < |orders| - 1 && Visits(orders, r)[v]
    requires forall m :: begin[s] <= m <= begin[|orders| - 1] ==> HydratedAt(idleLimit, es, m, r)
    ensures StoredBetween(Initial(idleLimit), es, begin[v], begin[v + 1], r)
  {
    SavedAtVisit(idleLimit, es, begin, orders, times, v, r);
    assert begin[s] <= begin[v] <= begin[v + 1] <= begin[|orders| - 1];
    NotGone(idleLimit, es, begin[v], begin[v + 1], r);
  }

  lemma LatestVisit(orders: seq<seq<int>>, times: seq<int>, n: nat, s: nat, login: int, r: int, k: nat)
    returns (v: int)
    requires n <= 5180 && LogicTicks(orders, times, n, s, login, r) && s <= k < |orders|
    ensures s - 1 <= v < k && (v >= s ==> Visits(orders, r)[v])
    ensures times[k] < (if v < s then login else times[v]) + MIN_TTL
  {
    KeyIsRefreshed(orders, times, n, s, login, r, k);
    v := RefreshIsRecent(Visits(orders, r), times, s, login, k);
  }

  lemma NotGone(idleLimit: int, es: seq<Event>, a: nat, b: nat, r: int)
    requires forall m :: a <= m <= b ==> HydratedAt(idleLimit, es, m, r)
    ensures !GoneBetween(Initial(idleLimit), es, a, b, r)
  {
    forall m | a <= m <= b ensures !GoneAt(Initial(idleLimit), es, m, r) {
      assert HydratedAt(idleLimit, es, m, r);
    }
  }

  lemma HydratedIsTracked(idleLimit: int, es: seq<Event>, begin: seq<nat>, orders: seq<seq<int>>,
                          times: seq<int>, n: nat, s: nat, r: int)
    requires SavesAsPlanned(idleLimit, es, begin, orders, times) && s < |orders|
    requires forall m :: begin[s] <= m <= begin[|orders| - 1] ==> HydratedAt(idleLimit, es, m, r)
    requires forall k :: 0 <= k < |orders| ==> |orders[k]| <= n
    ensures Tracked(orders, s, n, r)
  {
    forall i | s <= i < |orders| ensures r in orders[i] {
      assert begin[s] <= begin[i] <= begin[|orders| - 1];
      assert HydratedAt(idleLimit, es, begin[i], r) && PlannedTick(idleLimit, es, begin, orders, times, i);
    }
  }

  lemma SavedAtVisit(idleLimit: int, es: seq<Event>, begin: seq<nat>, orders: seq<seq<int>>, times: seq<int>, v: nat,
                     r: int)
    requires SavesAsPlanned(idleLimit, es, begin, orders, times) && v < |orders| && Visits(orders, r)[v]
    ensures SavedOrGone(Initial(idleLimit), es, begin[v], begin[v + 1], r)
  {
    assert PlannedTick(idleLimit, es, begin, orders, times, v);
    assert r in Visited(Plans(orders), v);
  }

  // ----- The time it takes to reap an orphan -----

  /** In time: if tick k is the first one that late, less than 2 * Window(n) - 1 periods plus `idleLimit` lie
      between tick s and the last tick needed; tick s itself runs within one period of the loss. */
  lemma ReapingTime(times: seq<int>, period: int, s: nat, idleLimit: int, n: nat, k: nat)
    requires OnTime(times, period) && idleLimit >= 1 && s + Window(n) <= k && k + Window(n) <= |times|
    requires times[k - 1] < times[s + Window(n) - 1] + idleLimit
    ensures times[k + Window(n) - 1] - times[s] < (2 * Window(n) - 1) * period + idleLimit
  {
    var w := Window(n);
    Elapsed(times, period, s, s + w - 1, w - 1);
    Elapsed(times, period, k - 1, k + w - 1, w);
    assert (w - 1) * period + w * period == (2 * w - 1) * period;
  }
}
