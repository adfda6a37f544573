/** Dirty data reaches MySQL before its key could expire: the monitor's save ticks in a run of the two-tier store. */
module DirtyData {
  import opened RoleStore
  import opened DurableHistory
  import opened PersistedRows
  import opened TrackedKeys
  import opened SavePlan
  import opened SaveTiming

  /** Each tick enumerates the roles that are tracked when it begins, visits those of its bucket, and is over when the
      next one begins. */
  ghost predicate VisitsAsPlanned(s: Store, es: seq<Event>, begin: seq<nat>, orders: seq<seq<int>>) {
    && Legal(s, es) && Divided(begin, |orders|, |es|)
    && (forall k, r :: 0 <= k < |orders| && r in Visited(Plans(orders), k) ==>
         Saved(s, es, begin[k], begin[k + 1], r))
    && (forall k, r :: 0 <= k < |orders| && r in After(s, es, begin[k]).tracked ==> r in orders[k])
  }

  lemma SetIsLast(u: Traced, r: int, text: Text)
    requires TraceInv(u) && Enabled(u.store, LogicSet(r, text))
    ensures var values := HistoryOf(TracedStep(u, LogicSet(r, text)), r);
      values != [] && values[|values| - 1] == text.record.row
  {
    StepWrites(u, LogicSet(r, text), r);
  }

  lemma LastSetIsLatest(t: Traced, past: seq<Event>, es: seq<Event>, r: int, text: Text)
    requires TraceInv(t) && es == past + [LogicSet(r, text)] && Disciplined(t.store, es) && Legal(t.store, es)
    ensures var values := Values(t, es, r); values != [] && values[|values| - 1] == text.record.row
  {
    LastStep(t, past, LogicSet(r, text));
    SetIsLast(TracedRun(t, past), r, text);
    HistoryIsWrites(t, es, r);
  }

  /** After event d, which stores it, a snapshot is the latest of the role's values. */
  lemma StoredIsLatest(t: Traced, es: seq<Event>, d: nat, r: int, text: Text)
    requires TraceInv(t) && Disciplined(t.store, es) && d < |es| && es[d] == LogicSet(r, text)
    ensures Legal(t.store, es[..d + 1])
    ensures var values := Values(t, es[..d + 1], r); values != [] && values[|values| - 1] == text.record.row
  {
    DisciplinedPrefix(t.store, es, d + 1);
    assert es[..d + 1] == es[..d] + [es[d]];
    LastSetIsLatest(t, es[..d], es[..d + 1], r, text);
  }

  /** At moment j, after event d, MySQL's row is number p of the role's values, and that is the last one that the role
      had had after event d, or a later one. */
  ghost predicate Reached(t: Traced, es: seq<Event>, d: nat, j: nat, r: int, p: nat) {
    && d < j <= |es| && HeldAfter(t, es, j, r, p) && r in Run(t.store, es[..j]).mysql
    && Legal(t.store, es[..d + 1]) && CountAt(t, es, d + 1, r) <= p + 1
  }

  /** With on-time ticks and at most 5107 tracked roles: when a logic server stores a snapshot of a role that the
      monitor lists, then by the end of some tick that begins while the key is still alive, even if nobody refreshes
      it, MySQL's row is that snapshot or a later value. Whether the role stays listed makes no difference. */
  lemma DirtyDataReachesMysql(here: Home, es: seq<Event>, clock: seq<int>, begin: seq<nat>, orders: seq<seq<int>>,
                              times: seq<int>, ttl: int, n: nat, s: nat, d: nat, r: int, text: Text)
    returns (k: nat, j: nat, p: nat)
    requires Disciplined(Initial(here), es) && VisitsAsPlanned(Initial(here), es, begin, orders)
    requires |clock| == |es| && Clocked(clock, begin, times, MONITOR_PERIOD) && OnTime(times, MONITOR_PERIOD)
    requires s + Window(n) <= |orders| && n <= 5107 && forall i :: 0 <= i < |orders| ==> |orders[i]| <= n
    requires NextTick(clock, begin, s, d) && es[d] == LogicSet(r, text) && r in After(Initial(here), es, d).tracked
    requires ttl >= MIN_TTL
    ensures Legal(Initial(here), es[..d + 1]) && LatestValue(here, es[..d + 1], r, text.record.row)
    ensures s <= k < s + Window(n) && clock[d] <= times[k] < clock[d] + ttl
    ensures j <= begin[k + 1] && Reached(Blank(here), es, d, j, r, p)
  {
    var t := Blank(here);
    StoredIsLatest(t, es, d, r, text);
    NextTickIsNear(clock, begin, times, MONITOR_PERIOD, s, d);
    if i: nat :| s <= i < s + Window(n) && r !in After(t.store, es, begin[i]).tracked {
      k := i;
      assert begin[s] <= begin[i] <= begin[i + 1];
      j, p := UnloadedIsWritten(t, es, d, begin[i], r);
    } else {
      k, j, p := VisitedIsWritten(t, es, begin, orders, times, n, s, d, clock[d], r);
    }
    WindowFitsMinTtl(n);
    SoonAfter(times, n, s, clock[d], k);
  }

  /** If the role leaves the list, MySQL has its value at that moment. */
  lemma UnloadedIsWritten(t: Traced, es: seq<Event>, d: nat, b: nat, r: int) returns (j: nat, p: nat)
    requires TraceInv(t) && Disciplined(t.store, es) && Legal(t.store, es) && d < b <= |es| && es[d].LogicSet?
    requires es[d].roid == r && r in After(t.store, es, d).tracked && r !in After(t.store, es, b).tracked
    ensures j <= b && Reached(t, es, d, j, r, p)
  {
    NextAfter(t.store, es, d);
    j := LeavesRedis(t.store, es, d + 1, b, r);
    LegalPrefix(t.store, es, d + 1);
    SetIsCounted(t, es, d, r);
    LaterIsFresher(t, es, d + 1, j, j, r);
    p := AbsentIsWritten(t, es, j, r);
  }

  lemma SetIsCounted(t: Traced, es: seq<Event>, d: nat, r: int)
    requires TraceInv(t) && Disciplined(t.store, es) && d < |es| && es[d].LogicSet? && es[d].roid == r
    ensures Legal(t.store, es[..d + 1]) && CountAt(t, es, d + 1, r) > 0
  {
    StoredIsLatest(t, es, d, r, es[d].text);
  }

  /** A role that Redis does not have is in MySQL with its latest value. */
  lemma AbsentIsWritten(t: Traced, es: seq<Event>, j: nat, r: int) returns (p: nat)
    requires TraceInv(t) && Disciplined(t.store, es) && Legal(t.store, es) && j <= |es|
    requires r !in After(t.store, es, j).redis && Legal(t.store, es[..j]) && r in Run(t.store, es[..j]).mysql
    ensures HeldAfter(t, es, j, r, p) && CountAt(t, es, j, r) <= p + 1
  {
    DisciplinedPrefix(t.store, es, j);
    p := AbsentMeansWritten(t, es[..j], r);
  }

  /** Otherwise one of the ticks visits it. */
  lemma VisitedIsWritten(t: Traced, es: seq<Event>, begin: seq<nat>, orders: seq<seq<int>>, times: seq<int>, n: nat,
                         s: nat, d: nat, stored: int, r: int) returns (k: nat, j: nat, p: nat)
    requires TraceInv(t) && Disciplined(t.store, es) && VisitsAsPlanned(t.store, es, begin, orders)
    requires s + Window(n) <= |orders| == |times| && OnTime(times, MONITOR_PERIOD)
    requires forall i :: 0 <= i < |orders| ==> |orders[i]| <= n
    requires d < begin[s] && es[d].LogicSet? && es[d].roid == r && stored <= times[s] <= stored + MONITOR_PERIOD
    requires forall i :: s <= i < s + Window(n) ==> r in After(t.store, es, begin[i]).tracked
    ensures s <= k < s + Window(n) && j <= begin[k + 1] && Reached(t, es, d, j, r, p)
  {
    k := TickThatSaves(t.store, es, begin, orders, times, n, s, stored, r);
    j, p := SavedIsReached(t, es, begin[k], begin[k + 1], d, r);
  }

  lemma SavedIsReached(t: Traced, es: seq<Event>, a: nat, b: nat, d: nat, r: int) returns (j: nat, p: nat)
    requires TraceInv(t) && Disciplined(t.store, es) && Saved(t.store, es, a, b, r) && d < a <= b <= |es|
    requires es[d].LogicSet? && es[d].roid == r
    ensures j <= b && Reached(t, es, d, j, r, p)
  {
    j, p := SavedIsFresh(t, es, a, b, r);
    SetIsCounted(t, es, d, r);
    LaterIsFresher(t, es, d + 1, a, j, r);
  }

  lemma TickThatSaves(store: Store, es: seq<Event>, begin: seq<nat>, orders: seq<seq<int>>, times: seq<int>, n: nat,
                      s: nat, stored: int, r: int) returns (k: nat)
    requires VisitsAsPlanned(store, es, begin, orders)
    requires s + Window(n) <= |orders| == |times| && OnTime(times, MONITOR_PERIOD)
    requires forall i :: 0 <= i < |orders| ==> |orders[i]| <= n
    requires forall i :: s <= i < s + Window(n) ==> r in After(store, es, begin[i]).tracked
    requires stored <= times[s] <= stored + MONITOR_PERIOD
    ensures s <= k < s + Window(n)
    ensures begin[s] <= begin[k] <= begin[k + 1] <= |es| && Saved(store, es, begin[k], begin[k + 1], r)
  {
    k := VisitInWindow(orders, times, n, s, stored, r);
    assert r in Visited(Plans(orders), k);
    assert begin[s] <= begin[k] <= begin[k + 1] <= begin[|orders|];
  }

  /** The last value that the role has had by then. */
  ghost predicate LatestValue(here: Home, es: seq<Event>, r: int, row: Row)
    requires Legal(Initial(here), es)
  {
    var values := Values(Blank(here), es, r); values != [] && values[|values| - 1] == row
  }

  lemma LaterIsFresher(t: Traced, es: seq<Event>, a: nat, b: nat, j: nat, r: int)
    requires TraceInv(t) && Disciplined(t.store, es) && a <= b <= j <= |es|
    requires Legal(t.store, es[..a]) && CountAt(t, es, a, r) > 0
    ensures Legal(t.store, es[..b]) && CountAt(t, es, a, r) <= CountAt(t, es, b, r)
    ensures Legal(t.store, es[..j]) && CountAt(t, es, a, r) <= CountAt(t, es, j, r)
    ensures r in Run(t.store, es[..j]).mysql
  {
    CountsInOrder(t, es, a, b, r);
    CountsInOrder(t, es, a, j, r);
    HeldNow(t, es[..j], r);
  }
}
