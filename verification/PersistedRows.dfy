/** What a flush, a save visit or an unload brings to MySQL: a row at least as new as the role was when it started. */
module PersistedRows {
  import opened RoleStore
  import opened DurableHistory

  /** Event `e` is about fiber f. */
  predicate Moves(e: Event, f: nat) {
    !e.LogicSet? && e.f == f
  }

  /** From position `from` on, fiber f is only resumed. */
  ghost predicate OnlyGoes(es: seq<Event>, from: nat, f: nat) {
    forall i :: from <= i < |es| && Moves(es[i], f) ==> es[i].Go?
  }

  /** Fiber f started to persist role r at position n, and nothing but its commands has happened to it since. */
  ghost predicate Persisting(es: seq<Event>, n: nat, f: nat, r: int, purpose: Purpose) {
    n < |es| && es[n] == Start(f, Getting(r, purpose)) && OnlyGoes(es, n + 1, f)
  }

  // ----- The age of a snapshot -----

  /** Fiber f works on role r, and a snapshot in its hand is number `base` of the role's values, or a later one. */
  ghost predicate FreshIn(t: Traced, f: nat, r: int, base: int) {
    f in t.store.fibers ==>
      && t.store.fibers[f].roid == r && t.store.fibers[f].IsPersist()
      && (Pending(t.store.fibers[f]) ==> f in t.marks && t.marks[f] >= base)
  }

  lemma GoKeepsFresh(t: Traced, f: nat, spelling: nat, r: int, base: int)
    requires TraceInv(t) && Enabled(t.store, Go(f, spelling)) && FreshIn(t, f, r, base) && base < |HistoryOf(t, r)|
    ensures FreshIn(TracedStep(t, Go(f, spelling)), f, r, base)
  {
    GoFacts(t.store, f, spelling);
    assert t.store.fibers[f].roid in t.store.mysql ==> t.store.fibers[f].roid in t.history.Keys;
    PersistStaysPersist(t.store, f, spelling);
  }

  lemma PersistStaysPersist(s: Store, f: nat, spelling: nat)
    requires f in s.fibers && s.fibers[f].IsPersist()
    ensures f in Resume(s, f, spelling).fibers ==>
      Resume(s, f, spelling).fibers[f].IsPersist() && Resume(s, f, spelling).fibers[f].roid == s.fibers[f].roid
  {
  }

  lemma OthersLeaveFiber(s: Store, e: Event, f: nat)
    requires Enabled(s, e) && !Moves(e, f) && f in Step(s, e).fibers
    ensures f in s.fibers && Step(s, e).fibers[f] == s.fibers[f]
  {
    if e.Go? {
      OthersStay(s, e.f, e.spelling, f);
    }
  }

  lemma OthersLeaveMark(t: Traced, e: Event, f: nat)
    requires Inv(t.store) && Recorded(t) && Enabled(t.store, e) && !Moves(e, f) && f in t.marks
    ensures f in TracedStep(t, e).marks && TracedStep(t, e).marks[f] == t.marks[f]
  {
  }

  lemma OthersKeepFresh(t: Traced, e: Event, f: nat, r: int, base: int)
    requires TraceInv(t) && Enabled(t.store, e) && !Moves(e, f) && FreshIn(t, f, r, base)
    ensures FreshIn(TracedStep(t, e), f, r, base)
  {
    var u := TracedStep(t, e);
    assert u.store == Step(t.store, e);
    if f in u.store.fibers {
      OthersLeaveFiber(t.store, e, f);
      if Pending(u.store.fibers[f]) {
        OthersLeaveMark(t, e, f);
      }
    }
  }

  lemma StartIsFresh(t: Traced, f: nat, r: int, purpose: Purpose, base: int)
    requires TraceInv(t) && Enabled(t.store, Start(f, Getting(r, purpose)))
    ensures FreshIn(TracedStep(t, Start(f, Getting(r, purpose))), f, r, base)
  {
  }

  /** The number of values that the role has had in the first n events. */
  ghost function CountAt(t: Traced, es: seq<Event>, n: nat, r: int): nat
    requires n <= |es| && Legal(t.store, es[..n])
  {
    |Values(t, es[..n], r)|
  }

  /** One more event takes no value away. */
  lemma ValuesGrow(t: Traced, past: seq<Event>, e: Event, next: seq<Event>, r: int)
    requires TraceInv(t) && Disciplined(t.store, next) && next == past + [e]
    ensures Legal(t.store, past) && Legal(t.store, next) && |Values(t, past, r)| <= |Values(t, next, r)|
  {
    LastMovesOn(t, past, e, next, r);
  }

  lemma {:induction false} CountsInOrder(t: Traced, es: seq<Event>, a: nat, b: nat, r: int)
    requires TraceInv(t) && Disciplined(t.store, es) && a <= b <= |es|
    ensures Disciplined(t.store, es[..a]) && Legal(t.store, es[..a])
    ensures Disciplined(t.store, es[..b]) && Legal(t.store, es[..b])
    ensures CountAt(t, es, a, r) <= CountAt(t, es, b, r)
    decreases b
  {
    DisciplinedPrefix(t.store, es, b);
    if a < b {
      CountsInOrder(t, es, a, b - 1, r);
      assert es[..b] == es[..b - 1] + [es[b - 1]];
      ValuesGrow(t, es[..b - 1], es[b - 1], es[..b], r);
    }
  }

  lemma CountGrows(t: Traced, es: seq<Event>, n: nat, r: int)
    requires TraceInv(t) && Disciplined(t.store, es) && n <= |es|
    ensures Disciplined(t.store, es[..n]) && Legal(t.store, es[..n]) && Legal(t.store, es)
    ensures CountAt(t, es, n, r) <= |Values(t, es, r)|
  {
    CountsInOrder(t, es, n, |es|, r);
    assert es[..|es|] == es;
  }

  /** From its start on, the fiber's snapshot is no older than the last value the role had had by then. */
  lemma {:induction false} SnapshotIsFresh(t: Traced, es: seq<Event>, n: nat, f: nat, r: int, purpose: Purpose,
                                           base: int)
    requires TraceInv(t) && Disciplined(t.store, es) && Persisting(es, n, f, r, purpose)
    requires Legal(t.store, es[..n]) && base < CountAt(t, es, n, r)
    ensures FreshIn(TracedRun(t, es), f, r, base)
    decreases |es|
  {
    var past, e := es[..|es| - 1], es[|es| - 1];
    assert past + [e] == es;
    if n == |past| {
      FreshAtStart(t, past, es, f, r, purpose, base);
    } else {
      assert past[..n] == es[..n];
      DisciplinedPrefix(t.store, es, |past|);
      SnapshotIsFresh(t, past, n, f, r, purpose, base);
      FreshAfterLast(t, past, e, es, n, f, r, base);
    }
  }

  lemma FreshAtStart(t: Traced, past: seq<Event>, es: seq<Event>, f: nat, r: int, purpose: Purpose, base: int)
    requires TraceInv(t) && Disciplined(t.store, es) && es == past + [Start(f, Getting(r, purpose))]
    ensures FreshIn(TracedRun(t, es), f, r, base)
  {
    LastStep(t, past, Start(f, Getting(r, purpose)));
    StartIsFresh(TracedRun(t, past), f, r, purpose, base);
  }

  lemma FreshAfterLast(t: Traced, past: seq<Event>, e: Event, es: seq<Event>, n: nat, f: nat, r: int, base: int)
    requires TraceInv(t) && Disciplined(t.store, es) && es == past + [e] && Disciplined(t.store, past)
    requires n <= |past| && Legal(t.store, past[..n])
    requires base < CountAt(t, past, n, r) && FreshIn(TracedRun(t, past), f, r, base) && (Moves(e, f) ==> e.Go?)
    ensures FreshIn(TracedRun(t, es), f, r, base)
  {
    LastStep(t, past, e);
    ValuesReach(t, past, n, r);
    StepKeepsFresh(TracedRun(t, past), e, f, r, base);
  }

  lemma ValuesReach(t: Traced, past: seq<Event>, n: nat, r: int)
    requires TraceInv(t) && Disciplined(t.store, past) && n <= |past|
    ensures Legal(t.store, past[..n]) && CountAt(t, past, n, r) <= |HistoryOf(TracedRun(t, past), r)|
  {
    CountGrows(t, past, n, r);
    HistoryIsWrites(t, past, r);
  }

  lemma StepKeepsFresh(t: Traced, e: Event, f: nat, r: int, base: int)
    requires TraceInv(t) && Enabled(t.store, e) && (Moves(e, f) ==> e.Go?)
    requires FreshIn(t, f, r, base) && base < |HistoryOf(t, r)|
    ensures FreshIn(TracedStep(t, e), f, r, base)
  {
    if Moves(e, f) {
      GoKeepsFresh(t, f, e.spelling, r, base);
    } else {
      OthersKeepFresh(t, e, f, r, base);
    }
  }

  // ----- The row that is written -----

  lemma UpdateTakesTheMark(t: Traced, f: nat, spelling: nat, r: int, base: int)
    requires TraceInv(t) && f in t.store.fibers && Pending(t.store.fibers[f]) && FreshIn(t, f, r, base)
    ensures var u := TracedStep(t, Go(f, spelling)); Recorded(u) && Position(u, r) >= base && r in u.store.mysql
  {
    WriteKeepsTraceInv(t, f, spelling);
    GoFacts(t.store, f, spelling);
  }

  lemma UpdateIsFresh(t: Traced, past: seq<Event>, e: Event, es: seq<Event>, n: nat, f: nat, r: int, purpose: Purpose)
    requires TraceInv(t) && es == past + [e] && Disciplined(t.store, es) && Persisting(past, n, f, r, purpose)
    requires e.Go? && e.f == f && Legal(t.store, past)
    requires f in Run(t.store, past).fibers && Pending(Run(t.store, past).fibers[f])
    ensures Legal(t.store, past[..n]) && CountAt(t, past, n, r) <= Position(TracedRun(t, es), r) + 1
    ensures r in TracedRun(t, es).store.mysql
  {
    LastStep(t, past, e);
    CountGrows(t, past, n, r);
    var base := CountAt(t, past, n, r) - 1;
    SnapshotIsFresh(t, past, n, f, r, purpose, base);
    UpdateTakesTheMark(TracedRun(t, past), f, e.spelling, r, base);
  }

  /** The UPDATE of a persist operation that started at position n, as the last event of a run: MySQL's row is number
      k of the role's values, and that is the last one the role had had at the start, or a later one. */
  lemma PersistIsFresh(t: Traced, es: seq<Event>, n: nat, f: nat, r: int, purpose: Purpose) returns (k: nat)
    requires TraceInv(t) && Disciplined(t.store, es) && n < |es| - 1 && Persisting(es, n, f, r, purpose)
    requires es[|es| - 1].Go? && es[|es| - 1].f == f && Legal(t.store, es[..|es| - 1])
    requires var s := Run(t.store, es[..|es| - 1]); f in s.fibers && Pending(s.fibers[f])
    ensures Legal(t.store, es) && Legal(t.store, es[..n]) && r in Run(t.store, es).mysql
    ensures HeldAt(t, es, r, k) && CountAt(t, es, n, r) <= k + 1 && k == Position(TracedRun(t, es), r)
  {
    var past, e := es[..|es| - 1], es[|es| - 1];
    assert past + [e] == es && past[..n] == es[..n];
    assert Persisting(past, n, f, r, purpose);
    UpdateIsFresh(t, past, e, es, n, f, r, purpose);
    HeldNow(t, es, r);
    k := Position(TracedRun(t, es), r);
  }

  // ----- Whole visits -----

  /** A persist of role r has run from event `a` to the end of `es`: its last command was the UPDATE, or the GET that
      did not find the key. */
  ghost predicate Ended(s: Store, es: seq<Event>, n: nat, f: nat, r: int, purpose: Purpose)
    requires Legal(s, es)
  {
    && n < |es| - 1 && Persisting(es, n, f, r, purpose) && es[|es| - 1].Go? && es[|es| - 1].f == f
    && Legal(s, es[..|es| - 1])
    && var before := Run(s, es[..|es| - 1]);
      && f in before.fibers && before.fibers[f].roid == r
      && (before.fibers[f].Persisting? || (before.fibers[f].Getting? && r !in before.redis))
  }

  /** Between events a and b a save visit of role r has taken place. */
  ghost predicate Saved(s: Store, es: seq<Event>, a: nat, b: nat, r: int) {
    exists n: nat, f: nat, j: nat :: a <= n < j <= b && SavedBy(s, es, n, f, j, r)
  }

  ghost predicate SavedBy(s: Store, es: seq<Event>, n: nat, f: nat, j: nat, r: int) {
    j <= |es| && Legal(s, es[..j]) && Ended(s, es[..j], n, f, r, Save)
  }

  /** A GET that does not find the key changes nothing; MySQL has the latest value. */
  lemma MissedGet(u: Traced, f: nat, spelling: nat, r: int)
    requires TraceInv(u) && f in u.store.fibers && u.store.fibers[f].Getting? && u.store.fibers[f].roid == r
    requires r !in u.store.redis
    ensures r !in Step(u.store, Go(f, spelling)).redis
  {
  }

  lemma AbsentMeansWritten(t: Traced, es: seq<Event>, r: int) returns (k: nat)
    requires TraceInv(t) && Disciplined(t.store, es) && Legal(t.store, es) && r !in Run(t.store, es).redis
    ensures HeldAt(t, es, r, k) && k + 1 >= |Values(t, es, r)|
  {
    HeldNow(t, es, r);
    k := if Values(t, es, r) == [] then 0 else |Values(t, es, r)| - 1;
  }

  /** If the key is gone, MySQL has the latest value. */
  lemma GoneMeansWritten(t: Traced, es: seq<Event>, f: nat, r: int) returns (k: nat)
    requires TraceInv(t) && Disciplined(t.store, es) && es != [] && es[|es| - 1].Go? && es[|es| - 1].f == f
    requires Legal(t.store, es[..|es| - 1])
    requires var s := Run(t.store, es[..|es| - 1]);
      f in s.fibers && s.fibers[f].Getting? && s.fibers[f].roid == r && r !in s.redis
    ensures Legal(t.store, es) && HeldAt(t, es, r, k) && k + 1 >= |Values(t, es, r)|
  {
    var past, e := es[..|es| - 1], es[|es| - 1];
    assert past + [e] == es;
    LastStep(t, past, e);
    DisciplinedIsLegal(t.store, es);
    MissedGet(TracedRun(t, past), f, e.spelling, r);
    k := AbsentMeansWritten(t, es, r);
  }

  lemma EndedIsFresh(t: Traced, es: seq<Event>, n: nat, f: nat, r: int, purpose: Purpose) returns (k: nat)
    requires TraceInv(t) && Disciplined(t.store, es) && Legal(t.store, es) && Ended(t.store, es, n, f, r, purpose)
    ensures Legal(t.store, es[..n]) && HeldAt(t, es, r, k) && CountAt(t, es, n, r) <= k + 1
  {
    CountGrows(t, es, n, r);
    if Run(t.store, es[..|es| - 1]).fibers[f].Persisting? {
      k := PersistIsFresh(t, es, n, f, r, purpose);
    } else {
      k := GoneMeansWritten(t, es, f, r);
    }
  }

  /** A save visit brings to MySQL what the role was when it started, or something newer: at some moment j of the
      visit MySQL's row is a value that came no earlier than the last one before event `a`. */
  lemma SavedIsFresh(t: Traced, es: seq<Event>, a: nat, b: nat, r: int) returns (j: nat, k: nat)
    requires TraceInv(t) && Disciplined(t.store, es) && b <= |es| && Saved(t.store, es, a, b, r)
    ensures a < j <= b && Legal(t.store, es[..a])
    ensures HeldAfter(t, es, j, r, k) && CountAt(t, es, a, r) <= k + 1
  {
    var n: nat, f: nat, i: nat :| a <= n < i <= b && SavedBy(t.store, es, n, f, i, r);
    j := i;
    CountGrows(t, es, j, r);
    k := EndedIsFresh(t, es[..j], n, f, r, Save);
    EarlierCount(t, es, a, n, j, r);
  }

  lemma EarlierCount(t: Traced, es: seq<Event>, a: nat, n: nat, j: nat, r: int)
    requires TraceInv(t) && Disciplined(t.store, es) && a <= n <= j <= |es| && Legal(t.store, es[..j][..n])
    ensures Legal(t.store, es[..a]) && CountAt(t, es, a, r) <= CountAt(t, es[..j], n, r)
  {
    assert es[..j][..n] == es[..n];
    CountsInOrder(t, es, a, n, r);
  }
}
