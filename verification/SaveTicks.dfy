/** What a save tick of the logic server contributes to a run. */
module SaveTicks {
  import opened Options
  import opened LogicRoles

  // ----- Moments of a run -----

  /** The state after the first m events. */
  ghost function After(s: State, es: seq<Event>, m: nat): State
    requires Legal(s, es) && m <= |es|
  {
    RunPrefix(s, es, m);
    Run(s, es[..m])
  }

  lemma {:induction false} NextAfter(s: State, es: seq<Event>, m: nat)
    requires Legal(s, es) && m < |es|
    ensures RefsOk(After(s, es, m)) && Enabled(After(s, es, m), es[m])
    ensures After(s, es, m + 1) == Step(After(s, es, m), es[m])
    decreases m
  {
    RunPrefix(s, es, m);
    RunPrefix(s, es, m + 1);
    if m == 0 {
      assert es[..1] == [es[0]] && [es[0]][1..] == [] && es[..0] == [];
      assert Run(Step(s, es[0]), []) == Step(s, es[0]);
    } else {
      NextAfter(Step(s, es[0]), es[1..], m - 1);
      assert es[..m][1..] == es[1..][..m - 1] && es[..m + 1][1..] == es[1..][..m];
    }
  }

  // ----- What a visit achieves -----

  /** Between the first a and the first b events a SET of the role has been issued and answered. */
  ghost predicate StoredBetween(s: State, es: seq<Event>, a: nat, b: nat, roid: int) {
    && a <= b <= |es| && Legal(s, es[..a]) && Legal(s, es[..b])
    && exists i :: |Run(s, es[..a]).writes| <= i < |Run(s, es[..b]).writes| && i < Run(s, es[..b]).applied
                   && Run(s, es[..b]).writes[i].roid == roid
  }

  /** At some moment between them the role was not hydrated. */
  ghost predicate GoneBetween(s: State, es: seq<Event>, a: nat, b: nat, roid: int) {
    exists m :: a <= m <= b && GoneAt(s, es, m, roid)
  }

  ghost predicate GoneAt(s: State, es: seq<Event>, m: nat, roid: int) {
    m <= |es| && Legal(s, es[..m]) && roid !in Run(s, es[..m]).hydRoles
  }

  ghost predicate SavedOrGone(s: State, es: seq<Event>, a: nat, b: nat, roid: int) {
    StoredBetween(s, es, a, b, roid) || GoneBetween(s, es, a, b, roid)
  }

  lemma StoredStays(s: State, es: seq<Event>, more: seq<Event>, a: nat, roid: int)
    requires es <= more && Legal(s, more) && StoredBetween(s, es, a, |es|, roid)
    ensures StoredBetween(s, more, a, |more|, roid)
  {
    assert es[..|es|] == es == more[..|es|] && more[..|more|] == more && es[..a] == more[..a];
    RunGrows(s, more, |es|);
  }

  lemma SavedOrGoneStays(s: State, es: seq<Event>, more: seq<Event>, a: nat, roid: int)
    requires es <= more && Legal(s, more) && SavedOrGone(s, es, a, |es|, roid)
    ensures SavedOrGone(s, more, a, |more|, roid)
  {
    if StoredBetween(s, es, a, |es|, roid) {
      StoredStays(s, es, more, a, roid);
    } else {
      var m :| a <= m <= |es| && GoneAt(s, es, m, roid);
      assert es[..m] == more[..m];
      assert GoneAt(s, more, m, roid);
    }
  }

  lemma GoneNow(s: State, es: seq<Event>, a: nat, roid: int)
    requires a <= |es| && Legal(s, es) && roid !in Run(s, es).hydRoles
    ensures SavedOrGone(s, es, a, |es|, roid)
  {
    assert es[..|es|] == es;
    assert GoneAt(s, es, |es|, roid);
  }

  /** What holds since a later moment holds since an earlier one. */
  lemma SavedSince(s: State, es: seq<Event>, a: nat, b: nat, roid: int)
    requires a <= b <= |es| && Legal(s, es) && SavedOrGone(s, es, b, |es|, roid)
    ensures SavedOrGone(s, es, a, |es|, roid)
  {
    if StoredBetween(s, es, b, |es|, roid) {
      RunPrefix(s, es, b);
      assert es[..b][..a] == es[..a];
      RunGrows(s, es[..b], a);
    }
  }

  // ----- Which visits are in progress -----

  predicate Visiting(fiber: Fiber) {
    fiber.VisitChecking? || fiber.VisitLoggingOut? || fiber.VisitStoring?
  }

  ghost predicate NoVisits(s: State) {
    forall f :: f in s.fibers ==> !Visiting(s.fibers[f])
  }

  /** Only fiber f may be visiting. */
  ghost predicate OnlyVisitor(s: State, f: nat) {
    forall g :: g in s.fibers && Visiting(s.fibers[g]) ==> g == f
  }

  /** From position a on, all visits that start are fiber f's, at time `now`. */
  ghost predicate VisitsAreOf(es: seq<Event>, a: nat, f: nat, now: int) {
    forall i :: a <= i < |es| && es[i].EVisit? ==> es[i].f == f && es[i].now == now
  }

  /** From position a on, no visit starts. */
  ghost predicate StartsNoVisit(es: seq<Event>, a: nat) {
    forall i :: a <= i < |es| ==> !es[i].EVisit?
  }

  /** From position a on, fiber f gets no answer from an agent but this one. */
  ghost predicate AnswersAre(es: seq<Event>, a: nat, f: nat, ok: Option<bool>) {
    forall i :: a <= i < |es| && es[i].EChecked? && es[i].f == f ==> ok == Some(es[i].ok)
  }

  predicate Calm(others: seq<Event>) {
    forall i :: 0 <= i < |others| ==> !others[i].EVisit?
  }

  lemma StepKeepsVisitor(s: State, e: Event, f: nat)
    requires RefsOk(s) && Enabled(s, e) && OnlyVisitor(s, f) && (e.EVisit? ==> e.f == f)
    ensures OnlyVisitor(Step(s, e), f)
  {
  }

  lemma {:induction false} RunKeepsVisitor(s: State, es: seq<Event>, a: nat, n: nat, f: nat, now: int)
    requires Legal(s, es) && a <= n <= |es| && VisitsAreOf(es, a, f, now) && NoVisits(After(s, es, a))
    ensures OnlyVisitor(After(s, es, n), f)
    decreases n
  {
    if a < n {
      RunKeepsVisitor(s, es, a, n - 1, f, now);
      NextAfter(s, es, n - 1);
      StepKeepsVisitor(After(s, es, n - 1), es[n - 1], f);
    }
  }

  // ----- A tick -----

  ghost predicate VisitStarts(es: seq<Event>, a: nat, b: nat, roid: int, now: int) {
    exists i :: a <= i < b && i < |es| && es[i].EVisit? && es[i].roid == roid && es[i].now == now
  }

  /** Between the first a and the first b events one tick has run, at time `now`: it has visited these roles and nobody
      else has visited any, each of them has been saved or was gone at some moment, and no visit is left in progress. */
  ghost predicate TickRuns(s: State, es: seq<Event>, a: nat, b: nat, visited: seq<int>, now: int) {
    && Legal(s, es) && a <= b <= |es| && NoVisits(After(s, es, a)) && NoVisits(After(s, es, b))
    && (forall i :: a <= i < b && es[i].EVisit? ==> es[i].now == now)
    && (forall i :: 0 <= i < |visited| ==> SavedOrGone(s, es, a, b, visited[i]))
    && (forall i :: 0 <= i < |visited| ==> VisitStarts(es, a, b, visited[i], now))
  }

  /** At a moment after event a the role was gone, or its object o disconnected at time `now`. */
  ghost predicate Denied(s: State, es: seq<Event>, a: nat, o: nat, roid: int, now: int) {
    exists m :: a < m <= |es| && DeniedAt(s, es, m, o, roid, now)
  }

  ghost predicate DeniedAt(s: State, es: seq<Event>, m: nat, o: nat, roid: int, now: int) {
    && m <= |es| && Legal(s, es)
    && var t := After(s, es, m);
      roid in t.hydRoles ==> o in t.roles && t.roles[o].Disconnected() && t.roles[o].dcSince == now
  }

  lemma DeniedNow(s: State, es: seq<Event>, a: nat, o: nat, roid: int, now: int)
    requires Legal(s, es) && a < |es|
    requires var t := Run(s, es);
      roid in t.hydRoles ==> o in t.roles && t.roles[o].Disconnected() && t.roles[o].dcSince == now
    ensures Denied(s, es, a, o, roid, now)
  {
    assert es[..|es|] == es;
    assert DeniedAt(s, es, |es|, o, roid, now);
  }

  lemma VisitStartsStays(es: seq<Event>, more: seq<Event>, a: nat, roid: int, now: int)
    requires VisitStarts(es, a, |es|, roid, now) && es <= more
    ensures VisitStarts(more, a, |more|, roid, now)
  {
    var i :| a <= i < |es| && es[i].EVisit? && es[i].roid == roid && es[i].now == now;
    assert more[i] == es[i];
  }

  lemma DeniedStays(s: State, es: seq<Event>, more: seq<Event>, a: nat, o: nat, roid: int, now: int)
    requires Denied(s, es, a, o, roid, now) && es <= more && Legal(s, more)
    ensures Denied(s, more, a, o, roid, now)
  {
    var m :| a < m <= |es| && DeniedAt(s, es, m, o, roid, now);
    assert es[..m] == more[..m];
    assert DeniedAt(s, more, m, o, roid, now);
  }

  /** A tick that has run is part of every longer run. */
  lemma TickStays(s: State, es: seq<Event>, more: seq<Event>, a: nat, b: nat, visited: seq<int>, now: int)
    requires TickRuns(s, es, a, b, visited, now) && es <= more && Legal(s, more)
    ensures TickRuns(s, more, a, b, visited, now)
  {
    assert es[..a] == more[..a] && es[..b] == more[..b];
    forall i | 0 <= i < |visited|
      ensures SavedOrGone(s, more, a, b, visited[i]) && VisitStarts(more, a, b, visited[i], now)
    {
      SameMoments(s, es, more, a, b, visited[i]);
      var j :| a <= j < b && j < |es| && es[j].EVisit? && es[j].roid == visited[i] && es[j].now == now;
      assert more[j] == es[j];
    }
  }

  lemma SameMoments(s: State, es: seq<Event>, more: seq<Event>, a: nat, b: nat, roid: int)
    requires Legal(s, more) && es <= more && a <= b <= |es| && SavedOrGone(s, es, a, b, roid)
    ensures SavedOrGone(s, more, a, b, roid)
  {
    assert es[..a] == more[..a] && es[..b] == more[..b];
    if !StoredBetween(s, es, a, b, roid) {
      var m :| a <= m <= b && GoneAt(s, es, m, roid);
      assert es[..m] == more[..m];
      assert GoneAt(s, more, m, roid);
    }
  }

  /** What others do until the next tick, other than visits, belongs to the tick before. */
  lemma TickLasts(s: State, es: seq<Event>, more: seq<Event>, a: nat, visited: seq<int>, now: int)
    requires TickRuns(s, es, a, |es|, visited, now) && es <= more && Legal(s, more)
    requires StartsNoVisit(more, |es|)
    ensures TickRuns(s, more, a, |more|, visited, now)
  {
    TickStays(s, es, more, a, |es|, visited, now);
    NoVisitsLater(s, more, |es|);
    forall i | 0 <= i < |visited|
      ensures SavedOrGone(s, more, a, |more|, visited[i]) && VisitStarts(more, a, |more|, visited[i], now)
    {
      SavedOrGoneStays(s, es, more, a, visited[i]);
      assert VisitStarts(more, a, |es|, visited[i], now);
    }
  }

  /** Fiber f's visits, one after the other, make a tick. */
  lemma TickOfOne(s: State, es: seq<Event>, a: nat, f: nat, visited: seq<int>, now: int)
    requires Legal(s, es) && a <= |es| && NoVisits(After(s, es, a)) && VisitsAreOf(es, a, f, now)
    requires f !in Run(s, es).fibers
    requires forall i :: 0 <= i < |visited| ==> SavedOrGone(s, es, a, |es|, visited[i])
    requires forall i :: 0 <= i < |visited| ==> VisitStarts(es, a, |es|, visited[i], now)
    ensures TickRuns(s, es, a, |es|, visited, now)
  {
    RunKeepsVisitor(s, es, a, |es|, f, now);
    assert es[..|es|] == es;
  }

  lemma NoVisitsLater(s: State, es: seq<Event>, a: nat)
    requires Legal(s, es) && a <= |es| && NoVisits(After(s, es, a)) && StartsNoVisit(es, a)
    ensures NoVisits(After(s, es, |es|))
  {
    RunKeepsVisitor(s, es, a, |es|, 0, 0);
    RunKeepsVisitor(s, es, a, |es|, 1, 0);
  }
}
