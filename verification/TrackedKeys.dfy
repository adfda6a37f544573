/** Which keys in Redis the monitor's save ticks know of: `role_records` follows Redis except for a SET of a role that
    it does not list. */
module TrackedKeys {
  import opened Options
  import opened RoleStore

  /** If Redis has the key, then `role_records` lists it. */
  predicate KeyTracked(s: Store, r: int) {
    r in s.redis ==> r in s.tracked
  }

  /** A SET of a role that has not been loaded, or has been unloaded since. */
  predicate StraySet(s: Store, e: Event, r: int) {
    e.LogicSet? && e.roid == r && r !in s.tracked
  }

  /** In any interleaving, only such a SET makes a key that is not listed. */
  lemma OnlyStraySetsHide(s: Store, e: Event, r: int)
    requires WellKeyed(s) && Enabled(s, e) && KeyTracked(s, r)
    ensures KeyTracked(Step(s, e), r) <==> !StraySet(s, e, r)
  {
    assert e.Go? ==> FiberAgrees(s.fibers[e.f]);
  }

  /** A role leaves the list only when Redis does not have it either. */
  lemma OnlyAbsentKeysLeave(s: Store, e: Event, r: int)
    requires WellKeyed(s) && Enabled(s, e) && r in s.tracked && r !in Step(s, e).tracked
    ensures r !in Step(s, e).redis
  {
    assert e.Go? ==> FiberAgrees(s.fibers[e.f]);
  }

  // ----- Runs -----

  lemma {:induction false} LegalPrefix(s: Store, es: seq<Event>, n: nat)
    requires Legal(s, es) && n <= |es|
    ensures Legal(s, es[..n])
    decreases |es|
  {
    if n > 0 {
      LegalPrefix(Step(s, es[0]), es[1..], n - 1);
      assert es[..n][1..] == es[1..][..n - 1];
    }
  }

  /** The store after the first m events. */
  ghost function After(s: Store, es: seq<Event>, m: nat): Store
    requires Legal(s, es) && m <= |es|
  {
    LegalPrefix(s, es, m);
    Run(s, es[..m])
  }

  lemma {:induction false} NextAfter(s: Store, es: seq<Event>, m: nat)
    requires Legal(s, es) && m < |es|
    ensures Enabled(After(s, es, m), es[m]) && After(s, es, m + 1) == Step(After(s, es, m), es[m])
    decreases m
  {
    LegalPrefix(s, es, m);
    LegalPrefix(s, es, m + 1);
    if m == 0 {
      assert es[..1] == [es[0]] && [es[0]][1..] == [] && es[..0] == [];
      assert Run(Step(s, es[0]), []) == Step(s, es[0]);
    } else {
      NextAfter(Step(s, es[0]), es[1..], m - 1);
      assert es[..m][1..] == es[1..][..m - 1] && es[..m + 1][1..] == es[1..][..m];
    }
  }

  lemma {:induction false} AfterIsWellKeyed(s: Store, es: seq<Event>, m: nat)
    requires Legal(s, es) && m <= |es| && WellKeyed(s)
    ensures WellKeyed(After(s, es, m))
    decreases m
  {
    if m > 0 {
      AfterIsWellKeyed(s, es, m - 1);
      NextAfter(s, es, m - 1);
      StepKeepsWellKeyed(After(s, es, m - 1), es[m - 1]);
    }
  }

  ghost predicate TrackedThroughout(s: Store, es: seq<Event>, n: nat, r: int)
    requires Legal(s, es) && n <= |es|
  {
    forall m :: 0 <= m <= n ==> KeyTracked(After(s, es, m), r)
  }

  /** Each of the first n events that is a SET of the role finds it listed. */
  ghost predicate NoStraySet(s: Store, es: seq<Event>, n: nat, r: int)
    requires Legal(s, es) && n <= |es|
  {
    forall i :: 0 <= i < n ==> !StraySet(After(s, es, i), es[i], r)
  }

  lemma {:induction false} TrackedUntil(s: Store, es: seq<Event>, n: nat, r: int)
    requires Legal(s, es) && n <= |es| && WellKeyed(s) && KeyTracked(s, r)
    ensures TrackedThroughout(s, es, n, r) <==> NoStraySet(s, es, n, r)
    decreases n
  {
    if n == 0 {
      assert es[..0] == [];
    } else {
      TrackedUntil(s, es, n - 1, r);
      NextAfter(s, es, n - 1);
      AfterIsWellKeyed(s, es, n - 1);
      if TrackedThroughout(s, es, n - 1, r) {
        OnlyStraySetsHide(After(s, es, n - 1), es[n - 1], r);
      }
    }
  }

  /** In every run: the monitor knows of a role at every moment at which Redis has it exactly if every SET of it by a
      logic server comes while the monitor lists it, that is, after a create, a load or a save, and before an unload. */
  lemma KeysAreTrackedIff(here: Home, es: seq<Event>, r: int)
    requires Legal(Initial(here), es)
    ensures TrackedThroughout(Initial(here), es, |es|, r) <==> NoStraySet(Initial(here), es, |es|, r)
  {
    TrackedUntil(Initial(here), es, |es|, r);
  }

  /** Between a moment at which the role is listed and one at which it is not, there is one at which it is in neither
      the list nor Redis. */
  lemma {:induction false} LeavesRedis(s: Store, es: seq<Event>, a: nat, b: nat, r: int) returns (j: nat)
    requires Legal(s, es) && WellKeyed(s) && a <= b <= |es|
    requires r in After(s, es, a).tracked && r !in After(s, es, b).tracked
    ensures a < j <= b && r !in After(s, es, j).redis
    decreases b
  {
    NextAfter(s, es, b - 1);
    if r in After(s, es, b - 1).tracked {
      j := b;
      AfterIsWellKeyed(s, es, b - 1);
      OnlyAbsentKeysLeave(After(s, es, b - 1), es[b - 1], r);
    } else {
      j := LeavesRedis(s, es, a, b - 1, r);
    }
  }

  /** An example of a SET that comes too late: the role is created and unloaded, and then stored again. The save ticks
      do not know of it. */
  lemma LateSetIsHidden(s: Store, r: int, f: nat, text: Text)
    requires WellKeyed(s) && f in s.fibers && s.fibers[f].UnloadDeleting? && s.fibers[f].roid == r
    requires Answer(s, f) == Some(GsOk) && r in s.mysql && text.record.roid == r
    ensures var t := Step(s, Go(f, 0));
      Enabled(t, LogicSet(r, text)) && StraySet(t, LogicSet(r, text), r) && !KeyTracked(Step(t, LogicSet(r, text)), r)
  {
    assert FiberAgrees(s.fibers[f]);
  }
}
