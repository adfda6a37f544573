/** Which handlers that were suspended before a login can take its role away from it. */
module LoginKept {
  import opened Options
  import opened LogicRoles
  import opened LogicRelease

  // ----- What may follow -----

  /** Redis and the handlers that are already suspended go on; no request or tick starts anything new. */
  predicate GoesOn(e: Event) {
    e.EApply? || e.EChecked? || e.EStored?
  }

  ghost predicate Continuation(s: State, es: seq<Event>) {
    Legal(s, es) && forall i :: 0 <= i < |es| ==> GoesOn(es[i])
  }

  predicate IsHeld(s: State, roid: int, o: nat) {
    roid in s.hydRoles && s.hydRoles[roid].role == o
  }

  /** Whatever they do, object o stays in the table. */
  ghost predicate Kept(s: State, roid: int, o: nat) {
    forall es :: Continuation(s, es) ==> IsHeld(Run(s, es), roid, o)
  }

  // ----- What they have in hand -----

  predicate HoldsRole(s: State, f: nat, roid: int) {
    f in s.fibers && !s.fibers[f].LoginFetching? && s.fibers[f].roid == roid
  }

  predicate Checks(s: State, f: nat, roid: int) {
    HoldsRole(s, f, roid) && s.fibers[f].VisitChecking?
  }

  /** No suspended handler of the role is releasing it or has another object in hand. */
  ghost predicate NoStraggler(s: State, roid: int, o: nat) {
    forall f :: HoldsRole(s, f, roid) ==> !Releasing(s.fibers[f]) && s.fibers[f].hyd.role == o
  }

  /** No check of the role that began so much later than another one, or than itself, that it would log out a role that
      the other one has found without its client. The ticks of one timer do not overlap, so at most one is suspended. */
  ghost predicate ChecksTogether(s: State, roid: int) {
    forall f, g :: Checks(s, f, roid) && Checks(s, g, roid) ==> s.fibers[g].now - s.fibers[f].now < s.idleLimit
  }

  ghost predicate Undisturbed(s: State, roid: int, o: nat) {
    NoStraggler(s, roid, o) && ChecksTogether(s, roid)
  }

  // ----- Then the role is kept -----

  /** A disconnection is too recent for any of these checks. */
  ghost predicate Recent(s: State, roid: int, o: nat) {
    o in s.roles && (s.roles[o].Disconnected() ==>
      forall f :: Checks(s, f, roid) ==> s.fibers[f].now - s.roles[o].dcSince < s.idleLimit)
  }

  ghost predicate Safe(s: State, roid: int, o: nat) {
    RefsOk(s) && IsHeld(s, roid, o) && Undisturbed(s, roid, o) && Recent(s, roid, o)
  }

  lemma StoredKeepsSafe(s: State, f: nat, roid: int, o: nat)
    requires Safe(s, roid, o) && Enabled(s, EStored(f)) && RefsOk(Step(s, EStored(f)))
    ensures Safe(Step(s, EStored(f)), roid, o)
  {
    assert HoldsRole(s, f, s.fibers[f].roid);
  }

  /** A decision about another role. */
  lemma OtherDecisionKeepsSafe(s: State, f: nat, q: int, hyd: Hydrated, now: int, roid: int, o: nat)
    requires IsHeld(s, roid, o) && Undisturbed(s, roid, o) && Recent(s, roid, o)
    requires hyd.role in s.roles && hyd.role != o && q != roid && f !in s.fibers
    ensures var t := VisitDecide(s, f, q, hyd, now);
      IsHeld(t, roid, o) && Undisturbed(t, roid, o) && Recent(t, roid, o)
  {
  }

  lemma OtherCheckKeepsSafe(s: State, f: nat, ok: bool, roid: int, o: nat)
    requires Safe(s, roid, o) && Enabled(s, EChecked(f, ok)) && RefsOk(Step(s, EChecked(f, ok)))
    requires s.fibers[f].roid != roid
    ensures Safe(Step(s, EChecked(f, ok)), roid, o)
  {
    var fiber, t := s.fibers[f], Finish(s, f);
    var q := fiber.hyd.role;
    assert q != o;
    if fiber.roid in s.hydRoles {
      OtherDecisionKeepsSafe(if ok then t else WithRole(t, q, t.roles[q].Disconnect(fiber.now)),
                             f, fiber.roid, fiber.hyd, fiber.now, roid, o);
    }
  }

  lemma CheckKeepsSafe(s: State, f: nat, ok: bool, roid: int, o: nat)
    requires Safe(s, roid, o) && Enabled(s, EChecked(f, ok)) && RefsOk(Step(s, EChecked(f, ok)))
    requires s.fibers[f].roid == roid
    ensures Safe(Step(s, EChecked(f, ok)), roid, o)
  {
    assert Checks(s, f, roid);
    assert Step(s, EChecked(f, ok)).fibers[f].VisitStoring?;
  }

  lemma StepKeepsSafe(s: State, e: Event, roid: int, o: nat)
    requires Safe(s, roid, o) && Enabled(s, e) && GoesOn(e) && RefsOk(Step(s, e))
    ensures Safe(Step(s, e), roid, o)
  {
    match e
    case EStored(f) => StoredKeepsSafe(s, f, roid, o);
    case EChecked(f, ok) =>
      if s.fibers[f].roid == roid {
        CheckKeepsSafe(s, f, ok, roid, o);
      } else {
        OtherCheckKeepsSafe(s, f, ok, roid, o);
      }
    case _ =>
  }

  lemma {:induction false} RunKeepsSafe(s: State, es: seq<Event>, roid: int, o: nat)
    requires Inv(s) && Safe(s, roid, o) && Continuation(s, es)
    ensures Safe(Run(s, es), roid, o)
    decreases |es|
  {
    if es != [] {
      StepKeepsInv(s, es[0]);
      StepKeepsSafe(s, es[0], roid, o);
      RunKeepsSafe(Step(s, es[0]), es[1..], roid, o);
    }
  }

  // ----- Otherwise it can be lost -----

  /** What the end of a handler makes of the table. */
  function TableAfter(s: State, f: nat): map<int, Hydrated>
    requires f in s.fibers && Awaits(s.fibers[f])
  {
    var fiber := s.fibers[f];
    if !fiber.VisitStoring? then s.hydRoles - {fiber.roid}
    else if fiber.roid in s.hydRoles then s.hydRoles[fiber.roid := fiber.hyd]
    else s.hydRoles
  }

  lemma FirstGoesOn(s: State, e: Event, rest: seq<Event>)
    requires RefsOk(s) && Enabled(s, e) && GoesOn(e) && Continuation(Step(s, e), rest)
    ensures Continuation(s, [e] + rest) && Run(s, [e] + rest) == Run(Step(s, e), rest)
  {
    assert ([e] + rest)[1..] == rest;
  }

  /** A handler that waits for its SET can go on to its end. */
  lemma {:induction false} CanEnd(s: State, f: nat) returns (es: seq<Event>)
    requires RefsOk(s) && f in s.fibers && Awaits(s.fibers[f]) && s.fibers[f].ticket < |s.writes|
    ensures Continuation(s, es) && Run(s, es).hydRoles == TableAfter(s, f)
    decreases s.fibers[f].ticket - s.applied
  {
    if s.fibers[f].ticket < s.applied {
      es := [EStored(f)];
      FirstGoesOn(s, EStored(f), []);
      assert [EStored(f)] + [] == es;
    } else {
      var t := Step(s, EApply);
      var rest := CanEnd(t, f);
      FirstGoesOn(s, EApply, rest);
      es := [EApply] + rest;
    }
  }

  /** A check that is answered leads to a SET of the object that it has in hand. */
  lemma CheckGoesOn(s: State, f: nat, ok: bool, roid: int)
    requires RefsOk(s) && Checks(s, f, roid) && roid in s.hydRoles
    ensures Enabled(s, EChecked(f, ok))
    ensures var t := Step(s, EChecked(f, ok));
      && f in t.fibers && Awaits(t.fibers[f]) && t.fibers[f].roid == roid && t.fibers[f].hyd == s.fibers[f].hyd
      && t.fibers[f].ticket < |t.writes| && t.hydRoles == s.hydRoles
      && (forall g :: g != f && Checks(s, g, roid) ==> Checks(t, g, roid) && t.fibers[g] == s.fibers[g])
  {
    assert EntryOk(s, roid, s.fibers[f].hyd);
  }

  /** What it makes of a connected role. */
  lemma CheckDecides(s: State, f: nat, ok: bool, roid: int)
    requires RefsOk(s) && Checks(s, f, roid) && roid in s.hydRoles
    ensures Enabled(s, EChecked(f, ok))
    ensures var t, o := Step(s, EChecked(f, ok)), s.fibers[f].hyd.role;
      && o in s.roles && o in t.roles
      && (!ok ==> t.roles[o].Disconnected() && t.roles[o].dcSince == s.fibers[f].now)
      && (!ok && s.idleLimit <= 0 ==> f in t.fibers && t.fibers[f].VisitLoggingOut?)
      && (ok && s.roles[o].Disconnected() && s.fibers[f].now - s.roles[o].dcSince >= s.idleLimit ==>
           f in t.fibers && t.fibers[f].VisitLoggingOut?)
  {
    assert EntryOk(s, roid, s.fibers[f].hyd);
  }

  /** A check of another object, or one that logs out, takes the role away. */
  lemma CheckTakesAway(s: State, f: nat, ok: bool, roid: int, o: nat) returns (es: seq<Event>)
    requires Inv(s) && Checks(s, f, roid) && IsHeld(s, roid, o)
    requires s.fibers[f].hyd.role != o
      || (Enabled(s, EChecked(f, ok)) &&
          var t := Step(s, EChecked(f, ok)); f in t.fibers && t.fibers[f].VisitLoggingOut?)
    ensures Continuation(s, es) && !IsHeld(Run(s, es), roid, o)
  {
    CheckGoesOn(s, f, ok, roid);
    StepKeepsInv(s, EChecked(f, ok));
    var rest := CanEnd(Step(s, EChecked(f, ok)), f);
    FirstGoesOn(s, EChecked(f, ok), rest);
    es := [EChecked(f, ok)] + rest;
  }

  lemma StragglerTakesAway(s: State, f: nat, roid: int, o: nat) returns (es: seq<Event>)
    requires Inv(s) && TicketsOk(s) && IsHeld(s, roid, o)
    requires HoldsRole(s, f, roid) && (Releasing(s.fibers[f]) || s.fibers[f].hyd.role != o)
    ensures Continuation(s, es) && !IsHeld(Run(s, es), roid, o)
  {
    if Awaits(s.fibers[f]) {
      es := CanEnd(s, f);
    } else {
      es := CheckTakesAway(s, f, true, roid, o);
    }
  }

  /** Of two checks the first one finds the client gone, and the second one takes that for long enough. */
  lemma ChecksTakeAway(s: State, f: nat, g: nat, roid: int, o: nat) returns (es: seq<Event>)
    requires Inv(s) && IsHeld(s, roid, o) && NoStraggler(s, roid, o)
    requires Checks(s, f, roid) && Checks(s, g, roid) && s.fibers[g].now - s.fibers[f].now >= s.idleLimit
    ensures Continuation(s, es) && !IsHeld(Run(s, es), roid, o)
  {
    CheckDecides(s, f, false, roid);
    if f == g {
      es := CheckTakesAway(s, f, false, roid, o);
    } else {
      var t := Step(s, EChecked(f, false));
      CheckGoesOn(s, f, false, roid);
      StepKeepsInv(s, EChecked(f, false));
      CheckDecides(t, g, true, roid);
      var rest := CheckTakesAway(t, g, true, roid, o);
      FirstGoesOn(s, EChecked(f, false), rest);
      es := [EChecked(f, false)] + rest;
    }
  }

  // ----- The exact condition -----

  /** A connected role stays in the table, whatever the suspended handlers do, exactly if none of them is releasing it
      or has another object of it in hand, and no two checks of it are further apart than an inactivity logout takes. */
  lemma RoleIsKeptIff(s: State, roid: int, o: nat)
    requires Inv(s) && TicketsOk(s) && IsHeld(s, roid, o) && !s.roles[o].Disconnected()
    ensures Kept(s, roid, o) <==> Undisturbed(s, roid, o)
  {
    if Undisturbed(s, roid, o) {
      forall es | Continuation(s, es) ensures IsHeld(Run(s, es), roid, o) {
        RunKeepsSafe(s, es, roid, o);
      }
    } else if !NoStraggler(s, roid, o) {
      var f :| HoldsRole(s, f, roid) && !(!Releasing(s.fibers[f]) && s.fibers[f].hyd.role == o);
      var es := StragglerTakesAway(s, f, roid, o);
    } else {
      var f, g :| Checks(s, f, roid) && Checks(s, g, roid) && s.fibers[g].now - s.fibers[f].now >= s.idleLimit;
      var es := ChecksTakeAway(s, f, g, roid, o);
    }
  }

  /** The step answers a login or reconnection of the role with "gs_ok". */
  predicate Takes(s: State, e: Event, roid: int) {
    Accepts(s, e, roid) ||
    (e.EReconnect? && var last := LastHydrated(s.hydRoles, e.roids); last.Some? && last.value.roid == roid)
  }

  lemma TakenIsConnected(s: State, e: Event, roid: int)
    requires Inv(s) && Enabled(s, e) && Takes(s, e, roid)
    ensures var t := Step(s, e);
      roid in t.hydRoles && t.hydRoles[roid].role in t.roles && !t.roles[t.hydRoles[roid].role].Disconnected()
  {
  }

  /** Ticks do not overlap and check a role at most once. */
  ghost predicate OneCheck(s: State, roid: int) {
    forall f, g :: Checks(s, f, roid) && Checks(s, g, roid) ==> f == g
  }

  /** A login or reconnection that has been answered with "gs_ok" keeps its role exactly under that condition; with a
      positive duration and at most one check of the role at a time, exactly if there is no straggler. */
  lemma LoginIsKeptIff(s: State, e: Event, roid: int)
    requires Inv(s) && TicketsOk(s) && AllAwaited(s) && Enabled(s, e) && Takes(s, e, roid)
    ensures var t := Step(s, e);
      roid in t.hydRoles &&
      var o := t.hydRoles[roid].role;
      && (Kept(t, roid, o) <==> Undisturbed(t, roid, o))
      && (t.idleLimit > 0 && OneCheck(t, roid) ==> (Kept(t, roid, o) <==> NoStraggler(t, roid, o)))
  {
    StepKeepsInv(s, e);
    StepKeepsTickets(s, e);
    TakenIsConnected(s, e, roid);
    RoleIsKeptIff(Step(s, e), roid, Step(s, e).hydRoles[roid].role);
  }

  /** A new object is in nobody's hand. */
  lemma NewObjectIsUndisturbedIff(s: State, e: Event, roid: int)
    requires Inv(s) && Enabled(s, e) && e.ELoaded? && e.found == Some(roid) && roid !in s.hydRoles
    ensures Undisturbed(Step(s, e), roid, e.o) <==> NoOverlap(s, e)
  {
    var t := Step(s, e);
    forall f | HoldsRole(s, f, roid) ensures HoldsRole(t, f, roid) && t.fibers[f].hyd.role != e.o {
      assert EntryOk(s, roid, s.fibers[f].hyd);
    }
    assert forall f :: HoldsRole(t, f, roid) ==> HoldsRole(s, f, roid);
    if NoOverlap(s, e) {
      assert forall f :: !HoldsRole(s, f, roid);
    } else {
      var f :| f in s.fibers && !s.fibers[f].LoginFetching? && s.fibers[f].roid == roid;
      assert HoldsRole(s, f, roid);
    }
  }

  /** For a login that hydrates the role anew, the condition is `NoOverlap`. */
  lemma HydrationIsKeptIff(s: State, e: Event, roid: int)
    requires Inv(s) && TicketsOk(s) && AllAwaited(s) && Enabled(s, e) && Takes(s, e, roid) && roid !in s.hydRoles
    ensures e.ELoaded? && (Kept(Step(s, e), roid, e.o) <==> NoOverlap(s, e))
  {
    LoginIsKeptIff(s, e, roid);
    NewObjectIsUndisturbedIff(s, e, roid);
    assert Step(s, e).hydRoles[roid].role == e.o;
  }
}
