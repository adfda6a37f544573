/** A role whose client is there stays, whatever the save ticks do: the converse of the reaping of orphans. */
module ConfirmedRoles {
  import opened LogicRoles
  import opened LogicRelease
  import opened LoginKept
  import opened SaveTicks
  import opened RoleEffects

  // ----- Over runs -----

  /** The role is in the table, connected, and no suspended handler is releasing it or has another object of it. */
  ghost predicate Present(s: State, roid: int, o: nat) {
    RefsOk(s) && IsHeld(s, roid, o) && s.roles[o].agent != 0 && NoStraggler(s, roid, o)
  }

  /** Nobody disconnects role `roid` or logs it out, and the agent confirms its client. */
  predicate Kind(s: State, e: Event, roid: int)
    requires Enabled(s, e)
  {
    match e
    case EDisconnect(r, _) => r != roid
    case ELogout(_, r, _) => r != roid
    case EChecked(f, ok) => s.fibers[f].roid == roid ==> ok
    case _ => true
  }

  lemma RequestKeepsPresent(s: State, e: Event, roid: int, o: nat)
    requires Present(s, roid, o) && Enabled(s, e) && Kind(s, e, roid) && RefsOk(Step(s, e))
    requires e.ELogin? || e.ELoaded? || e.EReconnect? || e.EDisconnect?
    ensures Present(Step(s, e), roid, o)
  {
  }

  lemma LogoutKeepsPresent(s: State, e: Event, roid: int, o: nat)
    requires Present(s, roid, o) && Enabled(s, e) && Kind(s, e, roid) && RefsOk(Step(s, e))
    requires e.ELogout? || e.EStored? || e.EApply?
    ensures Present(Step(s, e), roid, o)
  {
    assert e.EStored? && s.fibers[e.f].roid == roid ==> HoldsRole(s, e.f, roid);
  }

  lemma VisitKeepsPresent(s: State, e: Event, roid: int, o: nat)
    requires Present(s, roid, o) && Enabled(s, e) && Kind(s, e, roid) && RefsOk(Step(s, e)) && e.EVisit?
    ensures Present(Step(s, e), roid, o)
  {
  }

  lemma OwnCheckKeepsPresent(s: State, e: Event, roid: int, o: nat)
    requires Present(s, roid, o) && Enabled(s, e) && RefsOk(Step(s, e))
    requires e.EChecked? && s.fibers[e.f].roid == roid && e.ok
    ensures Present(Step(s, e), roid, o)
  {
    var t := Step(s, e);
    assert HoldsRole(s, e.f, roid);
    ConfirmedCheckOnlyStores(s, e.f);
    forall f | HoldsRole(t, f, roid) ensures !Releasing(t.fibers[f]) && t.fibers[f].hyd.role == o {
      assert f != e.f ==> HoldsRole(s, f, roid);
    }
  }

  lemma OtherCheckKeepsPresent(s: State, e: Event, roid: int, o: nat)
    requires Present(s, roid, o) && Enabled(s, e) && RefsOk(Step(s, e)) && e.EChecked? && s.fibers[e.f].roid != roid
    ensures Present(Step(s, e), roid, o)
  {
    var t := Step(s, e);
    assert s.fibers[e.f].hyd.role != o;
    forall f | HoldsRole(t, f, roid) ensures HoldsRole(s, f, roid) && t.fibers[f] == s.fibers[f] {
    }
  }

  lemma StepKeepsPresent(s: State, e: Event, roid: int, o: nat)
    requires Present(s, roid, o) && Enabled(s, e) && Kind(s, e, roid) && RefsOk(Step(s, e))
    ensures Present(Step(s, e), roid, o)
  {
    match e
    case ELogout(_, _, _) => LogoutKeepsPresent(s, e, roid, o);
    case EStored(_) => LogoutKeepsPresent(s, e, roid, o);
    case EApply => LogoutKeepsPresent(s, e, roid, o);
    case EVisit(_, _, _) => VisitKeepsPresent(s, e, roid, o);
    case EChecked(f, _) =>
      if s.fibers[f].roid == roid {
        OwnCheckKeepsPresent(s, e, roid, o);
      } else {
        OtherCheckKeepsPresent(s, e, roid, o);
      }
    case _ => RequestKeepsPresent(s, e, roid, o);
  }

  ghost predicate AllKind(s: State, es: seq<Event>, a: nat, b: nat, roid: int) {
    && Legal(s, es) && a <= b <= |es|
    && forall i :: a <= i < b ==> KindAt(s, es, i, roid)
  }

  ghost predicate KindAt(s: State, es: seq<Event>, i: nat, roid: int) {
    Legal(s, es) && i < |es| && Enabled(After(s, es, i), es[i]) && Kind(After(s, es, i), es[i], roid)
  }

  lemma InvAfter(s: State, es: seq<Event>, n: nat)
    requires Inv(s) && Legal(s, es) && n <= |es|
    ensures Inv(After(s, es, n)) && After(s, es, n).idleLimit == s.idleLimit
  {
    RunPrefix(s, es, n);
    RunKeepsInv(s, es[..n]);
  }

  /** In any run: a role that is connected, whose checks are all confirmed, and that nobody disconnects or logs out
      stays connected and in the table, with the same object; whatever logins, reconnections, visits and other roles'
      traffic interleave, and however late the ticks are. */
  lemma {:induction false} ConfirmedRoleStays(s: State, es: seq<Event>, a: nat, b: nat, roid: int, o: nat)
    requires Inv(s) && AllKind(s, es, a, b, roid) && Present(After(s, es, a), roid, o)
    ensures Present(After(s, es, b), roid, o)
    decreases b
  {
    if a < b {
      ConfirmedRoleStays(s, es, a, b - 1, roid, o);
      NextAfter(s, es, b - 1);
      InvAfter(s, es, b);
      assert KindAt(s, es, b - 1, roid);
      StepKeepsPresent(After(s, es, b - 1), es[b - 1], roid, o);
    }
  }
}
