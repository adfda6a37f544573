/** How long waiting lists get, and which slots fail at once. */
module RpcWaiting {
  import opened Options
  import opened RpcFutures
  import opened RpcInvariants
  import opened RpcLaunch
  import opened RpcRuns

  // ----- Length of waiting lists -----

  /** The number of entries whose futures are alive. */
  ghost function LiveEntries(s: State, waiting: seq<Entry>): nat {
    if waiting == [] then 0 else (if waiting[0].future in s.futures then 1 else 0) + LiveEntries(s, waiting[1..])
  }

  ghost predicate AllLive(s: State, waiting: seq<Entry>) {
    forall i :: 0 <= i < |waiting| ==> waiting[i].future in s.futures
  }

  /** The list did not get longer, or nothing in it has expired. */
  ghost predicate Bounded(s: State, t: State, x: Uuid) {
    |WaitingAt(t, x)| <= |WaitingAt(s, x)| || AllLive(t, WaitingAt(t, x))
  }

  lemma {:induction false} AllLiveCount(s: State, waiting: seq<Entry>)
    requires AllLive(s, waiting)
    ensures LiveEntries(s, waiting) == |waiting|
  {
    if waiting != [] {
      AllLiveCount(s, waiting[1..]);
    }
  }

  lemma EnrollBounded(s: State, waiting: seq<Entry>, entry: Entry)
    requires entry.future in s.futures
    ensures |Enroll(s, waiting, entry)| <= |waiting| || AllLive(s, Enroll(s, waiting, entry))
    ensures AllLive(s, waiting) ==> AllLive(s, Enroll(s, waiting, entry))
  {
  }

  lemma LaunchSlotBounded(s: State, f: nat, k: nat, request: Uuid, session: nat, x: Uuid)
    requires IsSlot(s, f, k)
    ensures var t := LaunchSlot(s, f, k, request, session);
      && t.futures.Keys == s.futures.Keys && Bounded(s, t, x)
      && (AllLive(s, WaitingAt(s, x)) ==> AllLive(t, WaitingAt(t, x)))
  {
    EnrollBounded(s, WaitingAt(s, x), Entry(f, request));
  }

  lemma {:induction false} LaunchFromBounded(s: State, f: nat, k: nat, requests: seq<Uuid>, sessions: seq<nat>, x: Uuid)
    requires f in s.futures && |s.futures[f].slots| == |requests| == |sessions| && k <= |requests|
    ensures var t := LaunchFrom(s, f, k, requests, sessions);
      && t.futures.Keys == s.futures.Keys && Bounded(s, t, x)
      && (AllLive(s, WaitingAt(s, x)) ==> AllLive(t, WaitingAt(t, x)))
    decreases |requests| - k
  {
    if k < |requests| {
      LaunchSlotBounded(s, f, k, requests[k], sessions[k], x);
      LaunchFromBounded(LaunchSlot(s, f, k, requests[k], sessions[k]), f, k + 1, requests, sessions, x);
    }
  }

  lemma StepBounded(s: State, e: Event, x: Uuid)
    requires Enabled(s, e)
    ensures Bounded(s, Step(s, e), x)
  {
    match e
    case DoLaunch(f, requests, sessions) => LaunchFromBounded(s, f, 0, requests, sessions, x);
    case Refresh(services, expired) => LoseAllKeepsSessions(s.(services := services), expired);
    case _ =>
  }

  /** A waiting list is never longer than the number of live entries that were in it together at some moment: at
      moment n all its entries were alive, and there were at least as many as now. */
  lemma {:induction false} WaitingListIsBounded(self: Uuid, es: seq<Event>, x: Uuid) returns (n: nat)
    requires Legal(self, es)
    ensures n <= |es| && Legal(self, es[..n])
    ensures var s := Run(self, es[..n]);
      |WaitingAt(Run(self, es), x)| <= LiveEntries(s, WaitingAt(s, x)) == |WaitingAt(s, x)|
    decreases |es|
  {
    n := |es|;
    assert es[..n] == es;
    var t := Run(self, es);
    if AllLive(t, WaitingAt(t, x)) {
      AllLiveCount(t, WaitingAt(t, x));
    } else {
      var past := es[..|es| - 1];
      StepBounded(Run(self, past), es[|es| - 1], x);
      n := WaitingListIsBounded(self, past, x);
      assert past[..n] == es[..n];
    }
  }

  // ----- Immediate failures -----

  /** The error with which `launch` fails a slot for this service at once, if it does. */
  ghost function Refusal(s: State, service: Uuid): Option<string> {
    if service == s.self then None
    else if service !in s.services then Some("Service not found")
    else if !s.services[service] && !HasSession(s, service) then Some("Service unreachable")
    else None
  }

  ghost predicate HasSession(s: State, service: Uuid) {
    && service in s.connections
    && s.connections[service].session.Some? && s.connections[service].session.value in s.alive
  }

  ghost predicate LaunchedAs(slot: Slot, refusal: Option<string>) {
    match refusal
    case None => !slot.complete
    case Some(error) => slot.complete && slot.error == error
  }

  lemma SlotIsLaunched(s: State, f: nat, k: nat, request: Uuid, session: nat)
    requires IsSlot(s, f, k) && !SlotAt(s, f, k).complete && NewSession(s, session)
    ensures var t := LaunchSlot(s, f, k, request, session);
      IsSlot(t, f, k) && LaunchedAs(SlotAt(t, f, k), Refusal(s, SlotAt(s, f, k).service))
  {
  }

  lemma RefusalStays(s: State, f: nat, k: nat, request: Uuid, session: nat, x: Uuid)
    requires IsSlot(s, f, k) && NewSession(s, session)
    ensures Refusal(LaunchSlot(s, f, k, request, session), x) == Refusal(s, x)
  {
  }

  lemma LaunchSlotRefuses(s: State, f: nat, k: nat, request: Uuid, session: nat)
    requires IsSlot(s, f, k) && !SlotAt(s, f, k).complete
    requires NewSession(s, session)
    ensures var t := LaunchSlot(s, f, k, request, session);
      && IsSlot(t, f, k) && LaunchedAs(SlotAt(t, f, k), Refusal(s, SlotAt(s, f, k).service))
      && (forall x :: Refusal(t, x) == Refusal(s, x))
      && (forall i :: NewSession(s, i) && i != session ==> NewSession(t, i))
  {
    SlotIsLaunched(s, f, k, request, session);
    forall x ensures Refusal(LaunchSlot(s, f, k, request, session), x) == Refusal(s, x) {
      RefusalStays(s, f, k, request, session, x);
    }
  }

  ghost predicate FreshFrom(s: State, sessions: seq<nat>, k: nat) {
    forall j :: k <= j < |sessions| ==> NewSession(s, sessions[j])
  }

  /** Where the loop stands before slot k, as far as slot j is concerned. */
  ghost predicate RefusedSoFar(s: State, f: nat, k: nat, n: nat, sessions: seq<nat>, j: nat, refusal: Option<string>) {
    && f in s.futures && |s.futures[f].slots| == n == |sessions| && k <= n && j < n
    && FreshFrom(s, sessions, k)
    && (forall i :: k <= i < n ==> !s.futures[f].slots[i].complete)
    && Refusal(s, s.futures[f].slots[j].service) == refusal
    && (j < k ==> LaunchedAs(s.futures[f].slots[j], refusal))
  }

  lemma OtherSlotsStay(s: State, f: nat, k: nat, request: Uuid, session: nat)
    requires IsSlot(s, f, k)
    ensures var t := LaunchSlot(s, f, k, request, session);
      && IsSlot(t, f, k) && |t.futures[f].slots| == |s.futures[f].slots|
      && SlotAt(t, f, k).service == SlotAt(s, f, k).service
      && forall i :: 0 <= i < |s.futures[f].slots| && i != k ==> t.futures[f].slots[i] == s.futures[f].slots[i]
  {
  }

  lemma OneMoreRefused(s: State, f: nat, k: nat, request: Uuid, sessions: seq<nat>, j: nat, refusal: Option<string>)
    requires RefusedSoFar(s, f, k, |sessions|, sessions, j, refusal) && Distinct(sessions) && k < |sessions|
    ensures RefusedSoFar(LaunchSlot(s, f, k, request, sessions[k]), f, k + 1, |sessions|, sessions, j, refusal)
  {
    var t := LaunchSlot(s, f, k, request, sessions[k]);
    LaunchSlotRefuses(s, f, k, request, sessions[k]);
    OtherSlotsStay(s, f, k, request, sessions[k]);
    var service := s.futures[f].slots[j].service;
    assert t.futures[f].slots[j].service == service;
    assert Refusal(t, service) == Refusal(s, service);
  }

  lemma {:induction false} LaunchFromRefuses(s: State, f: nat, k: nat, requests: seq<Uuid>, sessions: seq<nat>, j: nat,
                                             refusal: Option<string>)
    requires |requests| == |sessions| && Distinct(sessions)
    requires RefusedSoFar(s, f, k, |sessions|, sessions, j, refusal)
    ensures var t := LaunchFrom(s, f, k, requests, sessions); IsSlot(t, f, j) && LaunchedAs(SlotAt(t, f, j), refusal)
    decreases |requests| - k
  {
    if k < |requests| {
      OneMoreRefused(s, f, k, requests[k], sessions, j, refusal);
      LaunchFromRefuses(LaunchSlot(s, f, k, requests[k], sessions[k]), f, k + 1, requests, sessions, j, refusal);
    }
  }

  /** Right after the launch a slot is complete exactly if its service is not known, or has no usable address and no
      live session; it depends on the state before the launch, not on the other targets. The future is complete
      exactly if that holds of all its targets. */
  lemma LaunchFailsExactlyTheRefused(s: State, f: nat, requests: seq<Uuid>, sessions: seq<nat>)
    requires Inv(s) && Enabled(s, DoLaunch(f, requests, sessions))
    ensures var t := Step(s, DoLaunch(f, requests, sessions));
      && f in t.futures && |t.futures[f].slots| == |s.futures[f].slots|
      && (forall j :: 0 <= j < |requests| ==>
           LaunchedAs(t.futures[f].slots[j], Refusal(s, s.futures[f].slots[j].service)))
      && (t.futures[f].completed <==>
           forall j :: 0 <= j < |requests| ==> Refusal(s, s.futures[f].slots[j].service).Some?)
  {
    LaunchKeepsInv(s, f, requests, sessions);
    LaunchFromKeepsTargets(s, f, 0, requests, sessions);
    var t := Step(s, DoLaunch(f, requests, sessions));
    assert UnlaunchedOk(s.futures[f]);
    forall j | 0 <= j < |requests|
      ensures LaunchedAs(t.futures[f].slots[j], Refusal(s, s.futures[f].slots[j].service))
    {
      LaunchFromRefuses(s, f, 0, requests, sessions, j, Refusal(s, s.futures[f].slots[j].service));
    }
  }
}
