/** Launching keeps the invariant: slot by slot, with reuse of expired waiting entries. */
module RpcLaunch {
  import opened RpcFutures
  import opened RpcInvariants

  // ----- The iteration for one slot -----

  /** Slot k of future f has got this request, and nothing happened to any other slot. */
  ghost predicate SlotStarted(s: State, t: State, f: nat, k: nat, request: Uuid) {
    && IsSlot(s, f, k) && SlotAt(s, f, k).request == 0 && request !in s.issued && 0 in s.issued
    && IsSlot(t, f, k) && SlotAt(t, f, k).request == request && SlotAt(t, f, k).service == SlotAt(s, f, k).service
    && t.futures == s.futures[f := s.futures[f].(slots := s.futures[f].slots[k := SlotAt(t, f, k)])]
    && t.issued == s.issued + {request} && t.born == s.born && t.self == s.self
  }

  /** No live watcher is dropped, and the only new one is that of the new request. */
  ghost predicate WatchersGrow(s: State, t: State, f: nat, k: nat, request: Uuid)
    requires IsSlot(t, f, k)
  {
    && (forall x, entry :: Enrolled(s, x, entry) && entry.future in s.futures ==> Enrolled(t, x, entry))
    && (forall x, entry :: Enrolled(t, x, entry) ==>
         Enrolled(s, x, entry) || (entry == Entry(f, request) && x == SlotAt(t, f, k).service != s.self))
    && s.fibers <= t.fibers
    && (forall entry :: entry in t.fibers ==>
         entry in s.fibers || (entry == Entry(f, request) && SlotAt(t, f, k).service == s.self))
  }

  lemma {:induction false} EnrollDropsNobodyAlive(s: State, waiting: seq<Entry>, entry: Entry)
    ensures forall e :: e in waiting && e.future in s.futures ==> e in Enroll(s, waiting, entry)
    ensures forall e :: e in Enroll(s, waiting, entry) ==> e in waiting || e == entry
    ensures entry in Enroll(s, waiting, entry)
  {
    var i := FirstExpired(s, waiting);
    var w := Enroll(s, waiting, entry);
    forall e | e in waiting && e.future in s.futures
      ensures e in w
    {
      var j :| 0 <= j < |waiting| && waiting[j] == e;
      assert w[j] == e;
    }
    assert w[i] == entry;
  }

  lemma EnrollKeepsRequestsDistinct(s: State, waiting: seq<Entry>, entry: Entry)
    requires DistinctRequests(waiting) && forall e :: e in waiting ==> e.request != entry.request
    ensures DistinctRequests(Enroll(s, waiting, entry))
  {
  }

  lemma SetTwice(s: State, t: State, f: nat, k: nat, a: Slot, b: Slot)
    requires IsSlot(s, f, k) && t.futures == SetSlot(s, f, k, a).futures
    ensures SetSlot(t, f, k, b).futures == SetSlot(s, f, k, b).futures
  {
    var slots := s.futures[f].slots;
    assert slots[k := a][k := b] == slots[k := b];
  }

  lemma LaunchSlotStarts(s: State, f: nat, k: nat, request: Uuid, session: nat)
    requires IsSlot(s, f, k) && SlotAt(s, f, k).request == 0 && request !in s.issued && 0 in s.issued
    ensures SlotStarted(s, LaunchSlot(s, f, k, request, session), f, k, request)
  {
    var slot := SlotAt(s, f, k).(request := request);
    var t := SetSlot(s, f, k, slot);
    var missing := slot.(error := "Service not found", complete := true);
    var refused := slot.(error := "Service unreachable", complete := true);
    SetTwice(s, t, f, k, slot, missing);
    SetTwice(s, t, f, k, slot, refused);
    var u := LaunchSlot(s, f, k, request, session);
    assert u.futures == t.futures || u.futures == SetSlot(s, f, k, missing).futures
      || u.futures == SetSlot(s, f, k, refused).futures;
  }

  ghost function WaitingAt(s: State, service: Uuid): seq<Entry> {
    if service in s.connections then s.connections[service].waiting else []
  }

  lemma EnrollGrows(s: State, t: State, service: Uuid, entry: Entry)
    requires service in t.connections && t.connections == s.connections[service := t.connections[service]]
    requires t.connections[service].waiting == Enroll(s, WaitingAt(s, service), entry)
    ensures forall x, e :: Enrolled(s, x, e) && e.future in s.futures ==> Enrolled(t, x, e)
    ensures forall x, e :: Enrolled(t, x, e) ==> Enrolled(s, x, e) || (e == entry && x == service)
    ensures Enrolled(t, service, entry)
  {
    EnrollDropsNobodyAlive(s, WaitingAt(s, service), entry);
  }

  /** What the iteration does to the waiting lists and the fibers. */
  lemma LaunchSlotWatch(s: State, f: nat, k: nat, request: Uuid, session: nat)
    requires IsSlot(s, f, k) && !SlotAt(s, f, k).complete
    ensures var service, t, entry := SlotAt(s, f, k).service, LaunchSlot(s, f, k, request, session), Entry(f, request);
      && IsSlot(t, f, k)
      && (service == s.self ==> t.connections == s.connections && t.fibers == s.fibers + {entry})
      && (service != s.self ==> t.fibers == s.fibers)
      && (service != s.self && SlotAt(t, f, k).complete ==>
           forall x :: WaitingAt(t, x) == WaitingAt(s, x))
      && (service != s.self && !SlotAt(t, f, k).complete ==>
           && service in t.connections && t.connections == s.connections[service := t.connections[service]]
           && t.connections[service].waiting == Enroll(s, WaitingAt(s, service), entry))
  {
    var slot := SlotAt(s, f, k).(request := request);
    var u := SetSlot(s, f, k, slot).(issued := s.issued + {request});
    assert ConnOf(u, slot.service).waiting == WaitingAt(s, slot.service);
    SameFirstExpired(u, s, WaitingAt(s, slot.service));
  }

  lemma {:induction false} SameFirstExpired(s: State, t: State, waiting: seq<Entry>)
    requires s.futures.Keys == t.futures.Keys
    ensures FirstExpired(s, waiting) == FirstExpired(t, waiting)
    decreases |waiting|
  {
    if waiting != [] {
      SameFirstExpired(s, t, waiting[1..]);
    }
  }

  lemma LaunchSlotGrowsWatchers(s: State, f: nat, k: nat, request: Uuid, session: nat)
    requires IsSlot(s, f, k) && SlotAt(s, f, k).request == 0 && request !in s.issued && 0 in s.issued
    requires !SlotAt(s, f, k).complete
    ensures var t := LaunchSlot(s, f, k, request, session);
      && WatchersGrow(s, t, f, k, request)
      && (SlotAt(t, f, k).complete || Watched(t, f, SlotAt(t, f, k)))
  {
    var t, service := LaunchSlot(s, f, k, request, session), SlotAt(s, f, k).service;
    LaunchSlotStarts(s, f, k, request, session);
    LaunchSlotWatch(s, f, k, request, session);
    if service != s.self {
      if SlotAt(t, f, k).complete {
        assert forall x, e :: Enrolled(t, x, e) <==> e in WaitingAt(t, x);
      } else {
        EnrollGrows(s, t, service, Entry(f, request));
      }
    }
  }

  lemma LaunchSlotKeepsLists(s: State, f: nat, k: nat, request: Uuid, session: nat)
    requires Core(s) && IsSlot(s, f, k) && !SlotAt(s, f, k).complete && request !in s.issued
    ensures ListsOk(LaunchSlot(s, f, k, request, session))
  {
    var service := SlotAt(s, f, k).service;
    var waiting := WaitingAt(s, service);
    forall e | e in waiting ensures e.request != request {
      assert Enrolled(s, service, e);
    }
    assert DistinctRequests(waiting);
    EnrollKeepsRequestsDistinct(s, waiting, Entry(f, request));
    LaunchSlotWatch(s, f, k, request, session);
    var t := LaunchSlot(s, f, k, request, session);
    assert forall x :: x in t.connections ==> t.connections[x].waiting == WaitingAt(t, x);
    assert forall x :: DistinctRequests(WaitingAt(s, x));
  }

  lemma StartedSlot(s: State, t: State, f: nat, k: nat, request: Uuid, g: nat, j: nat)
    requires SlotStarted(s, t, f, k, request) && IsSlot(t, g, j)
    ensures IsSlot(s, g, j)
    ensures (g == f && j == k) || SlotAt(t, g, j) == SlotAt(s, g, j)
  {
  }

  lemma StartKeepsUnique(s: State, t: State, f: nat, k: nat, request: Uuid)
    requires SlotStarted(s, t, f, k, request) && Unique(s)
    ensures Unique(t)
  {
    forall g, j | IsSlot(t, g, j)
      ensures IsSlot(s, g, j)
      ensures (g == f && j == k) || SlotAt(t, g, j) == SlotAt(s, g, j)
    {
      StartedSlot(s, t, f, k, request, g, j);
    }
  }

  lemma StartKeepsRefers(s: State, t: State, f: nat, k: nat, request: Uuid, entry: Entry, service: Uuid)
    requires SlotStarted(s, t, f, k, request) && Refers(s, entry, service)
    ensures Refers(t, entry, service)
  {
    if entry.future in s.futures {
      var j :| Names(s, entry, service, j);
      assert Names(t, entry, service, j);
    }
  }

  lemma StartKeepsEntries(s: State, t: State, f: nat, k: nat, request: Uuid)
    requires SlotStarted(s, t, f, k, request) && WatchersGrow(s, t, f, k, request) && EntriesOk(s) && f in s.born
    ensures EntriesOk(t)
  {
    assert Names(t, Entry(f, request), SlotAt(t, f, k).service, k);
    forall x, entry | Enrolled(t, x, entry)
      ensures x != t.self && Refers(t, entry, x)
    {
      if Enrolled(s, x, entry) {
        StartKeepsRefers(s, t, f, k, request, entry, x);
      }
    }
    forall entry | entry in t.fibers
      ensures Refers(t, entry, t.self)
    {
      if entry in s.fibers {
        StartKeepsRefers(s, t, f, k, request, entry, s.self);
      }
    }
  }

  lemma StartKeepsNoOrphan(s: State, t: State, f: nat, k: nat, request: Uuid)
    requires SlotStarted(s, t, f, k, request) && WatchersGrow(s, t, f, k, request) && NoOrphan(s)
    requires SlotAt(t, f, k).complete || Watched(t, f, SlotAt(t, f, k))
    ensures NoOrphan(t)
  {
    forall g, j | Open(t, g, j)
      ensures Watched(t, g, SlotAt(t, g, j))
    {
      StartedSlot(s, t, f, k, request, g, j);
      if !(g == f && j == k) {
        assert Open(s, g, j);
        assert Watched(s, g, SlotAt(s, g, j));
      }
    }
  }

  lemma LaunchSlotKeepsCore(s: State, f: nat, k: nat, request: Uuid, session: nat)
    requires Core(s) && IsSlot(s, f, k) && SlotAt(s, f, k).request == 0 && request !in s.issued
    requires !SlotAt(s, f, k).complete
    ensures Core(LaunchSlot(s, f, k, request, session))
  {
    var t := LaunchSlot(s, f, k, request, session);
    LaunchSlotStarts(s, f, k, request, session);
    LaunchSlotGrowsWatchers(s, f, k, request, session);
    LaunchSlotKeepsLists(s, f, k, request, session);
    StartKeepsUnique(s, t, f, k, request);
    StartKeepsEntries(s, t, f, k, request);
    StartKeepsNoOrphan(s, t, f, k, request);
  }

  // ----- The whole launch -----

  /** Slots before k are started, those from k on are not. */
  ghost predicate HalfLaunched(fut: Future, k: nat) {
    && (forall j :: 0 <= j < |fut.slots| ==> (fut.slots[j].request != 0 <==> j < k))
    && (forall j :: k <= j < |fut.slots| ==> !fut.slots[j].complete)
  }

  ghost predicate UnissuedFrom(s: State, requests: seq<Uuid>, k: nat) {
    forall j :: k <= j < |requests| ==> requests[j] !in s.issued
  }

  lemma {:induction false} LaunchFromKeepsCore(s: State, f: nat, k: nat, requests: seq<Uuid>, sessions: seq<nat>)
    requires Core(s) && f in s.futures && |s.futures[f].slots| == |requests| == |sessions| && k <= |requests|
    requires HalfLaunched(s.futures[f], k) && Distinct(requests) && UnissuedFrom(s, requests, k)
    ensures var t := LaunchFrom(s, f, k, requests, sessions);
      && Core(t) && t.futures.Keys == s.futures.Keys && HalfLaunched(t.futures[f], |requests|)
      && (forall g :: g in s.futures && g != f ==> t.futures[g] == s.futures[g])
      && |t.futures[f].slots| == |requests|
    decreases |requests| - k
  {
    if k < |requests| {
      var t := LaunchSlot(s, f, k, requests[k], sessions[k]);
      LaunchSlotKeepsCore(s, f, k, requests[k], sessions[k]);
      LaunchSlotStarts(s, f, k, requests[k], sessions[k]);
      LaunchFromKeepsCore(t, f, k + 1, requests, sessions);
    }
  }

  lemma LaunchKeepsInv(s: State, f: nat, requests: seq<Uuid>, sessions: seq<nat>)
    requires Inv(s) && Enabled(s, DoLaunch(f, requests, sessions))
    ensures Inv(Step(s, DoLaunch(f, requests, sessions)))
    ensures var t := Step(s, DoLaunch(f, requests, sessions));
      t.futures.Keys == s.futures.Keys && forall g :: g in s.futures && g != f ==> t.futures[g] == s.futures[g]
  {
    assert UnlaunchedOk(s.futures[f]);
    LaunchFromKeepsCore(s, f, 0, requests, sessions);
    var t := LaunchFrom(s, f, 0, requests, sessions);
    var u := Step(s, DoLaunch(f, requests, sessions));
    MarkKeepsCore(t, u, f);
    assert LaunchedOk(u.futures[f]);
  }

  /** Setting the marks of a future does not touch any slot. */
  lemma MarkKeepsCore(s: State, t: State, f: nat)
    requires Core(s) && f in s.futures && f in t.futures && t == s.(futures := s.futures[f := t.futures[f]])
    requires t.futures[f].slots == s.futures[f].slots
    ensures Core(t)
  {
    forall g, k | IsSlot(t, g, k)
      ensures IsSlot(s, g, k) && SlotAt(t, g, k) == SlotAt(s, g, k)
    {
    }
    MarkKeepsEntries(s, t, f);
    forall g, k | Open(t, g, k) ensures Watched(t, g, SlotAt(t, g, k)) {
      assert Open(s, g, k);
    }
  }

  lemma MarkKeepsEntries(s: State, t: State, f: nat)
    requires EntriesOk(s) && f in s.futures && f in t.futures && t == s.(futures := s.futures[f := t.futures[f]])
    requires t.futures[f].slots == s.futures[f].slots
    ensures EntriesOk(t)
  {
    forall entry, service | Refers(s, entry, service)
      ensures Refers(t, entry, service)
    {
      if entry.future in s.futures {
        var k :| Names(s, entry, service, k);
        assert Names(t, entry, service, k);
      }
    }
    forall x, entry | Enrolled(t, x, entry) ensures x != t.self && Refers(t, entry, x) {
      assert Enrolled(s, x, entry);
    }
  }

  // ----- New futures -----

  lemma NewKeepsInv(s: State, f: nat, targets: seq<Uuid>)
    requires Inv(s) && f !in s.born
    ensures Inv(Step(s, New(f, targets)))
    ensures forall g :: g in s.futures ==> Step(s, New(f, targets)).futures[g] == s.futures[g]
  {
    var t := Step(s, New(f, targets));
    forall g, k | IsSlot(t, g, k)
      ensures if g == f then SlotAt(t, g, k).request == 0 else IsSlot(s, g, k) && SlotAt(t, g, k) == SlotAt(s, g, k)
    {
    }
    NewKeepsEntries(s, f, targets);
    forall g, k | Open(t, g, k) ensures Watched(t, g, SlotAt(t, g, k)) {
      assert Open(s, g, k);
      assert Watched(s, g, SlotAt(s, g, k));
    }
    assert UnlaunchedOk(t.futures[f]);
  }

  lemma NewKeepsEntries(s: State, f: nat, targets: seq<Uuid>)
    requires Core(s) && f !in s.born
    ensures EntriesOk(Step(s, New(f, targets)))
  {
    var t := Step(s, New(f, targets));
    forall entry, service | Refers(s, entry, service)
      ensures Refers(t, entry, service)
    {
      if entry.future in s.futures {
        var k :| Names(s, entry, service, k);
        assert Names(t, entry, service, k);
      }
    }
    forall x, entry | Enrolled(t, x, entry) ensures x != t.self && Refers(t, entry, x) {
      assert Enrolled(s, x, entry);
    }
  }
}
