/** Theorems about all runs of the futures, whatever the order of replies, closes, expirations and purges. */
module RpcRuns {
  import opened Options
  import opened RpcFutures
  import opened RpcInvariants
  import opened RpcLaunch

  lemma StepKeepsInv(s: State, e: Event)
    requires Inv(s) && Enabled(s, e)
    ensures Inv(Step(s, e))
  {
    match e
    case New(f, targets) => NewKeepsInv(s, f, targets);
    case DoLaunch(f, requests, sessions) => LaunchKeepsInv(s, f, requests, sessions);
    case Expire(f) => ExpireKeepsInv(s, f);
    case FiberDone(entry, payload, error) => FiberDoneKeepsInv(s, entry, payload, error);
    case Reply(session, request, payload, error) => ReplyKeepsInv(s, session, request, payload, error);
    case Close(session) => CloseKeepsInv(s, session);
    case Vanish(session) => VanishKeepsInv(s, session);
    case Refresh(services, expired) => RefreshKeepsInv(s, services, expired);
  }

  // ----- Runs -----

  ghost predicate Legal(self: Uuid, es: seq<Event>)
    decreases |es|, 0
  {
    es == [] || (Legal(self, es[..|es| - 1]) && Enabled(Run(self, es[..|es| - 1]), es[|es| - 1]))
  }

  /** The state of service `self` after these events. */
  ghost function Run(self: Uuid, es: seq<Event>): State
    requires Legal(self, es)
    decreases |es|, 1
  {
    if es == [] then Initial(self) else Step(Run(self, es[..|es| - 1]), es[|es| - 1])
  }

  lemma {:induction false} RunKeepsInv(self: Uuid, es: seq<Event>)
    requires Legal(self, es)
    ensures Inv(Run(self, es))
    decreases |es|
  {
    if es != [] {
      RunKeepsInv(self, es[..|es| - 1]);
      StepKeepsInv(Run(self, es[..|es| - 1]), es[|es| - 1]);
    }
  }

  /** In every run, each open slot of a live future has an unfinished local fiber with its request UUID, or an entry
      in the waiting list of the connection to its service. */
  lemma NoOrphanedRequest(self: Uuid, es: seq<Event>, f: nat, k: nat)
    requires Legal(self, es)
    ensures var s := Run(self, es);
      Open(s, f, k) ==> Watched(s, f, SlotAt(s, f, k))
  {
    RunKeepsInv(self, es);
  }

  /** In every run, a launched future is complete exactly if each of its slots is; zero targets included. */
  lemma CompletedExactlyWhenAllSlotsAre(self: Uuid, es: seq<Event>, f: nat)
    requires Legal(self, es) && f in Run(self, es).futures
    ensures var fut := Run(self, es).futures[f];
      && (fut.launched ==> (fut.completed <==> forall k :: 0 <= k < |fut.slots| ==> fut.slots[k].complete))
      && (!fut.launched ==> !fut.completed)
  {
    RunKeepsInv(self, es);
    assert FutureOk(Run(self, es).futures[f]);
  }

  // ----- Completeness is never undone -----

  ghost predicate SlotAdvances(a: Slot, b: Slot) {
    a.service == b.service && (a.request != 0 ==> b.request == a.request) && (a.complete ==> b.complete)
  }

  ghost predicate Advances(a: Future, b: Future) {
    && |a.slots| == |b.slots| && (forall k :: 0 <= k < |a.slots| ==> SlotAdvances(a.slots[k], b.slots[k]))
    && (a.completed ==> b.completed)
  }

  lemma EvolvesAdvances(s: State, t: State, f: nat)
    requires Evolves(s, t) && f in t.futures
    ensures f in s.futures && Advances(s.futures[f], t.futures[f])
  {
    var a, b := s.futures[f], t.futures[f];
    assert FutureEvolves(a, b);
    forall k | 0 <= k < |a.slots| ensures SlotAdvances(a.slots[k], b.slots[k]) {
      assert SlotEvolves(a.slots[k], b.slots[k]);
    }
  }

  lemma {:induction false} LaunchFromKeepsTargets(s: State, f: nat, k: nat, requests: seq<Uuid>, sessions: seq<nat>)
    requires f in s.futures && |s.futures[f].slots| == |requests| == |sessions| && k <= |requests|
    ensures var t := LaunchFrom(s, f, k, requests, sessions);
      && f in t.futures && |t.futures[f].slots| == |requests|
      && forall j :: 0 <= j < |requests| ==> t.futures[f].slots[j].service == s.futures[f].slots[j].service
    decreases |requests| - k
  {
    if k < |requests| {
      LaunchFromKeepsTargets(LaunchSlot(s, f, k, requests[k], sessions[k]), f, k + 1, requests, sessions);
    }
  }

  lemma LaunchAdvances(s: State, f: nat, requests: seq<Uuid>, sessions: seq<nat>)
    requires Inv(s) && Enabled(s, DoLaunch(f, requests, sessions))
    ensures var t := Step(s, DoLaunch(f, requests, sessions)); f in t.futures && Advances(s.futures[f], t.futures[f])
  {
    assert UnlaunchedOk(s.futures[f]);
    LaunchFromKeepsTargets(s, f, 0, requests, sessions);
  }

  lemma StepAdvances(s: State, e: Event, f: nat)
    requires Inv(s) && Enabled(s, e)
    requires f in s.futures && f in Step(s, e).futures
    ensures Advances(s.futures[f], Step(s, e).futures[f])
  {
    var t := Step(s, e);
    match e
    case New(g, targets) => NewKeepsInv(s, g, targets);
    case DoLaunch(g, requests, sessions) =>
      LaunchKeepsInv(s, g, requests, sessions);
      LaunchAdvances(s, g, requests, sessions);
    case Expire(g) => ExpireKeepsInv(s, g); EvolvesAdvances(s, t, f);
    case FiberDone(entry, payload, error) => FiberDoneKeepsInv(s, entry, payload, error); EvolvesAdvances(s, t, f);
    case Reply(session, request, payload, error) =>
      ReplyKeepsInv(s, session, request, payload, error);
      EvolvesAdvances(s, t, f);
    case Close(session) => CloseKeepsInv(s, session); EvolvesAdvances(s, t, f);
    case Vanish(session) => VanishKeepsInv(s, session); EvolvesAdvances(s, t, f);
    case Refresh(services, expired) => RefreshKeepsInv(s, services, expired); EvolvesAdvances(s, t, f);
  }

  lemma {:induction false} LaunchFromKeepsBorn(s: State, f: nat, k: nat, requests: seq<Uuid>, sessions: seq<nat>)
    requires f in s.futures && |s.futures[f].slots| == |requests| == |sessions| && k <= |requests|
    ensures LaunchFrom(s, f, k, requests, sessions).born == s.born
    decreases |requests| - k
  {
    if k < |requests| {
      LaunchFromKeepsBorn(LaunchSlot(s, f, k, requests[k], sessions[k]), f, k + 1, requests, sessions);
    }
  }

  lemma {:induction false} LoseAllKeepsBorn(s: State, expired: seq<Uuid>)
    ensures LoseAll(s, expired).born == s.born
    decreases |expired|
  {
    if expired != [] {
      LoseAllKeepsBorn(LoseConnection(s, expired[|expired| - 1]), expired[..|expired| - 1]);
    }
  }

  lemma BornGrows(s: State, e: Event)
    requires Enabled(s, e)
    ensures s.born <= Step(s, e).born
  {
    match e
    case DoLaunch(f, requests, sessions) => LaunchFromKeepsBorn(s, f, 0, requests, sessions);
    case Refresh(services, expired) => LoseAllKeepsBorn(s.(services := services), expired);
    case _ =>
  }

  lemma OldFuturesAreNotReborn(s: State, e: Event, f: nat)
    requires Inv(s) && Enabled(s, e) && f in s.born && f in Step(s, e).futures
    ensures f in s.futures
  {
    var t := Step(s, e);
    match e
    case New(g, targets) =>
    case DoLaunch(g, requests, sessions) => LaunchKeepsInv(s, g, requests, sessions);
    case Expire(g) =>
    case FiberDone(entry, payload, error) => FiberDoneKeepsInv(s, entry, payload, error);
    case Reply(session, request, payload, error) => ReplyKeepsInv(s, session, request, payload, error);
    case Close(session) => CloseKeepsInv(s, session);
    case Vanish(session) =>
    case Refresh(services, expired) => RefreshKeepsInv(s, services, expired);
  }

  /** Between any two moments of a run at which a future is alive, no slot that was complete is open again, no
      request UUID changes, and a completed future stays completed. */
  lemma {:induction false} CompletenessIsNeverUndone(self: Uuid, es: seq<Event>, n: nat, f: nat)
    requires n <= |es| && Legal(self, es) && Legal(self, es[..n])
    requires f in Run(self, es[..n]).born && f in Run(self, es).futures
    ensures f in Run(self, es).born
    ensures f in Run(self, es[..n]).futures && Advances(Run(self, es[..n]).futures[f], Run(self, es).futures[f])
    decreases |es|
  {
    RunKeepsInv(self, es);
    if n == |es| {
      assert es[..n] == es;
    } else {
      var past := es[..|es| - 1];
      var s := Run(self, past);
      RunKeepsInv(self, past);
      assert past[..n] == es[..n];
      BornKept(self, past, n);
      OldFuturesAreNotReborn(s, es[|es| - 1], f);
      CompletenessIsNeverUndone(self, past, n, f);
      StepAdvances(s, es[|es| - 1], f);
      AdvancesTransitive(Run(self, es[..n]).futures[f], s.futures[f], Run(self, es).futures[f]);
    }
  }

  lemma AdvancesTransitive(a: Future, b: Future, c: Future)
    requires Advances(a, b) && Advances(b, c)
    ensures Advances(a, c)
  {
    forall k | 0 <= k < |a.slots| ensures SlotAdvances(a.slots[k], c.slots[k]) {
      assert SlotAdvances(a.slots[k], b.slots[k]) && SlotAdvances(b.slots[k], c.slots[k]);
    }
  }

  lemma {:induction false} BornKept(self: Uuid, es: seq<Event>, n: nat)
    requires n <= |es| && Legal(self, es) && Legal(self, es[..n])
    ensures Run(self, es[..n]).born <= Run(self, es).born
    decreases |es|
  {
    if n == |es| {
      assert es[..n] == es;
    } else {
      assert es[..|es| - 1][..n] == es[..n];
      BornKept(self, es[..|es| - 1], n);
      BornGrows(Run(self, es[..|es| - 1]), es[|es| - 1]);
    }
  }

  // ----- Replies -----

  /** A reply changes at most the one slot that has its UUID and belongs to the service which sent it: a stale reply
      cannot reach the future that has taken over a reused entry. */
  lemma ReplyReachesOnlyItsSlot(s: State, session: nat, request: Uuid, payload: string, error: string, f: nat, k: nat)
    requires Inv(s) && session in s.sessions
    requires IsSlot(s, f, k)
    ensures var t := Step(s, Reply(session, request, payload, error));
      && IsSlot(t, f, k)
      && (SlotAt(t, f, k) != SlotAt(s, f, k) ==>
           && SlotAt(s, f, k).request == request != 0 && SlotAt(s, f, k).service == s.sessions[session]
           && forall g, j :: IsSlot(s, g, j) && SlotAt(s, g, j).request == request ==> g == f && j == k)
  {
    var service := s.sessions[session];
    if service in s.connections {
      EntryForIsFirst(s.connections[service].waiting, request);
      match EntryFor(s.connections[service].waiting, request)
      case None =>
      case Some(entry) =>
        assert Enrolled(s, service, entry);
        assert Refers(s, entry, service);
        if entry.future in s.futures {
          var j :| Names(s, entry, service, j);
          assert SlotAt(s, f, k).request == request ==> SameRequest(SlotAt(s, f, k), SlotAt(s, entry.future, j));
        }
    }
  }

  /** The answer to an open slot of that service does arrive. */
  lemma ReplyReachesItsSlot(s: State, session: nat, payload: string, error: string, f: nat, k: nat)
    requires Inv(s) && session in s.sessions
    requires Open(s, f, k) && SlotAt(s, f, k).service == s.sessions[session] && s.sessions[session] !in {0, s.self}
    ensures var t := Step(s, Reply(session, SlotAt(s, f, k).request, payload, error));
      IsSlot(t, f, k) && SlotAt(t, f, k) == SlotAt(s, f, k).(payload := payload, error := error, complete := true)
  {
    var service := s.sessions[session];
    var request := SlotAt(s, f, k).request;
    var waiting := s.connections[service].waiting;
    assert Watched(s, f, SlotAt(s, f, k));
    assert Enrolled(s, service, Entry(f, request));
    EntryForIsFirst(waiting, request);
    var entry := EntryFor(waiting, request).value;
    var i :| 0 <= i < |waiting| && waiting[i] == Entry(f, request);
    var j :| 0 <= j < |waiting| && waiting[j] == entry;
    assert DistinctRequests(waiting);
  }

  /** The answer of a local fiber arrives at its slot as well. */
  lemma FiberReachesItsSlot(s: State, payload: string, error: string, f: nat, k: nat)
    requires Inv(s) && Open(s, f, k) && SlotAt(s, f, k).service == s.self
    ensures var entry := Entry(f, SlotAt(s, f, k).request);
      && Enabled(s, FiberDone(entry, payload, error))
      && var t := Step(s, FiberDone(entry, payload, error));
      IsSlot(t, f, k) && SlotAt(t, f, k) == SlotAt(s, f, k).(payload := payload, error := error, complete := true)
  {
    assert Watched(s, f, SlotAt(s, f, k));
  }

  // ----- Lost connections -----

  /** The close event of a session fails exactly the open slots of its service, and none of them stays open; slots
      of other services stay as they are. */
  lemma CloseFreesItsService(s: State, session: nat, f: nat, k: nat)
    requires Inv(s) && session in s.sessions && s.sessions[session] !in {0, s.self}
    requires IsSlot(s, f, k)
    ensures var t, service := Step(s, Close(session)), s.sessions[session];
      && IsSlot(t, f, k)
      && (SlotAt(s, f, k).service != service ==> SlotAt(t, f, k) == SlotAt(s, f, k))
      && (SlotAt(s, f, k).service == service && Open(s, f, k) ==>
           SlotAt(t, f, k) == SlotAt(s, f, k).(error := "Connection lost", complete := true))
      && (SlotAt(t, f, k).service == service ==> !Open(t, f, k))
  {
    var service := s.sessions[session];
    if Open(s, f, k) && SlotAt(s, f, k).service == service {
      var entry := Entry(f, SlotAt(s, f, k).request);
      assert Watched(s, f, SlotAt(s, f, k));
      assert Enrolled(s, service, entry);
      var waiting := s.connections[service].waiting;
      var i :| 0 <= i < |waiting| && waiting[i] == entry;
      assert Waits(waiting, f);
    }
  }

  /** After a purge, what is still open waits on a connection that is alive, to a service that is known. */
  lemma PurgeLeavesOnlyLiveWaits(s: State, services: map<Uuid, bool>, expired: seq<Uuid>, f: nat, k: nat)
    requires Inv(s) && Enabled(s, Refresh(services, expired))
    ensures var t := Step(s, Refresh(services, expired));
      Open(t, f, k) ==>
        var service := SlotAt(t, f, k).service;
        service == t.self || (service in t.connections && service in services && !Dead(t, services, service))
  {
    var t := Step(s, Refresh(services, expired));
    var u := s.(services := services);
    RefreshKeepsInv(s, services, expired);
    EvolvesKeepsCore(s, u);
    LoseAllKeepsInv(u, expired);
    LoseAllKeepsSessions(u, expired);
    if Open(t, f, k) && SlotAt(t, f, k).service != t.self {
      assert Watched(t, f, SlotAt(t, f, k));
      var service := SlotAt(t, f, k).service;
      assert Enrolled(t, service, Entry(f, SlotAt(t, f, k).request));
      assert service in s.connections && service !in expired;
    }
  }

  lemma {:induction false} LoseAllKeepsSessions(s: State, expired: seq<Uuid>)
    ensures var t := LoseAll(s, expired);
      t.alive == s.alive && t.services == s.services && t.sessions == s.sessions
      && forall x :: x in t.connections ==> x in s.connections && t.connections[x] == s.connections[x]
    decreases |expired|
  {
    if expired != [] {
      LoseAllKeepsSessions(LoseConnection(s, expired[|expired| - 1]), expired[..|expired| - 1]);
    }
  }
}
