/** What every step of the futures keeps: each open slot of a live future is watched by somebody who will complete
    it, request UUIDs lead to one slot only, and a future is complete exactly if its slots are. */
module RpcInvariants {
  import opened Options
  import opened RpcFutures

  // ----- Invariant -----

  ghost predicate IsSlot(s: State, f: nat, k: nat) {
    f in s.futures && k < |s.futures[f].slots|
  }

  ghost function SlotAt(s: State, f: nat, k: nat): Slot
    requires IsSlot(s, f, k)
  {
    s.futures[f].slots[k]
  }

  /** A launched slot without an answer. */
  ghost predicate Open(s: State, f: nat, k: nat) {
    IsSlot(s, f, k) && SlotAt(s, f, k).request != 0 && !SlotAt(s, f, k).complete
  }

  ghost predicate Enrolled(s: State, service: Uuid, entry: Entry) {
    service in s.connections && entry in s.connections[service].waiting
  }

  /** Somebody will complete the slot: an unfinished local fiber, or an entry in the waiting list of the
      connection to its service. */
  ghost predicate Watched(s: State, f: nat, slot: Slot) {
    if slot.service == s.self then Entry(f, slot.request) in s.fibers
    else Enrolled(s, slot.service, Entry(f, slot.request))
  }

  ghost predicate NoOrphan(s: State) {
    forall f, k :: Open(s, f, k) ==> Watched(s, f, SlotAt(s, f, k))
  }

  ghost predicate SameRequest(a: Slot, b: Slot) {
    a.request == b.request != 0
  }

  /** Request UUIDs are drawn once. */
  ghost predicate Unique(s: State) {
    && 0 in s.issued
    && (forall f, k :: IsSlot(s, f, k) ==> SlotAt(s, f, k).request in s.issued)
    && (forall f, k, g, j :: IsSlot(s, f, k) && IsSlot(s, g, j) && SameRequest(SlotAt(s, f, k), SlotAt(s, g, j)) ==>
          f == g && k == j)
  }

  /** The slot that an entry or a local fiber refers to. */
  ghost predicate Names(s: State, entry: Entry, service: Uuid, k: nat) {
    && IsSlot(s, entry.future, k)
    && SlotAt(s, entry.future, k).request == entry.request && SlotAt(s, entry.future, k).service == service
  }

  ghost predicate Refers(s: State, entry: Entry, service: Uuid) {
    && entry.future in s.born && entry.request != 0 && entry.request in s.issued
    && (entry.future in s.futures ==> exists k :: Names(s, entry, service, k))
  }

  ghost predicate EntriesOk(s: State) {
    && (forall x, entry :: Enrolled(s, x, entry) ==> x != s.self && Refers(s, entry, x))
    && (forall entry :: entry in s.fibers ==> Refers(s, entry, s.self))
  }

  ghost predicate DistinctRequests(waiting: seq<Entry>) {
    forall i, j :: 0 <= i < j < |waiting| ==> waiting[i].request != waiting[j].request
  }

  ghost predicate ListsOk(s: State) {
    forall x :: x in s.connections ==> DistinctRequests(s.connections[x].waiting)
  }

  ghost predicate Core(s: State) {
    NoOrphan(s) && Unique(s) && EntriesOk(s) && ListsOk(s) && s.futures.Keys <= s.born
  }

  /** A launched future is complete exactly if no slot is open; before the launch nothing has started. */
  ghost predicate LaunchedOk(fut: Future) {
    (forall k :: 0 <= k < |fut.slots| ==> fut.slots[k].request != 0) && (fut.completed <==> AllComplete(fut.slots))
  }

  ghost predicate UnlaunchedOk(fut: Future) {
    !fut.completed && forall k :: 0 <= k < |fut.slots| ==> fut.slots[k].request == 0 && !fut.slots[k].complete
  }

  ghost predicate FutureOk(fut: Future) {
    if fut.launched then LaunchedOk(fut) else UnlaunchedOk(fut)
  }

  ghost predicate FuturesOk(s: State) {
    forall f :: f in s.futures ==> FutureOk(s.futures[f])
  }

  ghost predicate Inv(s: State) {
    Core(s) && FuturesOk(s)
  }

  // ----- Steps that only complete slots and remove watchers -----

  /** One slot's progress: its target and its request stay, and it never reopens. */
  ghost predicate SlotEvolves(a: Slot, b: Slot) {
    a.service == b.service && a.request == b.request && (a.complete ==> b.complete)
  }

  ghost predicate FutureEvolves(a: Future, b: Future) {
    && |a.slots| == |b.slots| && (forall k :: 0 <= k < |a.slots| ==> SlotEvolves(a.slots[k], b.slots[k]))
    && (a.completed ==> b.completed)
  }

  /** Surviving futures make progress only. */
  ghost predicate Evolves(s: State, t: State) {
    && t.futures.Keys <= s.futures.Keys && t.born == s.born && t.issued == s.issued && t.self == s.self
    && (forall f :: f in t.futures ==> FutureEvolves(s.futures[f], t.futures[f]))
  }

  ghost predicate Shrinks(s: State, t: State) {
    && t.fibers <= s.fibers
    && (forall x :: x in t.connections ==> x in s.connections && t.connections[x] == s.connections[x])
  }

  /** Whoever stops watching completes its slot. */
  ghost predicate WatchKept(s: State, t: State) {
    forall f, k :: Open(t, f, k) && IsSlot(s, f, k) && Watched(s, f, SlotAt(s, f, k)) ==> Watched(t, f, SlotAt(t, f, k))
  }

  lemma EvolvedSlot(s: State, t: State, f: nat, k: nat)
    requires Evolves(s, t)
    requires IsSlot(t, f, k)
    ensures IsSlot(s, f, k) && SlotEvolves(SlotAt(s, f, k), SlotAt(t, f, k))
  {
    assert FutureEvolves(s.futures[f], t.futures[f]);
  }

  lemma EvolvesKeepsUnique(s: State, t: State)
    requires Evolves(s, t) && Unique(s)
    ensures Unique(t)
  {
    forall f, k | IsSlot(t, f, k)
      ensures IsSlot(s, f, k) && SlotEvolves(SlotAt(s, f, k), SlotAt(t, f, k))
    {
      EvolvedSlot(s, t, f, k);
    }
  }

  lemma EvolvesKeepsRefers(s: State, t: State, entry: Entry, service: Uuid)
    requires Evolves(s, t) && Refers(s, entry, service)
    ensures Refers(t, entry, service)
  {
    if entry.future in t.futures {
      var k :| Names(s, entry, service, k);
      assert FutureEvolves(s.futures[entry.future], t.futures[entry.future]);
      assert Names(t, entry, service, k);
    }
  }

  lemma EvolvesKeepsEntries(s: State, t: State)
    requires Evolves(s, t) && Shrinks(s, t) && EntriesOk(s)
    ensures EntriesOk(t)
  {
    forall x, entry | Enrolled(t, x, entry)
      ensures x != t.self && Refers(t, entry, x)
    {
      assert Enrolled(s, x, entry);
      EvolvesKeepsRefers(s, t, entry, x);
    }
    forall entry | entry in t.fibers
      ensures Refers(t, entry, t.self)
    {
      EvolvesKeepsRefers(s, t, entry, s.self);
    }
  }

  lemma EvolvesKeepsCore(s: State, t: State)
    requires Core(s) && Evolves(s, t) && Shrinks(s, t) && WatchKept(s, t)
    ensures Core(t)
  {
    EvolvesKeepsUnique(s, t);
    EvolvesKeepsEntries(s, t);
    forall f, k | Open(t, f, k)
      ensures Watched(t, f, SlotAt(t, f, k))
    {
      EvolvedSlot(s, t, f, k);
      assert Open(s, f, k);
    }
  }

  // ----- Completing slots -----

  lemma CompletionKeepsFuture(fut: Future, slots: seq<Slot>)
    requires FutureOk(fut) && fut.launched
    requires FutureEvolves(fut, fut.(slots := slots))
    ensures FutureOk(WithSlots(fut, slots)) && FutureEvolves(fut, WithSlots(fut, slots))
  {
    var b := WithSlots(fut, slots);
    forall k | 0 <= k < |b.slots|
      ensures b.slots[k].request != 0
    {
      assert SlotEvolves(fut.slots[k], slots[k]);
    }
    if fut.completed {
      forall k | 0 <= k < |slots| ensures slots[k].complete {
        assert SlotEvolves(fut.slots[k], slots[k]);
      }
    }
  }

  /** An entry that names a slot of a live future is for a launched one. */
  lemma NamedIsLaunched(s: State, entry: Entry, service: Uuid)
    requires FuturesOk(s) && Refers(s, entry, service) && entry.future in s.futures
    ensures s.futures[entry.future].launched
  {
    var k :| Names(s, entry, service, k);
    assert FutureOk(s.futures[entry.future]);
  }

  lemma AnsweredIsOk(fut: Future, request: Uuid, payload: string, error: string)
    requires FutureOk(fut) && fut.launched
    ensures FutureOk(Answered(fut, request, payload, error))
    ensures FutureEvolves(fut, Answered(fut, request, payload, error))
  {
    CompletionKeepsFuture(fut, Answered(fut, request, payload, error).slots);
  }

  lemma LostIsOk(fut: Future, service: Uuid)
    requires FutureOk(fut) && fut.launched
    ensures FutureOk(Lost(fut, service)) && FutureEvolves(fut, Lost(fut, service))
  {
    CompletionKeepsFuture(fut, Lost(fut, service).slots);
  }

  lemma SetResponseIsOk(s: State, entry: Entry, service: Uuid, payload: string, error: string)
    requires Inv(s) && Refers(s, entry, service)
    ensures var t := SetResponse(s, entry.future, entry.request, payload, error); Evolves(s, t) && FuturesOk(t)
  {
    if entry.future in s.futures {
      NamedIsLaunched(s, entry, service);
      AnsweredIsOk(s.futures[entry.future], entry.request, payload, error);
    }
  }

  lemma FiberDoneKeepsInv(s: State, entry: Entry, payload: string, error: string)
    requires Inv(s) && entry in s.fibers
    ensures Evolves(s, Step(s, FiberDone(entry, payload, error))) && Inv(Step(s, FiberDone(entry, payload, error)))
  {
    var t := Step(s, FiberDone(entry, payload, error));
    assert Refers(s, entry, s.self);
    SetResponseIsOk(s, entry, s.self, payload, error);
    assert t == SetResponse(s, entry.future, entry.request, payload, error).(fibers := s.fibers - {entry});
    forall f, k | Open(t, f, k) && IsSlot(s, f, k) && Watched(s, f, SlotAt(s, f, k))
      ensures Watched(t, f, SlotAt(t, f, k))
    {
      EvolvedSlot(s, t, f, k);
      assert f == entry.future ==> SlotAt(t, f, k).request != entry.request;
    }
    EvolvesKeepsCore(s, t);
  }

  lemma {:induction false} EntryForIsFirst(waiting: seq<Entry>, request: Uuid)
    ensures match EntryFor(waiting, request)
            case None => forall entry :: entry in waiting ==> entry.request != request
            case Some(entry) => entry in waiting && entry.request == request
    decreases |waiting|
  {
    if waiting != [] {
      assert forall entry :: entry in waiting ==> entry == waiting[0] || entry in waiting[1..];
      EntryForIsFirst(waiting[1..], request);
    }
  }

  lemma ReplyKeepsInv(s: State, session: nat, request: Uuid, payload: string, error: string)
    requires Inv(s) && session in s.sessions
    ensures var t := Step(s, Reply(session, request, payload, error)); Evolves(s, t) && Inv(t)
  {
    var t := Step(s, Reply(session, request, payload, error));
    var service := s.sessions[session];
    SameEvolves(s);
    if service in s.connections {
      EntryForIsFirst(s.connections[service].waiting, request);
      match EntryFor(s.connections[service].waiting, request)
      case None =>
      case Some(entry) =>
        assert Enrolled(s, service, entry);
        SetResponseIsOk(s, entry, service, payload, error);
        EvolvesKeepsCore(s, t);
    }
  }

  lemma SameEvolves(s: State)
    ensures Evolves(s, s) && Shrinks(s, s) && WatchKept(s, s)
  {
  }

  // ----- Losing connections -----

  lemma LoseConnectionEvolves(s: State, service: Uuid)
    requires Inv(s)
    ensures Evolves(s, LoseConnection(s, service)) && FuturesOk(LoseConnection(s, service))
  {
    if service in s.connections {
      var waiting := s.connections[service].waiting;
      forall f | f in s.futures && Waits(waiting, f)
        ensures FutureOk(Lost(s.futures[f], service)) && FutureEvolves(s.futures[f], Lost(s.futures[f], service))
      {
        var i :| 0 <= i < |waiting| && waiting[i].future == f;
        assert Enrolled(s, service, waiting[i]);
        NamedIsLaunched(s, waiting[i], service);
        LostIsOk(s.futures[f], service);
      }
    }
  }

  /** No open slot is left behind for a service whose connection record is erased. */
  lemma LoseConnectionFrees(s: State, service: Uuid, f: nat, k: nat)
    requires Inv(s) && service != s.self
    requires Open(LoseConnection(s, service), f, k)
    requires IsSlot(s, f, k)
    ensures SlotAt(s, f, k).service != service && Open(s, f, k)
    ensures SlotAt(LoseConnection(s, service), f, k) == SlotAt(s, f, k)
  {
    var t := LoseConnection(s, service);
    LoseConnectionEvolves(s, service);
    EvolvedSlot(s, t, f, k);
    assert Watched(s, f, SlotAt(s, f, k));
  }

  lemma LoseConnectionKeepsInv(s: State, service: Uuid)
    requires Inv(s)
    ensures Inv(LoseConnection(s, service)) && Evolves(s, LoseConnection(s, service))
    ensures Shrinks(s, LoseConnection(s, service))
  {
    var t := LoseConnection(s, service);
    LoseConnectionEvolves(s, service);
    forall f, k | Open(t, f, k) && IsSlot(s, f, k) && Watched(s, f, SlotAt(s, f, k))
      ensures Watched(t, f, SlotAt(t, f, k))
    {
      StillWatched(s, service, f, k);
    }
    EvolvesKeepsCore(s, t);
  }

  lemma StillWatched(s: State, service: Uuid, f: nat, k: nat)
    requires Inv(s) && Open(LoseConnection(s, service), f, k) && IsSlot(s, f, k) && Watched(s, f, SlotAt(s, f, k))
    ensures IsSlot(LoseConnection(s, service), f, k)
    ensures Watched(LoseConnection(s, service), f, SlotAt(LoseConnection(s, service), f, k))
  {
    if service in s.connections && service != s.self {
      LoseConnectionFrees(s, service, f, k);
    }
  }

  lemma EvolvesTransitive(s: State, t: State, u: State)
    requires Evolves(s, t) && Evolves(t, u)
    ensures Evolves(s, u)
  {
    forall f | f in u.futures
      ensures FutureEvolves(s.futures[f], u.futures[f])
    {
      assert FutureEvolves(s.futures[f], t.futures[f]) && FutureEvolves(t.futures[f], u.futures[f]);
    }
  }

  lemma {:induction false} LoseAllKeepsInv(s: State, expired: seq<Uuid>)
    requires Inv(s)
    ensures Inv(LoseAll(s, expired)) && Evolves(s, LoseAll(s, expired))
    ensures LoseAll(s, expired).connections == s.connections - (set x | x in expired)
    decreases |expired|
  {
    if expired == [] {
      SameEvolves(s);
    } else {
      var last := expired[|expired| - 1];
      var t := LoseConnection(s, last);
      LoseConnectionKeepsInv(s, last);
      LoseAllKeepsInv(t, expired[..|expired| - 1]);
      EvolvesTransitive(s, t, LoseAll(s, expired));
      assert expired == expired[..|expired| - 1] + [last];
    }
  }

  lemma CloseKeepsInv(s: State, session: nat)
    requires Inv(s) && session in s.sessions
    ensures Inv(Step(s, Close(session))) && Evolves(s, Step(s, Close(session)))
  {
    var service := s.sessions[session];
    var t := Step(s, Close(session));
    if service != 0 {
      LoseConnectionKeepsInv(s, service);
      var u := LoseConnection(s, service);
      EvolvesKeepsCore(u, t);
    } else {
      EvolvesKeepsCore(s, t);
    }
  }

  lemma RefreshKeepsInv(s: State, services: map<Uuid, bool>, expired: seq<Uuid>)
    requires Inv(s) && Enabled(s, Refresh(services, expired))
    ensures Inv(Step(s, Refresh(services, expired))) && Evolves(s, Step(s, Refresh(services, expired)))
  {
    var u := s.(services := services);
    EvolvesKeepsCore(s, u);
    LoseAllKeepsInv(u, expired);
    EvolvesTransitive(s, u, LoseAll(u, expired));
  }

  lemma ExpireKeepsInv(s: State, f: nat)
    requires Inv(s) && f in s.futures
    ensures Inv(Step(s, Expire(f))) && Evolves(s, Step(s, Expire(f)))
  {
    EvolvesKeepsCore(s, Step(s, Expire(f)));
  }

  lemma VanishKeepsInv(s: State, session: nat)
    requires Inv(s) && session in s.alive
    ensures Inv(Step(s, Vanish(session))) && Evolves(s, Step(s, Vanish(session)))
  {
    EvolvesKeepsCore(s, Step(s, Vanish(session)));
  }
}
