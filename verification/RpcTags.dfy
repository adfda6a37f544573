/** Client sessions carry the UUID of the service that they lead to, so answers and closes find the requests that wait
    for them. */
module RpcTags {
  import opened Options
  import opened RpcFutures
  import opened RpcInvariants
  import opened RpcRuns

  /** The session on record leads to the record's service, and a record in which somebody waits has a session. */
  ghost predicate TagsOk(s: State) {
    && s.alive <= s.sessions.Keys
    && forall x :: x in s.connections ==> TagOk(s, x, s.connections[x])
  }

  ghost predicate TagOk(s: State, x: Uuid, conn: Connection) {
    && (conn.session.Some? && conn.session.value in s.sessions ==> s.sessions[conn.session.value] == x)
    && (conn.waiting != [] ==> conn.session.Some?)
  }

  /** The identities that are left for slots k, k + 1, ... */
  ghost predicate NewFrom(s: State, sessions: seq<nat>, k: nat) {
    forall j :: k <= j < |sessions| ==> NewSession(s, sessions[j])
  }

  // ----- Launching -----

  /** What a launch does to the session of a remote service that it asks: one that is alive is used again, and otherwise
      the new one is opened for this service. */
  ghost predicate Asked(s: State, t: State, service: Uuid, session: nat) {
    && service in t.connections && t.connections[service].session.Some?
    && t.connections[service].session.value in t.alive
    && (if Live(s, ConnOf(s, service)) then
          && t.connections[service].session == s.connections[service].session
          && t.sessions == s.sessions && t.alive == s.alive
        else
          && t.connections[service].session == Some(session)
          && t.sessions == s.sessions[session := service] && t.alive == s.alive + {session})
  }

  lemma RequestIsSent(s: State, f: nat, k: nat, request: Uuid, session: nat)
    requires IsSlot(s, f, k) && !SlotAt(s, f, k).complete
    ensures var t, service := LaunchSlot(s, f, k, request, session), SlotAt(s, f, k).service;
      && IsSlot(t, f, k)
      && (service != s.self && !SlotAt(t, f, k).complete ==> Asked(s, t, service, session))
      && (service == s.self || SlotAt(t, f, k).complete ==> t.sessions == s.sessions && t.alive == s.alive)
  {
  }

  /** Records other than that of the slot's service stay as they are, and so does its session if nothing is sent. */
  lemma OtherRecordsStay(s: State, f: nat, k: nat, request: Uuid, session: nat, x: Uuid)
    requires IsSlot(s, f, k) && !SlotAt(s, f, k).complete && x in LaunchSlot(s, f, k, request, session).connections
    ensures var t, service := LaunchSlot(s, f, k, request, session), SlotAt(s, f, k).service;
      && IsSlot(t, f, k)
      && (x != service || service == s.self || SlotAt(t, f, k).complete ==> t.connections[x] == ConnOf(s, x))
  {
  }

  lemma LaunchSlotKeepsTags(s: State, f: nat, k: nat, request: Uuid, session: nat)
    requires TagsOk(s) && IsSlot(s, f, k) && !SlotAt(s, f, k).complete && NewSession(s, session)
    ensures TagsOk(LaunchSlot(s, f, k, request, session))
  {
    var t, service := LaunchSlot(s, f, k, request, session), SlotAt(s, f, k).service;
    RequestIsSent(s, f, k, request, session);
    forall x | x in t.connections ensures TagOk(t, x, t.connections[x]) {
      OtherRecordsStay(s, f, k, request, session, x);
    }
  }

  lemma LaunchSlotKeepsNew(s: State, f: nat, k: nat, request: Uuid, session: nat, i: nat)
    requires IsSlot(s, f, k) && !SlotAt(s, f, k).complete && NewSession(s, i) && i != session
    ensures NewSession(LaunchSlot(s, f, k, request, session), i)
  {
  }

  lemma {:induction false} LaunchFromKeepsTags(s: State, f: nat, k: nat, requests: seq<Uuid>, sessions: seq<nat>)
    requires TagsOk(s) && f in s.futures && |s.futures[f].slots| == |requests| == |sessions| && k <= |requests|
    requires (forall j :: k <= j < |requests| ==> !s.futures[f].slots[j].complete)
    requires Distinct(sessions) && NewFrom(s, sessions, k)
    ensures TagsOk(LaunchFrom(s, f, k, requests, sessions))
    decreases |requests| - k
  {
    if k < |requests| {
      var t := LaunchSlot(s, f, k, requests[k], sessions[k]);
      LaunchSlotKeepsTags(s, f, k, requests[k], sessions[k]);
      forall j | k + 1 <= j < |sessions| ensures NewSession(t, sessions[j]) {
        LaunchSlotKeepsNew(s, f, k, requests[k], sessions[k], sessions[j]);
      }
      OtherSlotsOpen(s, f, k, requests[k], sessions[k]);
      LaunchFromKeepsTags(t, f, k + 1, requests, sessions);
    }
  }

  lemma OtherSlotsOpen(s: State, f: nat, k: nat, request: Uuid, session: nat)
    requires IsSlot(s, f, k)
    ensures var t := LaunchSlot(s, f, k, request, session);
      && f in t.futures && |t.futures[f].slots| == |s.futures[f].slots|
      && forall j :: 0 <= j < |s.futures[f].slots| && j != k ==> t.futures[f].slots[j] == s.futures[f].slots[j]
  {
  }

  // ----- All events -----

  lemma {:induction false} LoseAllKeepsTags(s: State, expired: seq<Uuid>)
    requires TagsOk(s)
    ensures TagsOk(LoseAll(s, expired))
    decreases |expired|
  {
    if expired != [] {
      var t := LoseConnection(s, expired[|expired| - 1]);
      assert forall x :: x in t.connections ==> TagOk(s, x, s.connections[x]);
      LoseAllKeepsTags(t, expired[..|expired| - 1]);
    }
  }

  lemma CloseKeepsTags(s: State, session: nat)
    requires TagsOk(s) && session in s.sessions
    ensures TagsOk(Step(s, Close(session)))
  {
    var t := Step(s, Close(session));
    assert forall x :: x in t.connections ==> TagOk(s, x, s.connections[x]);
  }

  lemma StepKeepsTags(s: State, e: Event)
    requires Inv(s) && TagsOk(s) && Enabled(s, e)
    ensures TagsOk(Step(s, e))
  {
    match e
    case DoLaunch(f, requests, sessions) =>
      assert UnlaunchedOk(s.futures[f]);
      LaunchFromKeepsTags(s, f, 0, requests, sessions);
      var t := LaunchFrom(s, f, 0, requests, sessions);
      assert forall x :: x in t.connections ==> TagOk(t, x, t.connections[x]);
    case Close(session) => CloseKeepsTags(s, session);
    case Refresh(services, expired) =>
      var t := s.(services := services);
      assert forall x :: x in t.connections ==> TagOk(s, x, s.connections[x]);
      LoseAllKeepsTags(t, expired);
    case _ =>
      var t := Step(s, e);
      assert forall x :: x in t.connections ==> TagOk(s, x, s.connections[x]);
  }

  lemma {:induction false} RunKeepsTags(self: Uuid, es: seq<Event>)
    requires Legal(self, es)
    ensures TagsOk(Run(self, es)) && Inv(Run(self, es))
    decreases |es|
  {
    RunKeepsInv(self, es);
    if es != [] {
      RunKeepsTags(self, es[..|es| - 1]);
      StepKeepsTags(Run(self, es[..|es| - 1]), es[|es| - 1]);
    }
  }

  // ----- Answers and closes find what waits -----

  /** In every run, each open slot of a remote service has a connection record with a session; and as long as a weak
      reference reaches that session, the answer that arrives over it completes the slot, with what the peer said. */
  lemma AnswerArrives(self: Uuid, es: seq<Event>, f: nat, k: nat, payload: string, error: string)
    requires Legal(self, es) && Open(Run(self, es), f, k) && SlotAt(Run(self, es), f, k).service !in {0, self}
    ensures var s := Run(self, es);
      var slot := SlotAt(s, f, k);
      && s.self == self && slot.service in s.connections && s.connections[slot.service].session.Some?
      && var session := s.connections[slot.service].session.value;
      session in s.alive ==>
        && session in s.sessions && s.sessions[session] == slot.service
        && Enabled(s, Reply(session, slot.request, payload, error))
        && var t := Step(s, Reply(session, slot.request, payload, error));
        && IsSlot(t, f, k) && SlotAt(t, f, k).complete
        && SlotAt(t, f, k).payload == payload && SlotAt(t, f, k).error == error
  {
    RunKeepsTags(self, es);
    SelfStays(self, es);
    var s := Run(self, es);
    var service := SlotAt(s, f, k).service;
    assert Watched(s, f, SlotAt(s, f, k));
    assert TagOk(s, service, s.connections[service]);
    var session := s.connections[service].session.value;
    if session in s.alive {
      ReplyReachesItsSlot(s, session, payload, error, f, k);
    }
  }

  /** Every answer counts, also a second one to the same request: the slot then has what was said last. */
  lemma EveryAnswerCounts(s: State, session: nat, request: Uuid, payload: string, error: string, f: nat, k: nat)
    requires Inv(s) && session in s.sessions && s.sessions[session] != 0
    requires Enrolled(s, s.sessions[session], Entry(f, request))
    requires IsSlot(s, f, k) && SlotAt(s, f, k).request == request
    ensures var t := Step(s, Reply(session, request, payload, error));
      && IsSlot(t, f, k) && SlotAt(t, f, k).complete
      && SlotAt(t, f, k).payload == payload && SlotAt(t, f, k).error == error
  {
    var waiting := s.connections[s.sessions[session]].waiting;
    EntryForIsFirst(waiting, request);
    var i :| 0 <= i < |waiting| && waiting[i] == Entry(f, request);
    var entry := EntryFor(waiting, request).value;
    var j :| 0 <= j < |waiting| && waiting[j] == entry;
    assert DistinctRequests(waiting);
  }

  /** In every run, the close of the session on record leaves no open slot of its service. */
  lemma CloseLeavesNothingOpen(self: Uuid, es: seq<Event>, service: Uuid, f: nat, k: nat)
    requires Legal(self, es) && service !in {0, self} && service in Run(self, es).connections
    requires var conn := Run(self, es).connections[service];
      conn.session.Some? && conn.session.value in Run(self, es).sessions
    ensures var s := Run(self, es);
      var t := Step(s, Close(s.connections[service].session.value));
      && service !in t.connections && s.connections[service].session.value !in t.sessions.Keys + t.alive
      && (IsSlot(t, f, k) && SlotAt(t, f, k).service == service ==> !Open(t, f, k))
  {
    RunKeepsTags(self, es);
    SelfStays(self, es);
    var s := Run(self, es);
    assert TagOk(s, service, s.connections[service]);
    var session := s.connections[service].session.value;
    CloseKeepsInv(s, session);
    if IsSlot(Step(s, Close(session)), f, k) {
      EvolvedSlot(s, Step(s, Close(session)), f, k);
      CloseFreesItsService(s, session, f, k);
    }
  }

  // ----- Targets -----

  /** A new future has one slot per target, in this order, without a request, an answer or an error. */
  lemma NewFuture(s: State, f: nat, targets: seq<Uuid>)
    requires f !in s.born
    ensures var t := Step(s, New(f, targets));
      && f in t.futures && !t.futures[f].launched && !t.futures[f].completed && |t.futures[f].slots| == |targets|
      && forall k :: 0 <= k < |targets| ==>
           var slot := t.futures[f].slots[k];
           slot.service == targets[k] && slot.request == 0 && slot.payload == slot.error == "" && !slot.complete
  {
  }

  /** Whatever happens to it, the future keeps these targets as long as it lives. */
  lemma TargetsStay(self: Uuid, es: seq<Event>, n: nat, f: nat, targets: seq<Uuid>)
    requires n < |es| && Legal(self, es) && Legal(self, es[..n]) && Legal(self, es[..n + 1])
    requires es[n] == New(f, targets) && f in Run(self, es).futures
    ensures var slots := Run(self, es).futures[f].slots;
      |slots| == |targets| && forall k :: 0 <= k < |targets| ==> slots[k].service == targets[k]
  {
    assert es[..n + 1][..n] == es[..n] && es[..n + 1][n] == es[n];
    assert Run(self, es[..n + 1]) == Step(Run(self, es[..n]), New(f, targets));
    NewFuture(Run(self, es[..n]), f, targets);
    CompletenessIsNeverUndone(self, es, n + 1, f);
    var before, after := Run(self, es[..n + 1]).futures[f], Run(self, es).futures[f];
    forall k | 0 <= k < |targets| ensures after.slots[k].service == targets[k] {
      assert SlotAdvances(before.slots[k], after.slots[k]);
    }
  }

  /** The subscribe timer installs the list that it has read, and keeps exactly the records of services on it whose
      session is alive. */
  lemma RefreshInstalls(s: State, services: map<Uuid, bool>, expired: seq<Uuid>)
    requires Enabled(s, Refresh(services, expired)) && Inv(s)
    ensures var t := Step(s, Refresh(services, expired));
      && t.services == services && t.sessions == s.sessions && t.alive == s.alive
      && forall x :: x in t.connections <==>
           x in s.connections && x in services && s.connections[x].session.Some?
           && s.connections[x].session.value in s.alive
  {
    var u := s.(services := services);
    LoseAllKeepsSessions(u, expired);
    EvolvesKeepsCore(s, u);
    LoseAllKeepsInv(u, expired);
    assert forall x :: x in s.connections && Dead(s, services, x) <==> x in expired;
  }

  lemma {:induction false} SelfStays(self: Uuid, es: seq<Event>)
    requires Legal(self, es)
    ensures Run(self, es).self == self
    decreases |es|
  {
    if es != [] {
      SelfStays(self, es[..|es| - 1]);
      StepKeepsSelf(Run(self, es[..|es| - 1]), es[|es| - 1]);
    }
  }

  lemma StepKeepsSelf(s: State, e: Event)
    requires Enabled(s, e)
    ensures Step(s, e).self == s.self
  {
    match e
    case DoLaunch(f, requests, sessions) => LaunchFromKeepsSelf(s, f, 0, requests, sessions);
    case Refresh(services, expired) => LoseAllKeepsSelf(s.(services := services), expired);
    case _ =>
  }

  lemma {:induction false} LaunchFromKeepsSelf(s: State, f: nat, k: nat, requests: seq<Uuid>, sessions: seq<nat>)
    requires f in s.futures && |s.futures[f].slots| == |requests| == |sessions| && k <= |requests|
    ensures LaunchFrom(s, f, k, requests, sessions).self == s.self
    decreases |requests| - k
  {
    if k < |requests| {
      LaunchFromKeepsSelf(LaunchSlot(s, f, k, requests[k], sessions[k]), f, k + 1, requests, sessions);
    }
  }

  lemma {:induction false} LoseAllKeepsSelf(s: State, expired: seq<Uuid>)
    ensures LoseAll(s, expired).self == s.self && LoseAll(s, expired).services == s.services
    decreases |expired|
  {
    if expired != [] {
      LoseAllKeepsSelf(LoseConnection(s, expired[|expired| - 1]), expired[..|expired| - 1]);
    }
  }
}
