/** The service object with its connection records and futures, updated in place. */
module RpcService {
  import opened Options
  import opened RpcFutures
  import opened RpcInvariants
  import opened RpcLaunch

  lemma FailAllSteps(futures: map<nat, Future>, waiting: seq<Entry>, i: nat, service: Uuid)
    requires i < |waiting|
    ensures var before := FailAll(futures, waiting[..i], service);
      var f := waiting[i].future;
      FailAll(futures, waiting[..i + 1], service) ==
      if f in futures then before[f := Lost(before[f], service)] else before
  {
    var w, v := waiting[..i], waiting[..i + 1];
    forall f | f in futures
      ensures Waits(v, f) <==> Waits(w, f) || f == waiting[i].future
      ensures Lost(Lost(futures[f], service), service) == Lost(futures[f], service)
    {
      assert v[i] == waiting[i];
      if Waits(w, f) {
        var j :| 0 <= j < |w| && w[j].future == f;
        assert v[j].future == f;
      }
      var once := Lost(futures[f], service);
      assert Lost(once, service).slots == once.slots;
    }
  }

  lemma {:induction false} EntryForSplits(waiting: seq<Entry>, i: nat, request: Uuid)
    requires i <= |waiting| && forall j :: 0 <= j < i ==> waiting[j].request != request
    ensures EntryFor(waiting, request) == EntryFor(waiting[i..], request)
    decreases |waiting|
  {
    if i > 0 {
      EntryForSplits(waiting[1..], i - 1, request);
      assert waiting[1..][i - 1..] == waiting[i..];
    }
  }

  class Service {
    const self: Uuid
    var futures: map<nat, Future>
    var services: map<Uuid, bool>
    var connections: map<Uuid, Connection>
    var sessions: map<nat, Uuid>
    var alive: set<nat>
    var fibers: set<Entry>
    var expired: seq<Uuid>
    ghost var born: set<nat>
    ghost var issued: set<Uuid>

    ghost function Now(): State
      reads this
    {
      State(self, futures, born, services, connections, sessions, alive, fibers, issued)
    }

    constructor (self: Uuid)
      ensures Now() == Initial(self) && expired == []
    {
      this.self := self;
      futures, services, connections, sessions, alive, fibers := map[], map[], map[], map[], {}, {};
      expired := [];
      born, issued := {}, {0};
    }

    // ----- Completion -----

    /** `do_set_response`: one pass over the slots, which also finds out whether all of them are complete. */
    method SetResponse(f: nat, request: Uuid, payload: string, error: string)
      modifies this`futures
      ensures Now() == RpcFutures.SetResponse(old(Now()), f, request, payload, error)
    {
      if f !in futures { return; }
      ghost var was := futures;
      var slots := futures[f].slots;
      var allReceived := true;
      for k := 0 to |slots|
        invariant |slots| == |was[f].slots|
        invariant forall j :: 0 <= j < k ==> slots[j] == AnsweredSlot(was[f].slots[j], request, payload, error)
        invariant forall j :: k <= j < |slots| ==> slots[j] == was[f].slots[j]
        invariant allReceived <==> forall j :: 0 <= j < k ==> slots[j].complete
      {
        if slots[k].request != request {
          allReceived := allReceived && slots[k].complete;
        } else {
          slots := slots[k := slots[k].(payload := payload, error := error, complete := true)];
        }
      }
      futures := futures[f := futures[f].(slots := slots, completed := futures[f].completed || allReceived)];
      assert slots == Answered(was[f], request, payload, error).slots;
    }

    /** One future whose connection to `service` is gone. */
    method FailSlots(f: nat, service: Uuid)
      requires f in futures
      modifies this`futures
      ensures futures == old(futures)[f := Lost(old(futures)[f], service)]
    {
      ghost var was := futures;
      var slots := futures[f].slots;
      var allReceived := true;
      for k := 0 to |slots|
        invariant |slots| == |was[f].slots|
        invariant forall j :: 0 <= j < k ==> slots[j] == LostSlot(was[f].slots[j], service)
        invariant forall j :: k <= j < |slots| ==> slots[j] == was[f].slots[j]
        invariant allReceived <==> forall j :: 0 <= j < k ==> slots[j].complete
      {
        if slots[k].service != service {
          allReceived := allReceived && slots[k].complete;
        } else {
          slots := slots[k := slots[k].(error := "Connection lost", complete := true)];
        }
      }
      futures := futures[f := futures[f].(slots := slots, completed := futures[f].completed || allReceived)];
      assert slots == Lost(was[f], service).slots;
    }

    /** `find_and_erase` the connection record, then fail every live future in its waiting list. */
    method LoseConnection(service: Uuid)
      modifies this`futures, this`connections
      ensures Now() == RpcFutures.LoseConnection(old(Now()), service)
    {
      if service !in connections { return; }
      var waiting := connections[service].waiting;
      connections := connections - {service};
      ghost var was := futures;
      assert FailAll(was, waiting[..0], service) == was;
      for i := 0 to |waiting|
        invariant futures == FailAll(was, waiting[..i], service)
        invariant connections == old(connections) - {service}
      {
        FailAllSteps(was, waiting, i, service);
        if waiting[i].future in futures {
          FailSlots(waiting[i].future, service);
        }
      }
      assert waiting[..|waiting|] == waiting;
    }

    /** A local request fiber has run its handler. */
    method FinishFiber(entry: Entry, payload: string, error: string)
      requires entry in fibers
      modifies this`futures, this`fibers
      ensures Now() == Step(old(Now()), FiberDone(entry, payload, error))
    {
      fibers := fibers - {entry};
      SetResponse(entry.future, entry.request, payload, error);
    }

    /** `do_client_ws_callback`, text or binary message. */
    method OnMessage(session: nat, request: Uuid, payload: string, error: string)
      requires session in sessions
      modifies this`futures
      ensures Now() == Step(old(Now()), Reply(session, request, payload, error))
    {
      var service := sessions[session];
      if service == 0 || service !in connections { return; }
      var waiting := connections[service].waiting;
      var i := 0;
      while i < |waiting| && waiting[i].request != request
        invariant 0 <= i <= |waiting|
        invariant forall j :: 0 <= j < i ==> waiting[j].request != request
      {
        i := i + 1;
      }
      EntryForSplits(waiting, i, request);
      if i < |waiting| {
        SetResponse(waiting[i].future, request, payload, error);
      }
    }

    /** `do_client_ws_callback`, close. */
    method OnClose(session: nat)
      requires session in sessions
      modifies this`futures, this`connections, this`sessions, this`alive
      ensures Now() == Step(old(Now()), Close(session))
    {
      var service := sessions[session];
      if service != 0 {
        LoseConnection(service);
      }
      sessions := sessions - {session};
      alive := alive - {session};
    }

    /** `do_subscribe_timer_callback`: the new list of services, then the purge. `purged` is what the first loop
        collects. */
    method OnSubscribeTimer(remoteServices: map<Uuid, bool>) returns (ghost purged: seq<Uuid>)
      requires expired == []
      modifies this`futures, this`connections, this`services, this`expired
      ensures expired == []
      ensures Enabled(old(Now()), Refresh(remoteServices, purged))
      ensures Now() == Step(old(Now()), Refresh(remoteServices, purged))
    {
      services := remoteServices;
      var rest := connections.Keys;
      while rest != {}
        invariant futures == old(futures) && connections == old(connections) && services == remoteServices
        invariant rest <= connections.Keys && Distinct(expired)
        invariant forall x :: x in expired ==> x in connections && x !in rest && Dead(old(Now()), remoteServices, x)
        invariant forall x :: x in connections && x !in rest && Dead(old(Now()), remoteServices, x) ==> x in expired
        decreases rest
      {
        var x :| x in rest;
        var session := connections[x].session;
        if !(session.Some? && session.value in alive && x in services) {
          expired := expired + [x];
        }
        rest := rest - {x};
      }
      purged := expired;
      while expired != []
        invariant services == remoteServices
        invariant LoseAll(Now(), expired) == LoseAll(old(Now()).(services := remoteServices), purged)
        decreases |expired|
      {
        var x := expired[|expired| - 1];
        expired := expired[..|expired| - 1];
        LoseConnection(x);
      }
    }

    // ----- Launching -----

    /** The first waiting entry whose future has expired, or the length of the list. */
    method FindExpired(waiting: seq<Entry>) returns (index: nat)
      ensures index == FirstExpired(Now(), waiting)
    {
      index := 0;
      while index < |waiting| && waiting[index].future in futures
        invariant 0 <= index <= |waiting|
        invariant FirstExpired(Now(), waiting) == index + FirstExpired(Now(), waiting[index..])
      {
        assert waiting[index..][1..] == waiting[index + 1..];
        index := index + 1;
      }
    }

    /** One iteration of `launch`; it tells whether the slot waits for an answer. */
    method LaunchOne(f: nat, k: nat, request: Uuid, session: nat) returns (pending: bool)
      requires f in futures && k < |futures[f].slots| && !futures[f].slots[k].complete
      modifies this
      ensures Now() == LaunchSlot(old(Now()), f, k, request, session) && expired == old(expired)
      ensures f in futures && |futures[f].slots| == |old(futures)[f].slots|
      ensures futures[f].slots == old(futures)[f].slots[k := futures[f].slots[k]]
      ensures pending <==> !futures[f].slots[k].complete
    {
      var slot := futures[f].slots[k].(request := request);
      futures := futures[f := futures[f].(slots := futures[f].slots[k := slot])];
      issued := issued + {request};
      if slot.service == self {
        fibers := fibers + {Entry(f, request)};
        pending := true;
      } else if slot.service !in services {
        Fail(f, k, "Service not found");
        pending := false;
      } else {
        pending := SendRemote(f, k, session);
      }
    }

    /** The request goes to a known remote service: connect if need be, and wait for the answer. */
    method SendRemote(f: nat, k: nat, session: nat) returns (pending: bool)
      requires f in futures && k < |futures[f].slots| && !futures[f].slots[k].complete
      requires futures[f].slots[k].service in services
      modifies this`futures, this`connections, this`sessions, this`alive
      ensures Now() == LaunchRemote(old(Now()), f, k, session)
      ensures futures == if pending then old(futures) else FailSlot(old(Now()), f, k, "Service unreachable").futures
    {
      var service := futures[f].slots[k].service;
      if service !in connections {
        connections := connections[service := Connection(None, [])];
      }
      var conn := connections[service];
      if !(conn.session.Some? && conn.session.value in alive) {
        if !services[service] {
          Fail(f, k, "Service unreachable");
          return false;
        }
        sessions := sessions[session := service];
        alive := alive + {session};
        conn := conn.(session := Some(session));
      }
      Join(service, conn, Entry(f, futures[f].slots[k].request));
      SameFirstExpired(Now(), old(Now()), conn.waiting);
      return true;
    }

    /** The entry takes the place of the first expired one, or goes to the end. */
    method Join(service: Uuid, conn: Connection, entry: Entry)
      modifies this`connections
      ensures connections
           == old(connections)[service := conn.(waiting := Enroll(old(Now()), conn.waiting, entry))]
    {
      var index := FindExpired(conn.waiting);
      var waiting := conn.waiting;
      if index == |waiting| {
        waiting := waiting + [entry];
      } else {
        waiting := waiting[index := entry];
      }
      connections := connections[service := conn.(waiting := waiting)];
    }

    /** The slot fails at once. */
    method Fail(f: nat, k: nat, error: string)
      requires f in futures && k < |futures[f].slots|
      modifies this`futures
      ensures Now() == FailSlot(old(Now()), f, k, error)
    {
      var slot := futures[f].slots[k].(error := error, complete := true);
      futures := futures[f := futures[f].(slots := futures[f].slots[k := slot])];
    }

    /** The loop of `launch`; it tells whether no slot waits for an answer. */
    method LaunchSlots(f: nat, requests: seq<Uuid>, newSessions: seq<nat>) returns (allReceived: bool)
      requires f in futures && |futures[f].slots| == |requests| == |newSessions|
      requires forall j :: 0 <= j < |requests| ==> !futures[f].slots[j].complete
      modifies this
      ensures Now() == LaunchFrom(old(Now()), f, 0, requests, newSessions) && expired == old(expired)
      ensures f in futures && (allReceived <==> AllComplete(futures[f].slots))
    {
      allReceived := true;
      for k := 0 to |requests|
        invariant f in futures && |futures[f].slots| == |requests|
        invariant forall j :: k <= j < |requests| ==> !futures[f].slots[j].complete
        invariant allReceived <==> forall j :: 0 <= j < k ==> futures[f].slots[j].complete
        invariant LaunchFrom(Now(), f, k, requests, newSessions) == LaunchFrom(old(Now()), f, 0, requests, newSessions)
        invariant expired == old(expired)
      {
        ghost var before := futures[f].slots;
        var pending := LaunchOne(f, k, requests[k], newSessions[k]);
        assert forall j :: 0 <= j < |requests| && j != k ==> futures[f].slots[j] == before[j];
        if pending {
          allReceived := false;
        }
      }
    }

    /** `Service::launch`. The UUIDs and the identities of new sessions are what the libraries hand out. */
    method Launch(f: nat, requests: seq<Uuid>, newSessions: seq<nat>)
      requires Inv(Now()) && Enabled(Now(), DoLaunch(f, requests, newSessions))
      modifies this
      ensures Now() == Step(old(Now()), DoLaunch(f, requests, newSessions)) && expired == old(expired)
    {
      assert UnlaunchedOk(futures[f]);
      var allReceived := LaunchSlots(f, requests, newSessions);
      futures := futures[f := futures[f].(launched := true, completed := allReceived)];
    }
  }
}
