/** Service futures: a request to many services, whose slots local fibers, remote replies, lost connections and
    the purge of dead services race to complete. Nothing here yields, so each event is one atomic step. */
module RpcFutures {
  import opened Options

  // A UUID; 0 is the nil UUID, which a request has before it is launched.
  type Uuid = nat

  datatype Slot = Slot(service: Uuid, request: Uuid, payload: string, error: string, complete: bool)

  datatype Future = Future(slots: seq<Slot>, launched: bool, completed: bool)

  /** A weak reference to a future, with the request that it waits for. */
  datatype Entry = Entry(future: nat, request: Uuid)

  datatype Connection = Connection(session: Option<nat>, waiting: seq<Entry>)

  /** `futures` has the futures that are alive, `born` all that ever were: a weak reference has expired when its
      future is not in `futures`. `services` tells of each known service whether it has a usable address.
      `sessions` are the client sessions that may still raise events, with their services, and `alive` those that a
      weak reference can still reach. `fibers` are the local request fibers, `issued` all request UUIDs ever drawn. */
  datatype State = State(
    self: Uuid,
    futures: map<nat, Future>,
    born: set<nat>,
    services: map<Uuid, bool>,
    connections: map<Uuid, Connection>,
    sessions: map<nat, Uuid>,
    alive: set<nat>,
    fibers: set<Entry>,
    issued: set<Uuid>)

  function Initial(self: Uuid): State {
    State(self, map[], {}, map[], map[], map[], {}, {}, {0})
  }

  // ----- Completion -----

  predicate AllComplete(slots: seq<Slot>) {
    forall k :: 0 <= k < |slots| ==> slots[k].complete
  }

  /** The future completes when no slot is open any more, and never becomes incomplete again. */
  function WithSlots(fut: Future, slots: seq<Slot>): Future {
    fut.(slots := slots, completed := fut.completed || AllComplete(slots))
  }

  function AnsweredSlot(slot: Slot, request: Uuid, payload: string, error: string): Slot {
    if slot.request == request then slot.(payload := payload, error := error, complete := true) else slot
  }

  function LostSlot(slot: Slot, service: Uuid): Slot {
    if slot.service == service then slot.(error := "Connection lost", complete := true) else slot
  }

  /** `do_set_response`: the slot of this request gets its answer. */
  function Answered(fut: Future, request: Uuid, payload: string, error: string): Future {
    WithSlots(fut, seq(|fut.slots|, k requires 0 <= k < |fut.slots| =>
                         AnsweredSlot(fut.slots[k], request, payload, error)))
  }

  /** The connection to `service` is gone: all slots of that service fail. */
  function Lost(fut: Future, service: Uuid): Future {
    WithSlots(fut, seq(|fut.slots|, k requires 0 <= k < |fut.slots| => LostSlot(fut.slots[k], service)))
  }

  predicate Waits(waiting: seq<Entry>, f: nat) {
    exists i :: 0 <= i < |waiting| && waiting[i].future == f
  }

  function SetResponse(s: State, f: nat, request: Uuid, payload: string, error: string): State {
    if f !in s.futures then s else s.(futures := s.futures[f := Answered(s.futures[f], request, payload, error)])
  }

  /** Every live future that waits in this list has its slots of the service failed. */
  function FailAll(futures: map<nat, Future>, waiting: seq<Entry>, service: Uuid): map<nat, Future> {
    map f | f in futures :: if Waits(waiting, f) then Lost(futures[f], service) else futures[f]
  }

  /** Erase the connection record and fail what waits in it. */
  function LoseConnection(s: State, service: Uuid): State {
    if service !in s.connections then s else
    var waiting := s.connections[service].waiting;
    s.(connections := s.connections - {service}, futures := FailAll(s.futures, waiting, service))
  }

  // ----- Launching -----

  /** The first entry whose future has expired; the length of the list if there is none. */
  function FirstExpired(s: State, waiting: seq<Entry>): (i: nat)
    ensures i <= |waiting|
    ensures i < |waiting| ==> waiting[i].future !in s.futures
    ensures forall j :: 0 <= j < i ==> waiting[j].future in s.futures
  {
    if waiting == [] then 0
    else if waiting[0].future !in s.futures then 0
    else 1 + FirstExpired(s, waiting[1..])
  }

  /** The entry takes the place of the first expired one, or goes to the end. */
  function Enroll(s: State, waiting: seq<Entry>, entry: Entry): seq<Entry> {
    var i := FirstExpired(s, waiting);
    if i < |waiting| then waiting[i := entry] else waiting + [entry]
  }

  function SetSlot(s: State, f: nat, k: nat, slot: Slot): State
    requires f in s.futures && k < |s.futures[f].slots|
  {
    s.(futures := s.futures[f := s.futures[f].(slots := s.futures[f].slots[k := slot])])
  }

  function FailSlot(s: State, f: nat, k: nat, error: string): State
    requires f in s.futures && k < |s.futures[f].slots|
  {
    SetSlot(s, f, k, s.futures[f].slots[k].(error := error, complete := true))
  }

  predicate Live(s: State, conn: Connection) {
    conn.session.Some? && conn.session.value in s.alive
  }

  function ConnOf(s: State, service: Uuid): Connection {
    if service in s.connections then s.connections[service] else Connection(None, [])
  }

  /** A slot for a known remote service: over its session, or a new one if it has an address. */
  function LaunchRemote(s: State, f: nat, k: nat, session: nat): State
    requires f in s.futures && k < |s.futures[f].slots| && s.futures[f].slots[k].service in s.services
  {
    var service := s.futures[f].slots[k].service;
    var conn := ConnOf(s, service);
    var entry := Entry(f, s.futures[f].slots[k].request);
    if !Live(s, conn) && !s.services[service] then
      FailSlot(s.(connections := s.connections[service := conn]), f, k, "Service unreachable")
    else
      s.(connections := s.connections[service :=
           Connection(if Live(s, conn) then conn.session else Some(session), Enroll(s, conn.waiting, entry))],
         sessions := if Live(s, conn) then s.sessions else s.sessions[session := service],
         alive := if Live(s, conn) then s.alive else s.alive + {session})
  }

  /** The iteration of `launch` for slot k. `session` is a new session's identity, in case one is needed. */
  function LaunchSlot(s: State, f: nat, k: nat, request: Uuid, session: nat): State
    requires f in s.futures && k < |s.futures[f].slots|
  {
    var slot := s.futures[f].slots[k].(request := request);
    var t := SetSlot(s, f, k, slot).(issued := s.issued + {request});
    if slot.service == s.self then t.(fibers := s.fibers + {Entry(f, request)})
    else if slot.service !in s.services then FailSlot(t, f, k, "Service not found")
    else LaunchRemote(t, f, k, session)
  }

  /** The iterations for slots k, k + 1, ... */
  function LaunchFrom(s: State, f: nat, k: nat, requests: seq<Uuid>, sessions: seq<nat>): State
    requires f in s.futures && |s.futures[f].slots| == |requests| == |sessions| && k <= |requests|
    decreases |requests| - k
  {
    if k == |requests| then s
    else LaunchFrom(LaunchSlot(s, f, k, requests[k], sessions[k]), f, k + 1, requests, sessions)
  }

  function Launch(s: State, f: nat, requests: seq<Uuid>, sessions: seq<nat>): State
    requires f in s.futures && |s.futures[f].slots| == |requests| == |sessions|
  {
    var t := LaunchFrom(s, f, 0, requests, sessions);
    assert f in t.futures by { LaunchFromKeepsShape(s, f, 0, requests, sessions); }
    var fut := t.futures[f];
    t.(futures := t.futures[f := fut.(launched := true, completed := AllComplete(fut.slots))])
  }

  lemma {:induction false} LaunchFromKeepsShape(s: State, f: nat, k: nat, requests: seq<Uuid>, sessions: seq<nat>)
    requires f in s.futures && |s.futures[f].slots| == |requests| == |sessions| && k <= |requests|
    ensures var t := LaunchFrom(s, f, k, requests, sessions);
      t.futures.Keys == s.futures.Keys && |t.futures[f].slots| == |requests|
    decreases |requests| - k
  {
    if k < |requests| {
      LaunchFromKeepsShape(LaunchSlot(s, f, k, requests[k], sessions[k]), f, k + 1, requests, sessions);
    }
  }

  // ----- Events -----

  datatype Event =
    | New(f: nat, targets: seq<Uuid>)
    | DoLaunch(f: nat, requests: seq<Uuid>, sessions: seq<nat>)
    | Expire(f: nat)                                                           // the last owner lets go
    | FiberDone(entry: Entry, payload: string, error: string)
    | Reply(session: nat, request: Uuid, payload: string, error: string)
    | Close(session: nat)
    | Vanish(session: nat)                                                     // its weak references expire
    | Refresh(services: map<Uuid, bool>, expired: seq<Uuid>)                   // subscribe timer, with its purge

  predicate Distinct<T(==)>(xs: seq<T>) {
    forall i, j :: 0 <= i < j < |xs| ==> xs[i] != xs[j]
  }

  predicate NewSession(s: State, session: nat) {
    && session !in s.sessions && session !in s.alive
    && forall x :: x in s.connections ==> s.connections[x].session != Some(session)
  }

  /** Identities are new, and random UUIDs are distinct. */
  predicate Enabled(s: State, e: Event) {
    match e
    case New(f, _) => f !in s.born
    case DoLaunch(f, requests, sessions) =>
      && f in s.futures && !s.futures[f].launched && |s.futures[f].slots| == |requests| == |sessions|
      && Distinct(requests) && (forall r :: r in requests ==> r !in s.issued)
      && Distinct(sessions) && (forall i :: i in sessions ==> NewSession(s, i))
    case Expire(f) => f in s.futures
    case FiberDone(entry, _, _) => entry in s.fibers
    case Reply(session, _, _, _) => session in s.sessions
    case Close(session) => session in s.sessions
    case Vanish(session) => session in s.alive
    case Refresh(services, expired) =>
      && Distinct(expired)
      && (forall x :: x in expired ==> x in s.connections && Dead(s, services, x))
      && (forall x :: x in s.connections && Dead(s, services, x) ==> x in expired)
  }

  /** The entry that a reply is for: the first with its UUID in the waiting list of that session's service. */
  function EntryFor(waiting: seq<Entry>, request: Uuid): Option<Entry> {
    if waiting == [] then None
    else if waiting[0].request == request then Some(waiting[0])
    else EntryFor(waiting[1..], request)
  }

  /** The record of `service` has no live session, or the service has disappeared. */
  predicate Dead(s: State, services: map<Uuid, bool>, service: Uuid)
    requires service in s.connections
  {
    var session := s.connections[service].session;
    !(service in services && session.Some? && session.value in s.alive)
  }

  /** The purge pops the list of expired services from its back. */
  function LoseAll(s: State, expired: seq<Uuid>): State
    decreases |expired|
  {
    if expired == [] then s
    else LoseAll(LoseConnection(s, expired[|expired| - 1]), expired[..|expired| - 1])
  }

  function Step(s: State, e: Event): State
    requires Enabled(s, e)
  {
    match e
    case New(f, targets) =>
      s.(futures := s.futures[f := Future(seq(|targets|, k requires 0 <= k < |targets| =>
                                             Slot(targets[k], 0, "", "", false)), false, false)],
         born := s.born + {f})
    case DoLaunch(f, requests, sessions) => Launch(s, f, requests, sessions)
    case Expire(f) => s.(futures := s.futures - {f})
    case FiberDone(entry, payload, error) =>
      SetResponse(s.(fibers := s.fibers - {entry}), entry.future, entry.request, payload, error)
    case Reply(session, request, payload, error) =>
      var service := s.sessions[session];
      if service == 0 || service !in s.connections then s else
      (match EntryFor(s.connections[service].waiting, request)
       case None => s
       case Some(entry) => SetResponse(s, entry.future, request, payload, error))
    case Close(session) =>
      var service := s.sessions[session];
      (if service == 0 then s else LoseConnection(s, service))
        .(sessions := s.sessions - {session}, alive := s.alive - {session})
    case Vanish(session) => s.(alive := s.alive - {session})
    case Refresh(services, expired) => LoseAll(s.(services := services), expired)
  }
}
