/** The k-th final response answers the k-th request. */
module HttpTheorems {
  import opened Options
  import opened HttpPairing
  import opened Sets

  // ----- Invariant -----

  /** The future's request is on the wire. */
  ghost predicate OnWire(s: State, f: nat) {
    exists session :: session in s.sessions && f in s.sessions[session].sent
  }

  /** An answered request has got the status, the headers' type and the payload of its own answer, one on the wire has
      got nothing, and any other has failed; and no future has been completed twice. */
  ghost predicate FutureOk(s: State, f: nat)
    requires f in s.futures
  {
    if f in s.answers then Received(Fresh, s.futures[f], s.answers[f])
    else if OnWire(s, f) then Untouched(s.futures[f])
    else GaveUp(s.futures[f])
  }

  ghost predicate FuturesOk(s: State) {
    forall f :: f in s.futures ==> FutureOk(s, f)
  }

  /** The session is the one of its host's record, alone, and what is on the wire is what is in the queue. */
  ghost predicate SessionOk(s: State, session: nat)
    requires session in s.sessions
  {
    var it := s.sessions[session];
    && session in s.used && it.key in s.conns
    && SessionOf(s.conns[it.key], it.scheme) == Some(session)
    && !Alive(s, SessionOf(s.conns[it.key], Other(it.scheme)))
    && s.conns[it.key].queue == it.sent
  }

  ghost predicate SessionsOk(s: State) {
    forall session :: session in s.sessions ==> SessionOk(s, session)
  }

  /** Without a session there is no queue, and a record's session is of this host and scheme. */
  ghost predicate ConnOk(s: State, key: Key)
    requires key in s.conns
  {
    var conn := s.conns[key];
    && (Alive(s, conn.http) ==> s.sessions[conn.http.value].key == key && s.sessions[conn.http.value].scheme == Http)
    && (Alive(s, conn.https) ==>
         s.sessions[conn.https.value].key == key && s.sessions[conn.https.value].scheme == Https)
    && (!Alive(s, conn.http) && !Alive(s, conn.https) ==> conn.queue == [])
  }

  ghost predicate ConnsOk(s: State) {
    forall key :: key in s.conns ==> ConnOk(s, key)
  }

  ghost predicate NoRepeats(xs: seq<nat>) {
    forall i, j :: 0 <= i < j < |xs| ==> xs[i] != xs[j]
  }

  /** Each request is on one wire, once, and has no answer yet. */
  ghost predicate WiresOk(s: State) {
    && (forall session, f :: session in s.sessions && f in s.sessions[session].sent ==> f in s.born && f !in s.answers)
    && (forall session :: session in s.sessions ==> NoRepeats(s.sessions[session].sent))
    && (forall a, b, f ::
         a in s.sessions && b in s.sessions && f in s.sessions[a].sent && f in s.sessions[b].sent ==> a == b)
    && s.answers.Keys <= s.born && s.futures.Keys <= s.born
  }

  ghost predicate Inv(s: State) {
    SessionsOk(s) && ConnsOk(s) && WiresOk(s) && FuturesOk(s)
  }

  // ----- Steps -----

  lemma {:induction false} FailAllEffect(futures: map<nat, Future>, queue: seq<nat>)
    requires NoRepeats(queue)
    ensures FailAll(futures, queue).Keys == futures.Keys
    ensures forall f :: f in futures ==>
      FailAll(futures, queue)[f] == if f in queue then Failed(futures[f]) else futures[f]
    decreases |queue|
  {
    if queue != [] {
      var next := if queue[0] in futures then futures[queue[0] := Failed(futures[queue[0]])] else futures;
      FailAllEffect(next, queue[1..]);
    }
  }

  /** A record's session, if it is alive, is of this host and scheme. */
  lemma LinkOk(s: State, key: Key, scheme: Scheme)
    requires ConnsOk(s) && key in s.conns && Alive(s, SessionOf(s.conns[key], scheme))
    ensures var it := s.sessions[SessionOf(s.conns[key], scheme).value]; it.key == key && it.scheme == scheme
  {
    assert ConnOk(s, key);
  }

  /** A request of this host and scheme is sent on session `id`, after what was on its wire. */
  ghost predicate Routed(s: State, t: State, f: nat, key: Key, scheme: Scheme, id: nat, sent: seq<nat>) {
    && t.sessions == s.sessions[id := Session(key, scheme, sent + [f])]
    && (id in s.sessions ==> s.sessions[id] == Session(key, scheme, sent)) && (id !in s.sessions ==> sent == [])
    && (Alive(s, SessionOf(ConnOf(s.conns, key), scheme)) ==> SessionOf(ConnOf(s.conns, key), scheme) == Some(id))
    && key in t.conns && t.conns == s.conns[key := t.conns[key]] && t.conns[key].queue == sent + [f]
    && SessionOf(t.conns[key], scheme) == Some(id)
    && SessionOf(t.conns[key], Other(scheme)) == SessionOf(ConnOf(s.conns, key), Other(scheme))
    && t.used == s.used + {id} && t.futures == s.futures[f := Fresh] && t.born == s.born + {f} && t.answers == s.answers
  }

  lemma PushRoutes(s: State, f: nat, key: Key, scheme: Scheme, session: nat, id: nat, sent: seq<nat>)
    requires ConnOf(s.conns, key).queue == sent
    requires var current := SessionOf(ConnOf(s.conns, key), scheme);
      if Alive(s, current) then current == Some(id) && s.sessions[id] == Session(key, scheme, sent)
      else id == session && id !in s.sessions && sent == []
    ensures var t := Connect(s, key, scheme, session);
      && SessionOf(t.conns[key], scheme) == Some(id) && id in t.sessions
      && Routed(s, Push(t, f, key, id), f, key, scheme, id, sent)
  {
    var t := Connect(s, key, scheme, session);
    assert t.sessions[id] == Session(key, scheme, sent);
    assert Push(t, f, key, id).sessions == s.sessions[id := Session(key, scheme, sent + [f])];
  }

  lemma Route(s: State, f: nat, uri: Uri, session: nat) returns (id: nat, sent: seq<nat>)
    requires Inv(s) && Enabled(s, DoEnqueue(f, uri, session)) && Conforming(s, DoEnqueue(f, uri, session))
    ensures Routed(s, Enqueue(s, f, uri, session), f, KeyOf(uri), uri.scheme, id, sent)
    ensures id !in s.sessions ==> id == session
  {
    var key := KeyOf(uri);
    var current := SessionOf(ConnOf(s.conns, key), uri.scheme);
    if Alive(s, current) {
      LinkOk(s, key, uri.scheme);
      id := current.value;
      assert SessionOk(s, id);
      sent := s.sessions[id].sent;
    } else {
      id, sent := session, [];
      assert key in s.conns ==> ConnOk(s, key);
      assert session in s.sessions ==> SessionOk(s, session);
    }
    PushRoutes(s, f, key, uri.scheme, session, id, sent);
  }

  /** The new session is nobody's yet. */
  ghost predicate Unlinked(s: State, id: nat) {
    id !in s.sessions ==>
      forall key :: key in s.conns ==> s.conns[key].http != Some(id) && s.conns[key].https != Some(id)
  }

  lemma RouteKeepsSession(s: State, t: State, f: nat, key: Key, scheme: Scheme, id: nat, sent: seq<nat>, i: nat)
    requires SessionsOk(s) && ConnsOk(s) && Routed(s, t, f, key, scheme, id, sent) && Unlinked(s, id)
    requires !Alive(s, SessionOf(ConnOf(s.conns, key), Other(scheme))) && i in t.sessions
    ensures SessionOk(t, i)
  {
    if i != id {
      assert SessionOk(s, i);
      assert s.sessions[i].key != key;
      var other := SessionOf(s.conns[s.sessions[i].key], Other(s.sessions[i].scheme));
      assert other != Some(id);
    }
  }

  lemma RouteKeepsConn(s: State, t: State, f: nat, key: Key, scheme: Scheme, id: nat, sent: seq<nat>, k: Key)
    requires SessionsOk(s) && ConnsOk(s) && Routed(s, t, f, key, scheme, id, sent) && Unlinked(s, id)
    requires !Alive(s, SessionOf(ConnOf(s.conns, key), Other(scheme))) && k in t.conns
    ensures ConnOk(t, k)
  {
    if k in s.conns {
      assert ConnOk(s, k);
    }
    assert id in s.sessions ==> SessionOk(s, id);
  }

  lemma RouteKeepsWires(s: State, t: State, f: nat, key: Key, scheme: Scheme, id: nat, sent: seq<nat>)
    requires WiresOk(s) && Routed(s, t, f, key, scheme, id, sent) && f !in s.born
    ensures WiresOk(t)
  {
    assert f !in sent;
    assert forall i :: i in t.sessions && i != id ==> i in s.sessions && t.sessions[i] == s.sessions[i];
  }

  lemma RouteKeepsFutures(s: State, t: State, f: nat, key: Key, scheme: Scheme, id: nat, sent: seq<nat>)
    requires FuturesOk(s) && WiresOk(s) && Routed(s, t, f, key, scheme, id, sent) && f !in s.born
    ensures FuturesOk(t)
  {
    forall g | g in t.futures ensures FutureOk(t, g) {
      if g == f {
        assert f in t.sessions[id].sent;
      } else {
        assert FutureOk(s, g);
        OnWireUnlessSent(s, t, id, sent, key, scheme, f, g);
      }
    }
  }

  lemma OnWireUnlessSent(s: State, t: State, id: nat, sent: seq<nat>, key: Key, scheme: Scheme, f: nat, g: nat)
    requires t.sessions == s.sessions[id := Session(key, scheme, sent + [f])] && g != f
    requires if id in s.sessions then s.sessions[id].sent == sent else sent == []
    ensures OnWire(t, g) <==> OnWire(s, g)
  {
    if OnWire(s, g) {
      var i :| i in s.sessions && g in s.sessions[i].sent;
      assert g in t.sessions[i].sent;
    }
    if OnWire(t, g) {
      var i :| i in t.sessions && g in t.sessions[i].sent;
      assert g in s.sessions[i].sent;
    }
  }

  lemma EnqueueKeepsInv(s: State, f: nat, uri: Uri, session: nat)
    requires Inv(s) && Enabled(s, DoEnqueue(f, uri, session)) && Conforming(s, DoEnqueue(f, uri, session))
    ensures Inv(Step(s, DoEnqueue(f, uri, session)))
  {
    var t, key := Enqueue(s, f, uri, session), KeyOf(uri);
    var id, sent := Route(s, f, uri, session);
    forall i | i in t.sessions ensures SessionOk(t, i) { RouteKeepsSession(s, t, f, key, uri.scheme, id, sent, i); }
    forall k | k in t.conns ensures ConnOk(t, k) { RouteKeepsConn(s, t, f, key, uri.scheme, id, sent, k); }
    RouteKeepsWires(s, t, f, key, uri.scheme, id, sent);
    RouteKeepsFutures(s, t, f, key, uri.scheme, id, sent);
  }

  // ----- Responses -----

  /** A response that is not final, or that no request waits for, changes nothing. */
  lemma OtherMessagesChangeNothing(s: State, session: nat, response: Response)
    requires Inv(s) && session in s.sessions
    requires response.status <= 199 || s.sessions[session].sent == []
    ensures Step(s, Message(session, response)) == s
  {
    assert SessionOk(s, session);
    var key := s.sessions[session].key;
    assert s.conns[key := s.conns[key]] == s.conns;
  }

  /** A final response consumes one request, on the wire and in the queue, and it is the same one. */
  lemma FinalMessage(s: State, session: nat, response: Response) returns (f: nat)
    requires Inv(s) && session in s.sessions && response.status > 199 && s.sessions[session].sent != []
    ensures var t := Step(s, Message(session, response));
      var it := s.sessions[session];
      && f == it.sent[0]
      && t.sessions == s.sessions[session := it.(sent := it.sent[1..])]
      && it.key in s.conns && t.conns == s.conns[it.key := s.conns[it.key].(queue := it.sent[1..])]
      && t.answers == s.answers[f := response] && t.futures.Keys == s.futures.Keys
      && (forall g :: g in s.futures && g != f ==> t.futures[g] == s.futures[g])
      && (f in s.futures ==> Received(s.futures[f], t.futures[f], response))
      && t.used == s.used && t.born == s.born
  {
    assert SessionOk(s, session);
    f := s.sessions[session].sent[0];
    if f in s.futures {
      ContentTypeIsLast(response.headers, s.futures[f].contentType);
    }
  }

  lemma FinalKeepsLinks(s: State, t: State, session: nat)
    requires SessionsOk(s) && ConnsOk(s) && session in s.sessions && s.sessions[session].sent != []
    requires var it := s.sessions[session];
      && t.sessions == s.sessions[session := it.(sent := it.sent[1..])] && t.used == s.used
      && it.key in s.conns && t.conns == s.conns[it.key := s.conns[it.key].(queue := it.sent[1..])]
    ensures SessionsOk(t) && ConnsOk(t)
  {
    var it := s.sessions[session];
    assert SessionOk(s, session);
    forall i | i in t.sessions ensures SessionOk(t, i) {
      assert SessionOk(s, i);
    }
    forall key | key in t.conns ensures ConnOk(t, key) {
      assert ConnOk(s, key);
    }
  }

  lemma FinalKeepsWires(s: State, t: State, session: nat, f: nat, response: Response)
    requires WiresOk(s) && session in s.sessions && s.sessions[session].sent != [] && s.sessions[session].sent[0] == f
    requires var it := s.sessions[session];
      t.sessions == s.sessions[session := it.(sent := it.sent[1..])] && t.answers == s.answers[f := response]
    requires t.futures.Keys == s.futures.Keys && t.born == s.born
    ensures WiresOk(t) && !OnWire(t, f)
    ensures forall g :: g != f ==> (OnWire(t, g) <==> OnWire(s, g))
  {
    var sent := s.sessions[session].sent;
    assert NoRepeats(sent);
    assert f !in sent[1..];
    forall g | g != f && OnWire(s, g) ensures OnWire(t, g) {
      var i :| i in s.sessions && g in s.sessions[i].sent;
      assert g in t.sessions[i].sent;
    }
  }

  lemma MessageKeepsInv(s: State, session: nat, response: Response)
    requires Inv(s) && session in s.sessions
    ensures Inv(Step(s, Message(session, response)))
  {
    if response.status <= 199 || s.sessions[session].sent == [] {
      OtherMessagesChangeNothing(s, session, response);
    } else {
      var t := Step(s, Message(session, response));
      var f := FinalMessage(s, session, response);
      FinalKeepsLinks(s, t, session);
      FinalKeepsWires(s, t, session, f, response);
      assert OnWire(s, f);
      forall g | g in t.futures ensures FutureOk(t, g) {
        assert FutureOk(s, g);
      }
    }
  }

  // ----- Close and expiry -----

  lemma CloseKeepsLinks(s: State, session: nat)
    requires Inv(s) && session in s.sessions
    ensures SessionsOk(Step(s, Close(session))) && ConnsOk(Step(s, Close(session)))
  {
    var t := Step(s, Close(session));
    assert SessionOk(s, session);
    forall i | i in t.sessions ensures SessionOk(t, i) {
      assert SessionOk(s, i);
    }
    forall key | key in t.conns ensures ConnOk(t, key) {
      assert ConnOk(s, key);
      forall scheme | Alive(s, SessionOf(s.conns[key], scheme))
        ensures SessionOf(s.conns[key], scheme) != Some(session)
      {
        LinkOk(s, key, scheme);
      }
      assert SessionOf(s.conns[key], Http) == s.conns[key].http;
      assert SessionOf(s.conns[key], Https) == s.conns[key].https;
    }
  }

  /** On close, every live request that is still on the wire completes with status 0, once; no other future
      changes. */
  lemma CloseFailsTheRest(s: State, session: nat, f: nat)
    requires Inv(s) && session in s.sessions && f in s.futures
    ensures var t := Step(s, Close(session));
      && f in t.futures
      && (if f in s.sessions[session].sent then GaveUp(t.futures[f]) else t.futures[f] == s.futures[f])
      && (f in s.sessions[session].sent ==> Untouched(s.futures[f]) && !OnWire(t, f))
  {
    assert SessionOk(s, session);
    FailAllEffect(s.futures, s.sessions[session].sent);
    assert FutureOk(s, f);
    if f in s.sessions[session].sent {
      assert OnWire(s, f);
    }
  }

  lemma CloseKeepsInv(s: State, session: nat)
    requires Inv(s) && session in s.sessions
    ensures Inv(Step(s, Close(session)))
  {
    var t := Step(s, Close(session));
    CloseKeepsLinks(s, session);
    assert SessionOk(s, session);
    FailAllEffect(s.futures, s.sessions[session].sent);
    assert WiresOk(t);
    forall f | f in t.futures ensures FutureOk(t, f) {
      assert FutureOk(s, f);
      CloseFailsTheRest(s, session, f);
      if f !in s.sessions[session].sent && OnWire(s, f) {
        var i :| i in s.sessions && f in s.sessions[i].sent;
        assert i in t.sessions;
      }
    }
  }

  lemma ExpireKeepsInv(s: State, f: nat)
    requires Inv(s) && f in s.futures
    ensures Inv(Step(s, Expire(f)))
  {
    var t := Step(s, Expire(f));
    forall i | i in t.sessions ensures SessionOk(t, i) {
      assert SessionOk(s, i);
    }
    forall key | key in t.conns ensures ConnOk(t, key) {
      assert ConnOk(s, key);
    }
    forall g | g in t.futures ensures FutureOk(t, g) {
      assert FutureOk(s, g);
      assert OnWire(t, g) <==> OnWire(s, g);
    }
  }

  lemma StepKeepsInv(s: State, e: Event)
    requires Inv(s) && Enabled(s, e) && Conforming(s, e)
    ensures Inv(Step(s, e))
  {
    match e
    case DoEnqueue(f, uri, session) => EnqueueKeepsInv(s, f, uri, session);
    case Message(session, response) => MessageKeepsInv(s, session, response);
    case Close(session) => CloseKeepsInv(s, session);
    case Expire(f) => ExpireKeepsInv(s, f);
  }

  // ----- Runs -----

  /** A run in which no host is used with two schemes at a time. */
  ghost predicate Legal(s: State, es: seq<Event>)
    decreases |es|
  {
    es == [] || (Enabled(s, es[0]) && Conforming(s, es[0]) && Legal(Step(s, es[0]), es[1..]))
  }

  ghost function Run(s: State, es: seq<Event>): State
    requires Legal(s, es)
    decreases |es|
  {
    if es == [] then s else Run(Step(s, es[0]), es[1..])
  }

  lemma {:induction false} RunKeepsInv(s: State, es: seq<Event>)
    requires Inv(s) && Legal(s, es)
    ensures Inv(Run(s, es))
    decreases |es|
  {
    if es != [] {
      StepKeepsInv(s, es[0]);
      RunKeepsInv(Step(s, es[0]), es[1..]);
    }
  }

  /** Every live future has the peer's answer to its own request if there is one; it is pending while the request is
      on the wire; otherwise it has failed with status 0. It is never completed twice. */
  lemma PairingHolds(es: seq<Event>, f: nat)
    requires Legal(Initial(), es) && f in Run(Initial(), es).futures
    ensures FutureOk(Run(Initial(), es), f)
    ensures Run(Initial(), es).futures[f].completions <= 1
  {
    RunKeepsInv(Initial(), es);
  }

  /** A request that names no port shares the record, and so the session and the queue, of those that name its scheme's
      own port; two requests share one exactly if host and port are the same in this sense. */
  lemma DefaultPorts(a: Uri, b: Uri)
    ensures a.scheme == Http && a.port == 0 ==> KeyOf(a) == KeyOf(a.(port := 80))
    ensures a.scheme == Https && a.port == 0 ==> KeyOf(a) == KeyOf(a.(port := 443))
    ensures a.port != 0 && b.port != 0 ==> (KeyOf(a) == KeyOf(b) <==> a.host == b.host && a.port == b.port)
  {
  }

  // ----- Mixing schemes -----

  /** No future that has completed with a response has someone else's. */
  ghost predicate Paired(s: State) {
    forall f :: f in s.futures && s.futures[f].completions > 0 && s.futures[f].status != 0 ==>
      f in s.answers && Received(Fresh, s.futures[f], s.answers[f])
  }

  lemma InvIsPaired(s: State)
    requires Inv(s)
    ensures Paired(s)
  {
    forall f | f in s.futures && s.futures[f].completions > 0 && s.futures[f].status != 0
      ensures f in s.answers && Received(Fresh, s.futures[f], s.answers[f])
    {
      assert FutureOk(s, f);
    }
  }

  /** Whatever follows this request, as long as it does not mix schemes itself, responses find their requests. */
  ghost predicate Safe(s: State, e: Event)
    requires Enabled(s, e)
  {
    forall es :: Legal(Step(s, e), es) ==> Paired(Run(Step(s, e), es))
  }

  /** The events that expose a mix: the old session closes, a third request opens a third session, and the second
      one's answer arrives. */
  ghost function Exposure(first: nat, uri: Uri, second: nat, g: nat, third: nat): seq<Event> {
    [Close(first), DoEnqueue(g, uri, third), Message(second, Response(200, [], ""))]
  }

  ghost function Linked(s: State): set<nat> {
    (set key | key in s.conns && s.conns[key].http.Some? :: s.conns[key].http.value)
    + (set key | key in s.conns && s.conns[key].https.Some? :: s.conns[key].https.value)
  }

  /** The request on the other scheme gets a session of its own beside the old one. */
  lemma MixedRequest(s: State, f: nat, uri: Uri, session: nat) returns (first: nat)
    requires Inv(s) && Enabled(s, DoEnqueue(f, uri, session)) && !Conforming(s, DoEnqueue(f, uri, session))
    ensures var t := Step(s, DoEnqueue(f, uri, session));
      && first in t.sessions && first != session && t.sessions[first].key == KeyOf(uri)
      && session in t.sessions && t.sessions[session] == Session(KeyOf(uri), uri.scheme, [f])
  {
    var key := KeyOf(uri);
    first := SessionOf(s.conns[key], Other(uri.scheme)).value;
    LinkOk(s, key, Other(uri.scheme));
    assert SessionOk(s, first);
  }

  lemma AfterTheClose(t: State, key: Key, first: nat)
    requires first in t.sessions && t.sessions[first].key == key
    ensures var u := Step(t, Close(first));
      key !in u.conns && u.sessions == t.sessions - {first} && u.born == t.born && u.answers == t.answers
      && u.used == t.used && Linked(u) <= Linked(t)
  {
  }

  /** The third request is alone in the queue, while the second is still on its wire. */
  lemma ThirdRequest(u: State, uri: Uri, g: nat, third: nat)
    requires KeyOf(uri) !in u.conns && g !in u.born && third !in u.used && third !in Linked(u) && third !in u.sessions
    ensures Enabled(u, DoEnqueue(g, uri, third)) && Conforming(u, DoEnqueue(g, uri, third))
    ensures var v := Step(u, DoEnqueue(g, uri, third));
      && KeyOf(uri) in v.conns && v.conns[KeyOf(uri)].queue == [g] && g in v.futures && v.futures[g] == Fresh
      && v.answers == u.answers && (forall i :: i in u.sessions ==> i in v.sessions && v.sessions[i] == u.sessions[i])
  {
  }

  lemma SecondAnswer(v: State, key: Key, scheme: Scheme, second: nat, f: nat, g: nat, response: Response)
    requires key in v.conns && v.conns[key].queue == [g] && g in v.futures && v.futures[g] == Fresh
    requires second in v.sessions && v.sessions[second] == Session(key, scheme, [f])
    requires g != f && g !in v.answers && response.status > 199
    ensures !Paired(Step(v, Message(second, response)))
  {
    var w := Step(v, Message(second, response));
    assert w.futures[g].completions == 1 && w.futures[g].status == response.status && g !in w.answers;
  }

  lemma ExposureMispairs(t: State, uri: Uri, first: nat, second: nat, f: nat, g: nat, third: nat)
    requires first in t.sessions && first != second && t.sessions[first].key == KeyOf(uri)
    requires second in t.sessions && t.sessions[second] == Session(KeyOf(uri), uri.scheme, [f])
    requires g !in t.born && g != f && g !in t.answers
    requires third !in t.used && third !in Linked(t) && third !in t.sessions
    ensures Legal(t, Exposure(first, uri, second, g, third))
    ensures !Paired(Run(t, Exposure(first, uri, second, g, third)))
  {
    var es := Exposure(first, uri, second, g, third);
    AfterTheClose(t, KeyOf(uri), first);
    var u := Step(t, es[0]);
    ThirdRequest(u, uri, g, third);
    var v := Step(u, es[1]);
    SecondAnswer(v, KeyOf(uri), uri.scheme, second, f, g, Response(200, [], ""));
    ThreeEvents(t, es[0], es[1], es[2]);
  }

  lemma ThreeEvents(t: State, e1: Event, e2: Event, e3: Event)
    requires Enabled(t, e1) && Conforming(t, e1)
    requires var u := Step(t, e1); Enabled(u, e2) && Conforming(u, e2)
    requires var v := Step(Step(t, e1), e2); Enabled(v, e3) && Conforming(v, e3)
    ensures Legal(t, [e1, e2, e3]) && Run(t, [e1, e2, e3]) == Step(Step(Step(t, e1), e2), e3)
  {
    var u, es := Step(t, e1), [e1, e2, e3];
    var v := Step(u, e2);
    assert es[1..] == [e2, e3] && [e2, e3][1..] == [e3] && [e3][1..] == [];
    var w := Step(v, e3);
    assert Legal(w, []) && Run(w, []) == w;
    assert Legal(v, [e3]) && Run(v, [e3]) == w;
    assert Legal(u, [e2, e3]) && Run(u, [e2, e3]) == Step(v, e3);
  }

  /** A request is safe whatever follows exactly if no session of the other scheme is open to its host and port. */
  lemma RequestIsSafeIff(s: State, f: nat, uri: Uri, session: nat)
    requires Inv(s) && Enabled(s, DoEnqueue(f, uri, session))
    ensures Safe(s, DoEnqueue(f, uri, session)) <==> Conforming(s, DoEnqueue(f, uri, session))
  {
    var e := DoEnqueue(f, uri, session);
    var t := Step(s, e);
    if Conforming(s, e) {
      StepKeepsInv(s, e);
      forall es | Legal(t, es) ensures Paired(Run(t, es)) {
        RunKeepsInv(t, es);
        InvIsPaired(Run(t, es));
      }
    } else {
      var first := MixedRequest(s, f, uri, session);
      var g := Above(t.born + t.answers.Keys + {f});
      var third := Above(t.used + Linked(t) + t.sessions.Keys);
      ExposureMispairs(t, uri, first, session, f, g, third);
    }
  }

  /** Such requests do occur: one host and port is asked over HTTP, and then over HTTPS. */
  lemma MixingIsReachable(host: string, port: nat)
    requires port != 0
    ensures var first, second := DoEnqueue(0, Uri(Http, host, port), 0), DoEnqueue(1, Uri(Https, host, port), 1);
      && Legal(Initial(), [first])
      && var s := Run(Initial(), [first]);
      Inv(s) && Enabled(s, second) && !Conforming(s, second) && !Safe(s, second)
  {
    var first, second := DoEnqueue(0, Uri(Http, host, port), 0), DoEnqueue(1, Uri(Https, host, port), 1);
    var s := Step(Initial(), first);
    assert [first][1..] == [];
    assert Legal(s, []) && Run(s, []) == s;
    RunKeepsInv(Initial(), [first]);
    assert SessionOf(s.conns[Key(host, port)], Http) == Some(0) && 0 in s.sessions;
    RequestIsSafeIff(s, 1, Uri(Https, host, port), 1);
  }
}
