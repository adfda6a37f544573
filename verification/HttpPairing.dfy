/** Pipelined HTTP requests: one queue of weak futures per `host:port`, and the peers that answer in order. */
module HttpPairing {
  import opened Options

  datatype Scheme = Http | Https

  /** A request URI; port 0 stands for none. */
  datatype Uri = Uri(scheme: Scheme, host: string, port: nat)

  datatype Key = Key(host: string, port: nat)

  function KeyOf(uri: Uri): Key {
    Key(uri.host, if uri.port != 0 then uri.port else if uri.scheme == Http then 80 else 443)
  }

  datatype Response = Response(status: nat, headers: seq<(string, string)>, payload: string)

  /** `completions` counts how often the future has been completed. */
  datatype Future = Future(status: nat, contentType: string, payload: string, completions: nat)

  /** The record of a host. Its sessions are weak references. */
  datatype Conn = Conn(http: Option<nat>, https: Option<nat>, queue: seq<nat>)

  /** An open session and the requests that the peer has yet to answer on it, in order. */
  datatype Session = Session(key: Key, scheme: Scheme, sent: seq<nat>)

  /** `answers` is what the peers really answered; the program does not have it. */
  datatype State = State(
    conns: map<Key, Conn>,
    sessions: map<nat, Session>,
    used: set<nat>,
    futures: map<nat, Future>,
    born: set<nat>,
    answers: map<nat, Response>)

  const Fresh := Future(0, "", "", 0)

  function Initial(): State {
    State(map[], map[], {}, map[], {}, map[])
  }

  function ConnOf(conns: map<Key, Conn>, key: Key): Conn {
    if key in conns then conns[key] else Conn(None, None, [])
  }

  function SessionOf(conn: Conn, scheme: Scheme): Option<nat> {
    if scheme == Http then conn.http else conn.https
  }

  function Other(scheme: Scheme): Scheme {
    if scheme == Http then Https else Http
  }

  predicate Alive(s: State, session: Option<nat>) {
    session.Some? && session.value in s.sessions
  }

  /** The last `Content-Type` header wins. */
  function ContentType(headers: seq<(string, string)>, default: string): string
    decreases |headers|
  {
    if headers == [] then default
    else if headers[|headers| - 1].0 == "Content-Type" then headers[|headers| - 1].1
    else ContentType(headers[..|headers| - 1], default)
  }

  /** `value` is that of the last header named `Content-Type`, or what it was if there is none. */
  ghost predicate IsContentType(headers: seq<(string, string)>, was: string, value: string) {
    if forall i :: 0 <= i < |headers| ==> headers[i].0 != "Content-Type" then value == was
    else exists i :: IsLastType(headers, i) && headers[i].1 == value
  }

  ghost predicate IsLastType(headers: seq<(string, string)>, i: int) {
    && 0 <= i < |headers| && headers[i].0 == "Content-Type"
    && forall j :: i < j < |headers| ==> headers[j].0 != "Content-Type"
  }

  lemma OtherHeaderAdded(headers: seq<(string, string)>, last: (string, string), was: string, value: string)
    requires last.0 != "Content-Type" && IsContentType(headers, was, value)
    ensures IsContentType(headers + [last], was, value)
  {
    if i :| IsLastType(headers, i) && headers[i].1 == value {
      assert IsLastType(headers + [last], i) && (headers + [last])[i].1 == value;
    }
  }

  lemma {:induction false} ContentTypeIsLast(headers: seq<(string, string)>, was: string)
    ensures IsContentType(headers, was, ContentType(headers, was))
    decreases |headers|
  {
    if headers != [] {
      var last := |headers| - 1;
      if headers[last].0 == "Content-Type" {
        assert IsLastType(headers, last);
      } else {
        ContentTypeIsLast(headers[..last], was);
        OtherHeaderAdded(headers[..last], headers[last], was, ContentType(headers[..last], was));
        assert headers[..last] + [headers[last]] == headers;
      }
    }
  }

  /** The future was `before` and has completed with this response. */
  ghost predicate Received(before: Future, after: Future, response: Response) {
    && after.status == response.status && after.payload == response.payload
    && IsContentType(response.headers, before.contentType, after.contentType)
    && after.completions == before.completions + 1
  }

  /** Nothing has arrived yet. */
  predicate Untouched(fut: Future) {
    fut.status == 0 && fut.contentType == "" && fut.payload == "" && fut.completions == 0
  }

  /** The connection has been lost. */
  predicate GaveUp(fut: Future) {
    fut.status == 0 && fut.contentType == "" && fut.payload == "" && fut.completions == 1
  }

  function Answered(fut: Future, response: Response): Future {
    Future(response.status, ContentType(response.headers, fut.contentType), response.payload, fut.completions + 1)
  }

  function Failed(fut: Future): Future {
    fut.(status := 0, completions := fut.completions + 1)
  }

  // ----- Operations -----

  /** The record of the host with a session of this scheme: the one on record if it is alive, or else a new one. */
  function Connect(s: State, key: Key, scheme: Scheme, session: nat): State {
    var conn := ConnOf(s.conns, key);
    if Alive(s, SessionOf(conn, scheme)) then s.(conns := s.conns[key := conn])
    else s.(conns := s.conns[key := if scheme == Http then conn.(http := Some(session))
                                    else conn.(https := Some(session))],
            sessions := s.sessions[session := Session(key, scheme, [])])
  }

  /** The request joins the queue of its host, and goes out on the session. */
  function Push(s: State, f: nat, key: Key, id: nat): State
    requires key in s.conns && id in s.sessions
  {
    s.(conns := s.conns[key := s.conns[key].(queue := s.conns[key].queue + [f])],
       sessions := s.sessions[id := s.sessions[id].(sent := s.sessions[id].sent + [f])],
       used := s.used + {id},
       futures := s.futures[f := Fresh],
       born := s.born + {f})
  }

  /** `enqueue_weak`; `session` is the identity of a new session, in case one is needed. */
  function Enqueue(s: State, f: nat, uri: Uri, session: nat): State {
    var t := Connect(s, KeyOf(uri), uri.scheme, session);
    Push(t, f, KeyOf(uri), SessionOf(t.conns[KeyOf(uri)], uri.scheme).value)
  }

  /** `do_set_single_response`. */
  function SetResponse(s: State, key: Key, response: Response): State {
    if response.status <= 199 then s else
    var conn := ConnOf(s.conns, key);
    if conn.queue == [] then s.(conns := s.conns[key := conn]) else
    var f := conn.queue[0];
    s.(conns := s.conns[key := conn.(queue := conn.queue[1..])],
       futures := if f in s.futures then s.futures[f := Answered(s.futures[f], response)] else s.futures)
  }

  /** What the peer has done when this message arrives: a final response is for the oldest request on the wire. */
  function Deliver(s: State, session: nat, response: Response): State
    requires session in s.sessions
  {
    var wire := s.sessions[session];
    if response.status <= 199 || wire.sent == [] then s
    else s.(sessions := s.sessions[session := wire.(sent := wire.sent[1..])],
            answers := s.answers[wire.sent[0] := response])
  }

  function FailAll(futures: map<nat, Future>, queue: seq<nat>): map<nat, Future> {
    if queue == [] then futures
    else if queue[0] in futures then FailAll(futures[queue[0] := Failed(futures[queue[0]])], queue[1..])
    else FailAll(futures, queue[1..])
  }

  /** `do_remove_connection`. */
  function RemoveConnection(s: State, key: Key): State {
    s.(conns := s.conns - {key}, futures := FailAll(s.futures, ConnOf(s.conns, key).queue))
  }

  // ----- Events -----

  datatype Event =
    | DoEnqueue(f: nat, uri: Uri, session: nat)
    | Message(session: nat, response: Response)
    | Close(session: nat)
    | Expire(f: nat)

  /** Identities are new, and a session raises no event after its close. */
  predicate Enabled(s: State, e: Event) {
    match e
    case DoEnqueue(f, _, session) =>
      && f !in s.born && session !in s.used
      && forall key :: key in s.conns ==> s.conns[key].http != Some(session) && s.conns[key].https != Some(session)
    case Message(session, _) => session in s.sessions
    case Close(session) => session in s.sessions
    case Expire(f) => f in s.futures
  }

  function Step(s: State, e: Event): State
    requires Enabled(s, e)
  {
    match e
    case DoEnqueue(f, uri, session) => Enqueue(s, f, uri, session)
    case Message(session, response) => SetResponse(Deliver(s, session, response), s.sessions[session].key, response)
    case Close(session) =>
      RemoveConnection(s, s.sessions[session].key).(sessions := s.sessions - {session})
    case Expire(f) => s.(futures := s.futures - {f})
  }

  /** A host is used with one scheme at a time: there is no open session of the other one. */
  predicate Conforming(s: State, e: Event) {
    e.DoEnqueue? ==> !Alive(s, SessionOf(ConnOf(s.conns, KeyOf(e.uri)), Other(e.uri.scheme)))
  }
}
