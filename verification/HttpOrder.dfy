/** The order on one connection, told by requests and responses alone. */
module HttpOrder {
  import opened HttpPairing
  import opened HttpTheorems

  /** A request to this host with this scheme. */
  predicate IsRequest(e: Event, key: Key, scheme: Scheme) {
    e.DoEnqueue? && KeyOf(e.uri) == key && e.uri.scheme == scheme
  }

  /** A final response that arrives on this session. */
  predicate IsFinal(e: Event, session: nat) {
    e.Message? && e.session == session && e.response.status > 199
  }

  ghost function Requests(es: seq<Event>, key: Key, scheme: Scheme): seq<nat> {
    if es == [] then [] else (if IsRequest(es[0], key, scheme) then [es[0].f] else []) + Requests(es[1..], key, scheme)
  }

  ghost function Finals(es: seq<Event>, session: nat): seq<Response> {
    if es == [] then [] else (if IsFinal(es[0], session) then [es[0].response] else []) + Finals(es[1..], session)
  }

  /** The session stays open, and its peer answers no more requests than it has been sent. */
  ghost predicate Orderly(es: seq<Event>, session: nat, key: Key, scheme: Scheme, waiting: nat)
    decreases |es|
  {
    es == [] ||
    (es[0] != Close(session) && (IsFinal(es[0], session) ==> waiting > 0)
     && Orderly(es[1..], session, key, scheme,
                if IsRequest(es[0], key, scheme) then waiting + 1
                else if IsFinal(es[0], session) then waiting - 1 else waiting))
  }

  /** An answer that has been given stays. */
  lemma StepKeepsAnswers(s: State, e: Event, f: nat)
    requires Inv(s) && Enabled(s, e) && Conforming(s, e) && f in s.answers
    ensures f in Step(s, e).answers && Step(s, e).answers[f] == s.answers[f]
  {
    if e.Message? && e.response.status > 199 && s.sessions[e.session].sent != [] {
      var g := FinalMessage(s, e.session, e.response);
      assert g in s.sessions[e.session].sent;
    } else if e.Message? {
      OtherMessagesChangeNothing(s, e.session, e.response);
    }
  }

  lemma {:induction false} RunKeepsAnswers(s: State, es: seq<Event>, f: nat)
    requires Inv(s) && Legal(s, es) && f in s.answers
    ensures f in Run(s, es).answers && Run(s, es).answers[f] == s.answers[f]
    decreases |es|
  {
    if es != [] {
      StepKeepsAnswers(s, es[0], f);
      StepKeepsInv(s, es[0]);
      RunKeepsAnswers(Step(s, es[0]), es[1..], f);
    }
  }

  /** What one event does to the wire of an open session. */
  lemma WireStep(s: State, e: Event, id: nat)
    requires Inv(s) && Enabled(s, e) && Conforming(s, e) && id in s.sessions && e != Close(id)
    ensures var t, it := Step(s, e), s.sessions[id];
      id in t.sessions && t.sessions[id].key == it.key && t.sessions[id].scheme == it.scheme
      && t.sessions[id].sent ==
         if IsRequest(e, it.key, it.scheme) then it.sent + [e.f]
         else if IsFinal(e, id) && it.sent != [] then it.sent[1..]
         else it.sent
  {
    assert SessionOk(s, id);
    match e
    case DoEnqueue(f, uri, session) => var i, sent := Route(s, f, uri, session);
    case Message(session, response) =>
      if response.status <= 199 || s.sessions[session].sent == [] {
        OtherMessagesChangeNothing(s, session, response);
      } else {
        var f := FinalMessage(s, session, response);
      }
    case Close(session) =>
    case Expire(f) =>
  }

  /** If the future is still alive, it has been completed once, with this response. */
  ghost predicate GotItsAnswer(t: State, f: nat, response: Response) {
    f in t.futures ==> Received(Fresh, t.futures[f], response)
  }

  /** The k-th response is for the k-th request, and the requests without a response are in the queue. */
  ghost predicate Matched(t: State, key: Key, asked: seq<nat>, got: seq<Response>) {
    && |got| <= |asked| && key in t.conns && t.conns[key].queue == asked[|got|..]
    && forall k :: 0 <= k < |got| ==> GotItsAnswer(t, asked[k], got[k])
  }

  lemma MatchedOneMore(t: State, key: Key, f: nat, asked: seq<nat>, response: Response, got: seq<Response>)
    requires Matched(t, key, asked, got) && GotItsAnswer(t, f, response)
    ensures Matched(t, key, [f] + asked, [response] + got)
  {
    assert ([f] + asked)[1 + |got|..] == asked[|got|..];
  }

  lemma RequestsUnfold(es: seq<Event>, key: Key, scheme: Scheme)
    requires es != []
    ensures Requests(es, key, scheme)
         == if IsRequest(es[0], key, scheme) then [es[0].f] + Requests(es[1..], key, scheme)
            else Requests(es[1..], key, scheme)
  {
    assert [] + Requests(es[1..], key, scheme) == Requests(es[1..], key, scheme);
  }

  lemma FinalsUnfold(es: seq<Event>, id: nat)
    requires es != []
    ensures Finals(es, id) == if IsFinal(es[0], id) then [es[0].response] + Finals(es[1..], id) else Finals(es[1..], id)
  {
    assert [] + Finals(es[1..], id) == Finals(es[1..], id);
  }

  /** `sent` is on the wire before an event and `next` after it. */
  lemma WireAndRequests(e: Event, id: nat, key: Key, scheme: Scheme, sent: seq<nat>, next: seq<nat>, later: seq<nat>)
    requires IsFinal(e, id) ==> sent != []
    requires next == if IsRequest(e, key, scheme) then sent + [e.f] else if IsFinal(e, id) then sent[1..] else sent
    ensures sent + (if IsRequest(e, key, scheme) then [e.f] + later else later)
         == if IsFinal(e, id) then [sent[0]] + (next + later) else next + later
  {
    if IsFinal(e, id) {
      assert sent == [sent[0]] + sent[1..];
    } else if IsRequest(e, key, scheme) {
      assert sent + ([e.f] + later) == (sent + [e.f]) + later;
    }
  }

  /** What holds of the later events holds of all. */
  lemma MatchedBefore(t: State, es: seq<Event>, id: nat, key: Key, scheme: Scheme, sent: seq<nat>, next: seq<nat>)
    requires es != [] && (IsFinal(es[0], id) ==> sent != [] && GotItsAnswer(t, sent[0], es[0].response))
    requires next == if IsRequest(es[0], key, scheme) then sent + [es[0].f]
                     else if IsFinal(es[0], id) then sent[1..] else sent
    requires Matched(t, key, next + Requests(es[1..], key, scheme), Finals(es[1..], id))
    ensures Matched(t, key, sent + Requests(es, key, scheme), Finals(es, id))
  {
    var later := Requests(es[1..], key, scheme);
    RequestsUnfold(es, key, scheme);
    FinalsUnfold(es, id);
    WireAndRequests(es[0], id, key, scheme, sent, next, later);
    if IsFinal(es[0], id) {
      MatchedOneMore(t, key, sent[0], next + later, es[0].response, Finals(es[1..], id));
    }
  }

  lemma StaysOrderly(s: State, es: seq<Event>, id: nat)
    requires Inv(s) && es != [] && Legal(s, es) && id in s.sessions
    requires var it := s.sessions[id]; Orderly(es, id, it.key, it.scheme, |it.sent|)
    ensures var it, u := s.sessions[id], Step(s, es[0]);
      && id in u.sessions && u.sessions[id].key == it.key && u.sessions[id].scheme == it.scheme
      && (IsFinal(es[0], id) ==> it.sent != [])
      && u.sessions[id].sent == (if IsRequest(es[0], it.key, it.scheme) then it.sent + [es[0].f]
                                 else if IsFinal(es[0], id) then it.sent[1..] else it.sent)
      && Orderly(es[1..], id, it.key, it.scheme, |u.sessions[id].sent|)
  {
    WireStep(s, es[0], id);
  }

  /** On an open session the k-th final response answers the k-th request, counting from what is on the wire now:
      a live future has exactly that response, and what is left in the queue are the requests from there on. */
  lemma {:induction false} KthResponseAnswersKthRequest(s: State, es: seq<Event>, id: nat)
    requires Inv(s) && Legal(s, es) && id in s.sessions
    requires var it := s.sessions[id]; Orderly(es, id, it.key, it.scheme, |it.sent|)
    ensures var it := s.sessions[id];
      Matched(Run(s, es), it.key, it.sent + Requests(es, it.key, it.scheme), Finals(es, id))
    decreases |es|
  {
    var it := s.sessions[id];
    if es == [] {
      assert SessionOk(s, id);
      assert it.sent + [] == it.sent;
    } else {
      var u, rest := Step(s, es[0]), es[1..];
      StaysOrderly(s, es, id);
      StepKeepsInv(s, es[0]);
      KthResponseAnswersKthRequest(u, rest, id);
      if IsFinal(es[0], id) {
        FirstAnswer(s, es[0], u, rest, id);
      }
      MatchedBefore(Run(u, rest), es, id, it.key, it.scheme, it.sent, u.sessions[id].sent);
    }
  }

  lemma AnswerStays(u: State, rest: seq<Event>, f: nat, response: Response)
    requires Inv(u) && Legal(u, rest) && f in u.answers && u.answers[f] == response
    ensures GotItsAnswer(Run(u, rest), f, response)
  {
    RunKeepsAnswers(u, rest, f);
    RunKeepsInv(u, rest);
    var t := Run(u, rest);
    if f in t.futures {
      assert FutureOk(t, f);
    }
  }

  lemma FirstAnswer(s: State, e: Event, u: State, rest: seq<Event>, id: nat)
    requires Inv(s) && id in s.sessions && s.sessions[id].sent != [] && IsFinal(e, id) && u == Step(s, e)
    requires Inv(u) && Legal(u, rest)
    ensures GotItsAnswer(Run(u, rest), s.sessions[id].sent[0], e.response)
  {
    var f := FinalMessage(s, id, e.response);
    AnswerStays(u, rest, f, e.response);
  }
}
