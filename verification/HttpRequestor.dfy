/** The requestor object with its records by host, updated in place. */
module HttpRequestor {
  import opened Options
  import opened HttpPairing

  class Requestor {
    var connectionsByHost: map<Key, Conn>
    var sessions: map<nat, Session>
    var futures: map<nat, Future>
    ghost var used: set<nat>
    ghost var born: set<nat>
    ghost var answers: map<nat, Response>

    ghost function Now(): State
      reads this
    {
      State(connectionsByHost, sessions, used, futures, born, answers)
    }

    constructor ()
      ensures Now() == Initial()
    {
      connectionsByHost, sessions, futures := map[], map[], map[];
      used, born, answers := {}, {}, map[];
    }

    /** `connections_by_host.open`: the record, created if there is none. */
    method Open(key: Key)
      modifies this`connectionsByHost
      ensures connectionsByHost == old(connectionsByHost)[key := ConnOf(old(connectionsByHost), key)]
    {
      if key !in connectionsByHost {
        connectionsByHost := connectionsByHost[key := Conn(None, None, [])];
      }
    }

    /** The session of this host and scheme. */
    method Connect(key: Key, scheme: Scheme, newSession: nat) returns (session: nat)
      modifies this`connectionsByHost, this`sessions
      ensures Now() == HttpPairing.Connect(old(Now()), key, scheme, newSession)
      ensures key in connectionsByHost && SessionOf(connectionsByHost[key], scheme) == Some(session)
    {
      Open(key);
      var conn := connectionsByHost[key];
      session := newSession;
      if scheme == Http {
        if conn.http.Some? && conn.http.value in sessions { return conn.http.value; }
        conn := conn.(http := Some(newSession));
      } else {
        if conn.https.Some? && conn.https.value in sessions { return conn.https.value; }
        conn := conn.(https := Some(newSession));
      }
      sessions := sessions[newSession := Session(key, scheme, [])];
      connectionsByHost := connectionsByHost[key := conn];
    }

    /** `enqueue_weak`. `newSession` is what the client library hands out if a connection has to be opened. */
    method EnqueueWeak(f: nat, uri: Uri, newSession: nat)
      requires Enabled(Now(), DoEnqueue(f, uri, newSession))
      modifies this
      ensures Now() == Step(old(Now()), DoEnqueue(f, uri, newSession))
      ensures var port := if uri.port != 0 then uri.port else match uri.scheme case Http => 80 case Https => 443;
        var key := Key(uri.host, port);
        key in connectionsByHost && connectionsByHost[key].queue == ConnOf(old(connectionsByHost), key).queue + [f]
    {
      var key := KeyOf(uri);
      var session := Connect(key, uri.scheme, newSession);
      var conn := connectionsByHost[key];
      connectionsByHost := connectionsByHost[key := conn.(queue := conn.queue + [f])];
      sessions := sessions[session := sessions[session].(sent := sessions[session].sent + [f])];
      futures, born, used := futures[f := Fresh], born + {f}, used + {session};
    }

    /** The loop over the headers. */
    method FindContentType(headers: seq<(string, string)>, default: string) returns (contentType: string)
      ensures contentType == ContentType(headers, default) && IsContentType(headers, default, contentType)
    {
      contentType := default;
      for i := 0 to |headers|
        invariant contentType == ContentType(headers[..i], default)
      {
        assert headers[..i + 1][..i] == headers[..i];
        if headers[i].0 == "Content-Type" {
          contentType := headers[i].1;
        }
      }
      assert headers[..|headers|] == headers;
      ContentTypeIsLast(headers, default);
    }

    /** `do_set_single_response`. */
    method SetSingleResponse(key: Key, response: Response)
      modifies this`connectionsByHost, this`futures
      ensures Now() == SetResponse(old(Now()), key, response)
      ensures response.status > 199 && ConnOf(old(connectionsByHost), key).queue != [] ==>
        var f := old(connectionsByHost)[key].queue[0];
        f in old(futures) ==> f in futures && Received(old(futures)[f], futures[f], response)
    {
      if response.status <= 199 { return; }
      Open(key);
      var conn := connectionsByHost[key];
      if conn.queue == [] { return; }
      var f := conn.queue[0];
      connectionsByHost := connectionsByHost[key := conn.(queue := conn.queue[1..])];
      if f !in futures { return; }
      var contentType := FindContentType(response.headers, futures[f].contentType);
      futures := futures[f := Future(response.status, contentType, response.payload, futures[f].completions + 1)];
    }

    /** `do_remove_connection`: take the record out and drain its queue. */
    method RemoveConnection(key: Key)
      modifies this`connectionsByHost, this`futures
      ensures Now() == HttpPairing.RemoveConnection(old(Now()), key)
    {
      var queue := if key in connectionsByHost then connectionsByHost[key].queue else [];
      connectionsByHost := connectionsByHost - {key};
      while queue != []
        invariant FailAll(futures, queue) == FailAll(old(futures), ConnOf(old(connectionsByHost), key).queue)
        invariant connectionsByHost == old(connectionsByHost) - {key}
        decreases |queue|
      {
        var f := queue[0];
        queue := queue[1..];
        if f in futures {
          futures := futures[f := futures[f].(status := 0, completions := futures[f].completions + 1)];
        }
      }
    }

    /** A message event; the peer's answer is noted for the record. */
    method OnMessage(session: nat, response: Response)
      requires session in sessions
      modifies this
      ensures Now() == Step(old(Now()), Message(session, response))
    {
      var it := sessions[session];
      if response.status > 199 && it.sent != [] {
        sessions := sessions[session := it.(sent := it.sent[1..])];
        answers := answers[it.sent[0] := response];
      }
      SetSingleResponse(it.key, response);
    }

    /** A close event. */
    method OnClose(session: nat)
      requires session in sessions
      modifies this
      ensures Now() == Step(old(Now()), Close(session))
    {
      RemoveConnection(sessions[session].key);
      sessions := sessions - {session};
    }
  }
}
