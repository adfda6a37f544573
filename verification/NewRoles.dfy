/** What a creation leaves behind: the row of the new role, and the nickname when it is released again. */
module NewRoles {
  import RoleStore
  import opened RoleCreation
  import RoleHomes

  // ----- The row -----

  /** The event moves the monitor's handler h. */
  predicate MovesHandler(e: Event, h: nat) {
    (e.InStore? && !e.e.LogicSet? && e.e.f == h) || (e.Call? && e.handler == h)
  }

  lemma HandlerWaits(s: State, e: Event, h: nat)
    requires Enabled(s, e) && h in s.store.fibers && !MovesHandler(e, h)
    ensures h in Step(s, e).store.fibers && Step(s, e).store.fibers[h] == s.store.fibers[h]
  {
    if e.InStore? && e.e.Go? {
      RoleStore.OthersStay(s.store, e.e.f, e.e.spelling, h);
    }
  }

  lemma {:induction false} HandlerStillWaits(s: State, es: seq<Event>, h: nat)
    requires Legal(s, es) && h in s.store.fibers && forall i :: 0 <= i < |es| ==> !MovesHandler(es[i], h)
    ensures h in Run(s, es).store.fibers && Run(s, es).store.fibers[h] == s.store.fibers[h]
    decreases |es|
  {
    if es != [] {
      HandlerWaits(s, es[0], h);
      HandlerStillWaits(Step(s, es[0]), es[1..], h);
    }
  }

  /** When the INSERT of a creation takes effect, whatever has happened since the agent asked for it, the new row has
      the role ID that was acquired, the name of the user who acquired it, the nickname it was acquired for, and the
      time of the request, and is otherwise empty. */
  lemma CreatedAsAsked(s: State, a: nat, h: nat, now: int, es: seq<Event>, spelling: nat)
    requires Enabled(s, Call(a, h, now)) && Legal(Step(s, Call(a, h, now)), es)
    requires forall i :: 0 <= i < |es| ==> !MovesHandler(es[i], h)
    ensures var it, t := s.requests[a], Run(Step(s, Call(a, h, now)), es);
      var e := InStore(RoleStore.Go(h, spelling));
      Enabled(t, e) && (it.roid !in t.store.mysql ==>
        var u := Step(t, e);
        && it.roid in u.store.mysql
        && var row := u.store.mysql[it.roid];
        && row.username == it.username && row.nickname == it.nickname && row.updateTime == now
        && row.avatar == row.profile == row.whole == "")
  {
    var it, t0 := s.requests[a], Step(s, Call(a, h, now));
    HandlerStillWaits(t0, es, h);
    var t := Run(t0, es);
    if it.roid !in t.store.mysql {
      RoleHomes.InsertedRow(t.store, h, spelling, it.username, it.nickname, now);
    }
  }

  // ----- The nickname -----

  /** A released nickname is free for whoever asks next, who gets a serial of his own; nothing else has changed. */
  lemma ReleasedNicknameIsFree(s: State, nickname: string, b: nat, username: string, serial: int)
    requires b !in s.requests && serial >= s.next
    ensures var t := Step(s, Release(nickname));
      && nickname !in t.held && (forall n :: n != nickname ==> (n in t.held <==> n in s.held))
      && (forall n :: n in t.held ==> t.held[n] == s.held[n])
      && t.issued == s.issued && t.requests == s.requests && t.store == s.store
      && Enabled(t, Begin(b, nickname, username))
      && var u := Step(t, Begin(b, nickname, username));
      && Enabled(u, Go(b, serial))
      && var v := Step(u, Go(b, serial));
      && b in v.requests && v.requests[b] == Acquired(nickname, username, serial)
      && nickname in v.held && v.held[nickname].username == username && v.held[nickname].serial == serial
  {
  }

  /** A request that ends leaves everything but itself: its nickname stays with the user for the next try. */
  lemma EndedRequestLeavesNickname(s: State, a: nat)
    requires Enabled(s, Drop(a))
    ensures var t := Step(s, Drop(a));
      && t.requests == s.requests - {a} && t.held == s.held && t.next == s.next && t.issued == s.issued
      && t.store == s.store
  {
  }

  const FIRST_SERIAL := 15743

  lemma StepKeepsSerials(s: State, e: Event)
    requires Enabled(s, e) && s.next >= FIRST_SERIAL && forall r :: r in s.issued ==> r >= FIRST_SERIAL
    ensures Step(s, e).next >= s.next && forall r :: r in Step(s, e).issued ==> r >= FIRST_SERIAL
  {
  }

  lemma {:induction false} RunKeepsSerials(s: State, es: seq<Event>)
    requires Legal(s, es) && s.next >= FIRST_SERIAL && forall r :: r in s.issued ==> r >= FIRST_SERIAL
    ensures Run(s, es).next >= s.next && forall r :: r in Run(s, es).issued ==> r >= FIRST_SERIAL
    decreases |es|
  {
    if es != [] {
      StepKeepsSerials(s, es[0]);
      RunKeepsSerials(Step(s, es[0]), es[1..]);
    }
  }

  /** In every run the ID of each role is a serial that was drawn, and is at least what the counter starts with. */
  lemma RoleIdsAreSerials(here: RoleStore.Home, es: seq<Event>, roid: int)
    requires Legal(Initial(here), es) && roid in Run(Initial(here), es).store.mysql
    ensures roid >= 15743 && roid in Run(Initial(here), es).issued
  {
    RunKeepsSerials(Initial(here), es);
    RunKeepsInv(Initial(here), es);
  }
}
