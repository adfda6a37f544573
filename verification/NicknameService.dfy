/** The nickname handlers of the agent, with whatever other requests, handlers and servers do while they wait. */
module NicknameService {
  import opened Options
  import RoleStore
  import opened RoleCreation

  /** Whether the event moves request a. */
  predicate Concerns(e: Event, a: nat) {
    (e.Begin? || e.Go? || e.Call? || e.Drop?) && e.a == a
  }

  lemma WaitingRequestStays(s: State, e: Event, a: nat)
    requires Enabled(s, e) && !Concerns(e, a)
    ensures (a in Step(s, e).requests <==> a in s.requests)
    ensures a in s.requests ==> Step(s, e).requests[a] == s.requests[a]
    ensures forall n :: n in s.held && !(e.Release? && e.nickname == n) ==>
      n in Step(s, e).held && Step(s, e).held[n] == s.held[n]
  {
  }

  lemma ClaimMoves(s: State, a: nat, serial: int)
    requires Enabled(s, Go(a, serial)) && s.requests[a].Claiming?
    ensures var it, t := s.requests[a], Step(s, Go(a, serial));
      && a in t.requests && t.requests[a].nickname == it.nickname && t.requests[a].username == it.username
      && (if it.nickname in s.held then t.requests[a].Rereading? && t.held == s.held else t.requests[a].Acquired?)
  {
  }

  lemma GrowthIsTransitive(s: State, t: State, u: State)
    requires IssuedGrows(s, t) && IssuedGrows(t, u)
    ensures IssuedGrows(s, u)
  {
  }

  class NicknameTable {
    var held: map<string, Held>
    var next: int
    var requests: map<nat, Request>
    var store: RoleStore.Store
    var issued: map<int, string>

    function Now(): State
      reads this
    {
      State(held, next, issued, requests, store)
    }

    constructor (here: RoleStore.Home)
      ensures Now() == Initial(here) && Inv(Now())
    {
      held, next, requests, store := map[], 15743, map[], RoleStore.Initial(here);
      issued := map[];
    }

    /** Anybody else takes a step. */
    method Other(e: Event)
      requires Inv(Now()) && Enabled(Now(), e)
      modifies this
      ensures Inv(Now()) && IssuedGrows(old(Now()), Now()) && Now() == Step(old(Now()), e)
    {
      StepKeepsInv(Now(), e);
      match e
      case Begin(a, nickname, username) => requests := requests[a := Claiming(nickname, username)];
      case Go(a, serial) =>
        if requests[a].Claiming? {
          var claimed := Claimed(a, serial);
        } else {
          var found := Reread(a, serial);
        }
      case Call(a, handler, now) =>
        var it := requests[a];
        requests := requests[a := Creating(it.nickname, it.username, it.roid, handler)];
        store := RoleStore.Then(store, handler,
          RoleStore.Inserting(it.roid, RoleStore.FreshRow(it.username, it.nickname, now)));
      case Drop(a) => requests := requests - {a};
      case Release(nickname) => var status := Release(nickname);
      case InStore(step) => store := RoleStore.Step(store, step);
    }

    /** Request a waits; others run. Until it is released, a nickname that is held stays with its holder. */
    method Yield(a: nat, others: seq<Event>)
      requires Inv(Now()) && a in requests
      modifies this
      ensures Inv(Now()) && IssuedGrows(old(Now()), Now())
      ensures a in requests && requests[a] == old(requests)[a]
      ensures forall n :: n in old(held) && NeverReleased(others, n) ==> n in held && held[n] == old(held)[n]
    {
      for k := 0 to |others|
        invariant Inv(Now()) && IssuedGrows(old(Now()), Now())
        invariant a in requests && requests[a] == old(requests)[a]
        invariant forall n :: n in old(held) && NeverReleased(others, n) ==> n in held && held[n] == old(held)[n]
      {
        if Enabled(Now(), others[k]) && !Concerns(others[k], a) {
          WaitingRequestStays(Now(), others[k], a);
          Other(others[k]);
        }
      }
    }

    /** After the INSERT IGNORE; false if it matched nothing. */
    method Claimed(a: nat, serial: int) returns (inserted: bool)
      requires Enabled(Now(), Go(a, serial)) && requests[a].Claiming?
      modifies this
      ensures Now() == Step(old(Now()), Go(a, serial))
      ensures inserted <==> old(requests)[a].nickname !in old(held)
    {
      var nickname, username := requests[a].nickname, requests[a].username;
      if nickname in held {
        requests := requests[a := Rereading(nickname, username)];
        return false;
      }
      held := held[nickname := Held(username, serial)];
      next := serial + 1;
      issued := issued[serial := username];
      requests := requests[a := Acquired(nickname, username, serial)];
      return true;
    }

    /** After the SELECT that makes `*nickname/acquire` retryable. */
    method Reread(a: nat, serial: int) returns (found: Option<int>)
      requires Enabled(Now(), Go(a, serial)) && requests[a].Rereading?
      modifies this
      ensures Now() == Step(old(Now()), Go(a, serial))
      ensures found == if a in requests then Some(requests[a].roid) else None
    {
      var nickname, username := requests[a].nickname, requests[a].username;
      if nickname in held && held[nickname].username == username {
        requests := requests[a := Acquired(nickname, username, held[nickname].serial)];
        return Some(held[nickname].serial);
      }
      requests := requests - {a};
      return None;
    }

    /** `*nickname/release`. */
    method Release(nickname: string) returns (found: bool)
      modifies this`held
      ensures Now() == Step(old(Now()), RoleCreation.Release(nickname))
      ensures found <==> nickname in old(held)
    {
      found := nickname in held;
      held := held - {nickname};
    }

    /** The request waits for its INSERT IGNORE, and that takes effect. */
    method Claim(a: nat, burnt: nat, others: seq<Event>) returns (inserted: bool)
      requires Inv(Now()) && a in requests && requests[a].Claiming?
      modifies this
      ensures Inv(Now()) && IssuedGrows(old(Now()), Now()) && a in requests
      ensures var it := old(requests)[a];
        && requests[a].nickname == it.nickname && requests[a].username == it.username
        && (if inserted then requests[a].Acquired? else requests[a].Rereading?)
        && (it.nickname in old(held) && NeverReleased(others, it.nickname) ==>
             !inserted && it.nickname in held && held[it.nickname] == old(held)[it.nickname])
    {
      Yield(a, others);
      var s, serial := Now(), next + burnt;
      StepKeepsInv(s, Go(a, serial));
      ClaimMoves(s, a, serial);
      inserted := Claimed(a, serial);
      GrowthIsTransitive(old(Now()), s, Now());
    }

    /** The request waits for its SELECT, and gets its answer. */
    method LookAgain(a: nat, others: seq<Event>) returns (found: Option<int>)
      requires Inv(Now()) && a in requests && requests[a].Rereading?
      modifies this
      ensures Inv(Now()) && IssuedGrows(old(Now()), Now())
      ensures var it := old(requests)[a];
        && (found.None? ==> a !in requests)
        && (found.Some? ==> a in requests && requests[a] == Acquired(it.nickname, it.username, found.value))
        && (it.nickname in old(held) && NeverReleased(others, it.nickname) ==>
             && it.nickname in held && held[it.nickname] == old(held)[it.nickname]
             && found == if held[it.nickname].username == it.username then Some(held[it.nickname].serial) else None)
    {
      Yield(a, others);
      StepKeepsInv(Now(), Go(a, next));
      found := Reread(a, next);
    }

    /** `*nickname/acquire`, with what others do before each of its commands takes effect. A nickname that is held
        throughout yields the holder's serial to the holder, and nothing to anybody else. */
    method Acquire(a: nat, nickname: string, username: string, burnt: nat, others1: seq<Event>, others2: seq<Event>)
      returns (serial: Option<int>)
      requires Inv(Now()) && a !in requests
      modifies this
      ensures Inv(Now()) && IssuedGrows(old(Now()), Now())
      ensures serial.None? ==> a !in requests
      ensures serial.Some? ==>
        && a in requests && requests[a] == Acquired(nickname, username, serial.value)
        && IssuedTo(issued, serial.value, username)
      ensures nickname in old(held) && NeverReleased(others1, nickname) && NeverReleased(others2, nickname) ==>
        && nickname in held && held[nickname] == old(held)[nickname]
        && serial == if old(held)[nickname].username == username then Some(old(held)[nickname].serial) else None
    {
      Other(Begin(a, nickname, username));
      var inserted := Claim(a, burnt, others1);
      if inserted {
        serial := Some(requests[a].roid);
      } else {
        serial := LookAgain(a, others2);
      }
    }
  }
}
