/** Creating a role: a nickname is claimed for its serial, which becomes the role ID, and then the monitor creates
    the role. Every database command is one step; requests of any users, releases, and all other handlers of the
    monitor interleave. */
module RoleCreation {
  import opened Options
  import RoleStore
  import opened RoleOwners

  /** A row of the nickname table. */
  datatype Held = Held(username: string, serial: int)

  /** Where a request stands. */
  datatype Request =
    | Claiming(nickname: string, username: string)                              // INSERT IGNORE
    | Rereading(nickname: string, username: string)                             // SELECT
    | Acquired(nickname: string, username: string, roid: int)                   // `*nickname/acquire` has answered
    | Creating(nickname: string, username: string, roid: int, handler: nat)     // `*role/create` is under way

  /** `next` is where the auto-increment counter stands; `issued` tells for which user each serial was drawn. */
  datatype State = State(
    held: map<string, Held>,
    next: int,
    issued: map<int, string>,
    requests: map<nat, Request>,
    store: RoleStore.Store)

  function Initial(here: RoleStore.Home): State {
    State(map[], 15743, map[], map[], RoleStore.Initial(here))
  }

  datatype Event =
    | Begin(a: nat, nickname: string, username: string)
    | Go(a: nat, serial: int)                              // the nickname table executes a command
    | Call(a: nat, handler: nat, now: int)                 // `*role/create` reaches the monitor
    | Drop(a: nat)                                         // the request ends, in whatever way
    | Release(nickname: string)
    | InStore(e: RoleStore.Event)                          // any other handler or command of the role store

  /** The counter may skip values, but never goes back. */
  predicate Enabled(s: State, e: Event) {
    match e
    case Begin(a, _, _) => a !in s.requests
    case Go(a, serial) => a in s.requests && (s.requests[a].Claiming? || s.requests[a].Rereading?) && serial >= s.next
    case Call(a, handler, _) => a in s.requests && s.requests[a].Acquired? && handler !in s.store.fibers
    case Drop(a) => a in s.requests
    case Release(_) => true
    case InStore(e) =>
      && RoleStore.Enabled(s.store, e) && OwnerKept(s.store, e)
      && (e.Start? ==> !e.fiber.Inserting?)
  }

  /** INSERT IGNORE, and the SELECT that makes it retryable. */
  function GoOn(s: State, a: nat, serial: int): State
    requires a in s.requests
  {
    match s.requests[a]
    case Claiming(nickname, username) =>
      if nickname in s.held then s.(requests := s.requests[a := Rereading(nickname, username)])
      else s.(held := s.held[nickname := Held(username, serial)],
              next := serial + 1,
              issued := s.issued[serial := username],
              requests := s.requests[a := Acquired(nickname, username, serial)])
    case Rereading(nickname, username) =>
      if nickname in s.held && s.held[nickname].username == username
      then s.(requests := s.requests[a := Acquired(nickname, username, s.held[nickname].serial)])
      else s.(requests := s.requests - {a})                                            // "gs_nickname_conflict"
    case _ => s
  }

  function Step(s: State, e: Event): State
    requires Enabled(s, e)
  {
    match e
    case Begin(a, nickname, username) => s.(requests := s.requests[a := Claiming(nickname, username)])
    case Go(a, serial) => GoOn(s, a, serial)
    case Call(a, handler, now) =>
      var it := s.requests[a];
      s.(requests := s.requests[a := Creating(it.nickname, it.username, it.roid, handler)],
         store := RoleStore.Then(s.store, handler,
           RoleStore.Inserting(it.roid, RoleStore.FreshRow(it.username, it.nickname, now))))
    case Drop(a) => s.(requests := s.requests - {a})
    case Release(nickname) => s.(held := s.held - {nickname})
    case InStore(e) => s.(store := RoleStore.Step(s.store, e))
  }

  // ----- Invariant -----

  predicate IssuedTo(issued: map<int, string>, roid: int, username: string) {
    roid in issued && issued[roid] == username
  }

  predicate HandlerOk(s: State, fiber: RoleStore.Fiber) {
    match fiber
    case Inserting(roid, row) => IssuedTo(s.issued, roid, row.username)
    case Reselecting(roid, username) => roid in s.store.mysql && s.store.mysql[roid].username == username
    case _ => true
  }

  ghost predicate TableOk(s: State) {
    && (forall r :: r in s.issued ==> r < s.next)
    && (forall n :: n in s.held ==> IssuedTo(s.issued, s.held[n].serial, s.held[n].username))
    && (forall m, n :: m in s.held && n in s.held && s.held[m].serial == s.held[n].serial ==> m == n)
    && (forall a :: a in s.requests && (s.requests[a].Acquired? || s.requests[a].Creating?) ==>
         IssuedTo(s.issued, s.requests[a].roid, s.requests[a].username))
  }

  ghost predicate RolesOk(s: State) {
    && OwnersOk(s.store)
    && (forall r :: r in s.store.mysql ==> IssuedTo(s.issued, r, s.store.mysql[r].username))
    && (forall f :: f in s.store.fibers ==> HandlerOk(s, s.store.fibers[f]))
  }

  ghost predicate Inv(s: State) {
    TableOk(s) && RolesOk(s)
  }

  /** Serials are added, for whom they were drawn; none is drawn twice. */
  ghost predicate IssuedGrows(s: State, t: State) {
    forall r :: r in s.issued ==> IssuedTo(t.issued, r, s.issued[r])
  }

  lemma NewRowIsIssued(s: State, f: nat, spelling: nat)
    requires RolesOk(s) && f in s.store.fibers
    ensures var t := RoleStore.Resume(s.store, f, spelling);
      forall r :: r in t.mysql && r !in s.store.mysql ==> IssuedTo(s.issued, r, t.mysql[r].username)
  {
    assert HandlerOk(s, s.store.fibers[f]);
  }

  lemma ResumedHandlerOk(s: State, t: State, f: nat, spelling: nat)
    requires RolesOk(s) && f in s.store.fibers
    requires t == s.(store := RoleStore.Resume(s.store, f, spelling)) && f in t.store.fibers
    ensures HandlerOk(t, t.store.fibers[f])
  {
    assert HandlerOk(s, s.store.fibers[f]);
    assert FiberOwner(s.store.mysql, s.store.fibers[f]);
    if s.store.fibers[f].IsPersist() {
      ResumedPersistOk(s, t, f, spelling);
    }
  }

  /** A persist goes on as a persist. */
  lemma ResumedPersistOk(s: State, t: State, f: nat, spelling: nat)
    requires f in s.store.fibers && s.store.fibers[f].IsPersist()
    requires t == s.(store := RoleStore.Resume(s.store, f, spelling)) && f in t.store.fibers
    ensures HandlerOk(t, t.store.fibers[f])
  {
  }

  lemma OldRowsStayIssued(s: State, mysql: map<int, RoleStore.Row>)
    requires SameOwners(s.store.mysql, mysql)
    requires forall r :: r in s.store.mysql ==> IssuedTo(s.issued, r, s.store.mysql[r].username)
    requires forall r :: r in mysql && r !in s.store.mysql ==> IssuedTo(s.issued, r, mysql[r].username)
    ensures forall r :: r in mysql ==> IssuedTo(s.issued, r, mysql[r].username)
  {
  }

  lemma OldHandlerOk(s: State, t: State, fiber: RoleStore.Fiber)
    requires HandlerOk(s, fiber) && SameOwners(s.store.mysql, t.store.mysql) && t.issued == s.issued
    ensures HandlerOk(t, fiber)
  {
  }

  lemma InStoreKeepsInv(s: State, e: RoleStore.Event)
    requires Inv(s) && Enabled(s, InStore(e))
    ensures Inv(Step(s, InStore(e)))
  {
    var t := Step(s, InStore(e));
    StepKeepsOwners(s.store, e);
    if e.Go? {
      NewRowIsIssued(s, e.f, e.spelling);
      RoleStore.AllOthersStay(s.store, e.f, e.spelling);
    }
    OldRowsStayIssued(s, t.store.mysql);
    forall f | f in t.store.fibers ensures HandlerOk(t, t.store.fibers[f]) {
      if e.Go? && f == e.f {
        ResumedHandlerOk(s, t, f, e.spelling);
      } else if f in s.store.fibers {
        OldHandlerOk(s, t, s.store.fibers[f]);
      }
    }
  }

  lemma GoKeepsInv(s: State, a: nat, serial: int)
    requires Inv(s) && Enabled(s, Go(a, serial))
    ensures Inv(Step(s, Go(a, serial))) && IssuedGrows(s, Step(s, Go(a, serial)))
  {
    var t := Step(s, Go(a, serial));
    assert serial !in s.issued;
    GrowthKeepsRoles(s, t);
  }

  lemma GrowthKeepsRoles(s: State, t: State)
    requires RolesOk(s) && IssuedGrows(s, t) && t.store == s.store
    ensures RolesOk(t)
  {
    forall f | f in t.store.fibers ensures HandlerOk(t, t.store.fibers[f]) {
      assert HandlerOk(s, s.store.fibers[f]);
    }
  }

  lemma CallKeepsInv(s: State, a: nat, handler: nat, now: int)
    requires Inv(s) && Enabled(s, Call(a, handler, now))
    ensures Inv(Step(s, Call(a, handler, now)))
  {
    var t := Step(s, Call(a, handler, now));
    StepKeepsOwners(s.store, RoleStore.Start(handler, t.store.fibers[handler]));
    forall f | f in t.store.fibers ensures HandlerOk(t, t.store.fibers[f]) {
      assert f != handler ==> HandlerOk(s, s.store.fibers[f]);
    }
  }

  lemma StepKeepsInv(s: State, e: Event)
    requires Inv(s) && Enabled(s, e)
    ensures Inv(Step(s, e)) && IssuedGrows(s, Step(s, e)) && SameOwners(s.store.mysql, Step(s, e).store.mysql)
  {
    match e
    case Begin(a, _, _) => GrowthKeepsRoles(s, Step(s, e));
    case Go(a, serial) => GoKeepsInv(s, a, serial);
    case Call(a, handler, now) => CallKeepsInv(s, a, handler, now);
    case Drop(a) => GrowthKeepsRoles(s, Step(s, e));
    case Release(_) => GrowthKeepsRoles(s, Step(s, e));
    case InStore(e) => InStoreKeepsInv(s, e); StepKeepsOwners(s.store, e);
  }

  // ----- Runs -----

  ghost predicate Legal(s: State, es: seq<Event>)
    decreases |es|
  {
    es == [] || (Enabled(s, es[0]) && Legal(Step(s, es[0]), es[1..]))
  }

  ghost function Run(s: State, es: seq<Event>): State
    requires Legal(s, es)
    decreases |es|
  {
    if es == [] then s else Run(Step(s, es[0]), es[1..])
  }

  lemma {:induction false} RunKeepsInv(s: State, es: seq<Event>)
    requires Inv(s) && Legal(s, es)
    ensures Inv(Run(s, es)) && IssuedGrows(s, Run(s, es)) && SameOwners(s.store.mysql, Run(s, es).store.mysql)
    decreases |es|
  {
    if es != [] {
      StepKeepsInv(s, es[0]);
      RunKeepsInv(Step(s, es[0]), es[1..]);
    }
  }

  /** A claim that inserts a row draws a serial that was never drawn before and no other nickname holds. */
  lemma SerialIsNew(here: RoleStore.Home, es: seq<Event>, a: nat, serial: int)
    requires Legal(Initial(here), es)
    requires var s := Run(Initial(here), es); Enabled(s, Go(a, serial)) && s.requests[a].Claiming?
    ensures var s := Run(Initial(here), es);
      s.requests[a].nickname !in s.held ==>
        && Step(s, Go(a, serial)).requests[a] == Acquired(s.requests[a].nickname, s.requests[a].username, serial)
        && serial !in s.issued && serial !in s.store.mysql
        && forall n :: n in s.held ==> s.held[n].serial != serial
  {
    RunKeepsInv(Initial(here), es);
    var s := Run(Initial(here), es);
    assert forall r :: r in s.issued ==> r < s.next;
  }

  /** From any moment of a run on, a serial stays with the user for whom it was drawn, a role with its owner, and
      the owner of a role is the user for whom its ID was drawn. */
  lemma RolesKeepTheirOwners(here: RoleStore.Home, es: seq<Event>, more: seq<Event>, roid: int)
    requires Legal(Initial(here), es) && Legal(Run(Initial(here), es), more)
    ensures var s := Run(Initial(here), es);
      var t := Run(s, more);
      && (roid in s.issued ==> IssuedTo(t.issued, roid, s.issued[roid]))
      && (roid in s.store.mysql ==>
           && roid in t.store.mysql && t.store.mysql[roid].username == s.store.mysql[roid].username
           && IssuedTo(s.issued, roid, s.store.mysql[roid].username))
      && (roid in t.store.redis ==> IssuedTo(t.issued, roid, t.store.redis[roid].record.row.username))
  {
    RunKeepsInv(Initial(here), es);
    RunKeepsInv(Run(Initial(here), es), more);
    var t := Run(Run(Initial(here), es), more);
    assert roid in t.store.redis.Keys ==> roid in t.store.mysql.Keys;
  }

  /** Created this way, a role never meets "gs_roid_conflict": whatever handler runs next on the monitor answers
      something else. */
  lemma NoRoidConflict(here: RoleStore.Home, es: seq<Event>, f: nat)
    requires Legal(Initial(here), es) && f in Run(Initial(here), es).store.fibers
    ensures RoleStore.Answer(Run(Initial(here), es).store, f) != Some(RoleStore.GsRoidConflict)
  {
    RunKeepsInv(Initial(here), es);
    var s := Run(Initial(here), es);
    assert HandlerOk(s, s.store.fibers[f]);
  }

  // ----- Retries -----

  ghost predicate NeverReleased(es: seq<Event>, nickname: string) {
    forall i :: 0 <= i < |es| && es[i].Release? ==> es[i].nickname != nickname
  }

  /** The nickname is held, and request `a` for it has got this very serial, if anything. */
  ghost predicate Bound(s: State, nickname: string, owner: Held, a: nat) {
    && nickname in s.held && s.held[nickname] == owner
    && (a in s.requests ==>
         && s.requests[a].nickname == nickname
         && (s.requests[a].Acquired? || s.requests[a].Creating? ==>
              s.requests[a].username == owner.username && s.requests[a].roid == owner.serial))
  }

  lemma BoundStep(s: State, e: Event, nickname: string, owner: Held, a: nat)
    requires Bound(s, nickname, owner, a) && Enabled(s, e) && !(e.Release? && e.nickname == nickname)
    requires !(e.Begin? && e.a == a)
    ensures Bound(Step(s, e), nickname, owner, a)
    ensures a in s.requests && a in Step(s, e).requests ==> Step(s, e).requests[a].username == s.requests[a].username
    ensures a !in s.requests ==> a !in Step(s, e).requests
  {
  }

  ghost predicate NotBegunAgain(es: seq<Event>, a: nat) {
    forall i :: 0 <= i < |es| && es[i].Begin? ==> es[i].a != a
  }

  /** Any request for a nickname that stays held gets the serial that its holder got, if it comes from the same
      user, and nothing if it comes from another. */
  lemma {:induction false} RetryGetsTheSameRole(s: State, es: seq<Event>, nickname: string, owner: Held, a: nat,
                                                username: string)
    requires Bound(s, nickname, owner, a) && Legal(s, es) && NeverReleased(es, nickname) && NotBegunAgain(es, a)
    requires a in s.requests ==> s.requests[a].username == username
    ensures var t := Run(s, es);
      && Bound(t, nickname, owner, a)
      && (a in t.requests ==> t.requests[a].username == username)
      && (a in t.requests && (t.requests[a].Acquired? || t.requests[a].Creating?) ==>
           username == owner.username && t.requests[a].roid == owner.serial)
    decreases |es|
  {
    if es != [] {
      assert es[0] in es;
      BoundStep(s, es[0], nickname, owner, a);
      RetryGetsTheSameRole(Step(s, es[0]), es[1..], nickname, owner, a, username);
    }
  }

  /** The re-read succeeds for the holder and is a conflict for anybody else, while the nickname is held; if it has
      been released in between, it is a conflict even for the former holder. */
  lemma RereadSucceedsIff(s: State, a: nat, serial: int)
    requires Enabled(s, Go(a, serial)) && s.requests[a].Rereading?
    ensures var it, t := s.requests[a], Step(s, Go(a, serial));
      && (a in t.requests <==> it.nickname in s.held && s.held[it.nickname].username == it.username)
      && (a in t.requests ==> t.requests[a] == Acquired(it.nickname, it.username, s.held[it.nickname].serial))
      && t.held == s.held && t.issued == s.issued && t.next == s.next
  {
  }

  ghost predicate NeverSet(es: seq<RoleStore.Event>, roid: int) {
    forall i :: 0 <= i < |es| && es[i].LogicSet? ==> es[i].roid != roid
  }

  /** Once a role exists, it stays as it is until a logic server stores it, however often it is created again and
      whatever else the monitor does with it. */
  lemma {:induction false} RepeatedCreateKeepsRole(s: RoleStore.Store, es: seq<RoleStore.Event>, roid: int)
    requires RoleStore.Inv(s) && RoleStore.Legal(s, es) && roid in RoleStore.Logical(s) && NeverSet(es, roid)
    ensures var t := RoleStore.Run(s, es);
      roid in RoleStore.Logical(t) && RoleStore.Logical(t)[roid] == RoleStore.Logical(s)[roid]
    decreases |es|
  {
    if es != [] {
      RoleStore.StepRefines(s, es[0]);
      assert es[0].LogicSet? ==> es[0].roid != roid;
      RepeatedCreateKeepsRole(RoleStore.Step(s, es[0]), es[1..], roid);
    }
  }
}
