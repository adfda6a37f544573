/** The request handlers and the save tick of the logic server as imperative code over mutable tables.

    The code between two yields does exactly what the function of the same name in `LogicRoles` says. The handlers
    that yield hand over to other fibers there: `others` says what they do meanwhile, and the part of it that is
    possible is carried out. `past` records every step, so the theorems about runs apply to these handlers. */
module LogicService {
  import opened Options
  import opened LogicRoles
  import opened SaveTicks
  import opened ConfirmedRoles
  import opened SavePlan
  import opened Sets

  datatype Status = GsOk | GsRoleNotLoaded | GsRoleNotLoggedIn | GsReconnectNoop

  /** Whether the event moves fiber f. */
  predicate Concerns(e: Event, f: nat) {
    (e.ELogin? || e.ELoaded? || e.ELogout? || e.EVisit? || e.EChecked? || e.EStored?) && e.f == f
  }

  lemma WaitingFiberStays(s: State, e: Event, f: nat)
    requires RefsOk(s) && Enabled(s, e) && f in s.fibers && !Concerns(e, f)
    ensures f in Step(s, e).fibers && Step(s, e).fibers[f] == s.fibers[f]
  {
  }

  lemma LimitStays(s: State, e: Event)
    requires RefsOk(s) && Enabled(s, e)
    ensures Step(s, e).idleLimit == s.idleLimit
  {
  }

  predicate Online(s: State, roid: int)
    requires RefsOk(s)
  {
    roid in s.hydRoles && !s.roles[s.hydRoles[roid].role].Disconnected()
  }

  /** The role has been disconnected for long enough. */
  predicate Late(s: State, roid: int, now: int)
    requires RefsOk(s)
  {
    roid in s.hydRoles &&
    var role := s.roles[s.hydRoles[roid].role]; role.Disconnected() && now - role.dcSince >= s.idleLimit
  }

  /** After the check the fiber waits for its SET, or the role has gone. */
  lemma CheckedVisit(s: State, f: nat, ok: bool)
    requires RefsOk(s) && Enabled(s, EChecked(f, ok))
    ensures var t, roid := Step(s, EChecked(f, ok)), s.fibers[f].roid;
      && s.writes <= t.writes
      && (f !in t.fibers ==> roid !in t.hydRoles)
      && (f in t.fibers ==>
           && t.fibers[f].roid == roid && !t.fibers[f].LoginFetching? && !t.fibers[f].VisitChecking?
           && |s.writes| == t.fibers[f].ticket < |t.writes| && t.writes[t.fibers[f].ticket].roid == roid)
      && (f in t.fibers && !ok ==>
           var o := s.fibers[f].hyd.role;
           o in t.roles && t.roles[o].Disconnected() && t.roles[o].dcSince == s.fibers[f].now)
  {
    assert EntryOk(s, s.fibers[f].roid, s.fibers[f].hyd);
  }

  /** A visit skips, asks the agent, or issues its SET. */
  lemma StartedVisit(s: State, f: nat, roid: int, now: int)
    requires RefsOk(s) && Enabled(s, EVisit(f, roid, now))
    ensures var t := Step(s, EVisit(f, roid, now));
      && s.writes <= t.writes && (f !in t.fibers <==> roid !in s.hydRoles)
      && (Online(s, roid) ==> t.fibers[f] == VisitChecking(roid, s.hydRoles[roid], now))
      && (f in t.fibers && !Online(s, roid) ==>
           && t.fibers[f].roid == roid && !t.fibers[f].LoginFetching? && !t.fibers[f].VisitChecking?
           && |s.writes| == t.fibers[f].ticket < |t.writes| && t.writes[t.fibers[f].ticket].roid == roid)
      && (Late(s, roid, now) ==> t.fibers[f].VisitLoggingOut?)
  {
  }

  class RoleService {
    const idleLimit: int
    const scheduler: SaveScheduler
    var roles: map<nat, Role>
    var hydRoles: map<int, Hydrated>
    var fibers: map<nat, Fiber>
    var writes: seq<Write>
    var applied: nat
    ghost var past: seq<Event>

    function Now(): State
      reads this
    {
      State(idleLimit, roles, hydRoles, fibers, writes, applied)
    }

    /** The tables are what the steps so far have made of them. */
    ghost predicate Valid()
      reads this
    {
      Legal(Initial(idleLimit), past) && Now() == Run(Initial(idleLimit), past) && Inv(Now())
    }

    constructor (idleLimit: int)
      ensures Valid() && Now() == Initial(idleLimit) && past == []
      ensures fresh(scheduler) && scheduler.saveBuckets == []
    {
      this.idleLimit := idleLimit;
      scheduler := new SaveScheduler();
      roles, hydRoles, fibers, writes, applied, past := map[], map[], map[], [], 0, [];
    }

    /** Record that the tables just went through step e. */
    ghost method Log(s: State, e: Event)
      requires Legal(Initial(idleLimit), past) && s == Run(Initial(idleLimit), past) && Inv(s)
      requires Enabled(s, e) && Now() == Step(s, e)
      modifies this`past
      ensures Valid() && past == old(past) + [e]
    {
      RunAppend(Initial(idleLimit), past, e);
      StepKeepsInv(s, e);
      past := past + [e];
    }

    /** Another fiber, or Redis, takes a step. */
    method Other(e: Event)
      requires Valid() && Enabled(Now(), e)
      modifies this
      ensures Valid() && past == old(past) + [e] && Now() == Step(old(Now()), e)
    {
      ghost var s := Now();
      LimitStays(s, e);
      var t := Step(Now(), e);
      roles, hydRoles, fibers, writes, applied := t.roles, t.hydRoles, t.fibers, t.writes, t.applied;
      Log(s, e);
    }

    /** What others may have done since, with fiber f waiting. */
    ghost predicate Waited(f: nat, fiber: Fiber, before: seq<Event>, issued: seq<Write>)
      reads this
    {
      Valid() && before <= past && issued <= writes && f in fibers && fibers[f] == fiber
    }

    /** Fiber f waits; others run. */
    method Yield(f: nat, others: seq<Event>)
      requires Valid() && f in fibers
      modifies this
      ensures Waited(f, old(fibers[f]), old(past), old(writes))
      ensures Calm(others) ==> StartsNoVisit(past, |old(past)|)
      ensures AnswersAre(past, |old(past)|, f, None)
    {
      for k := 0 to |others|
        invariant AnswersAre(past, |old(past)|, f, None)
        invariant Waited(f, old(fibers[f]), old(past), old(writes))
        invariant Calm(others) ==> StartsNoVisit(past, |old(past)|)
      {
        if Enabled(Now(), others[k]) && !Concerns(others[k], f) {
          WaitingFiberStays(Now(), others[k], f);
          WritesGrow(Now(), others[k]);
          Other(others[k]);
        }
      }
    }

    // ----- The code between yields -----

    /** Serialise the role and issue its SET; the answer is awaited under the returned ticket. */
    method StoreIntoRedis(hyd: Hydrated) returns (ticket: nat)
      requires hyd.role in roles
      modifies this`writes
      ensures Now() == Issue(old(Now()), hyd) && ticket == |old(writes)|
    {
      ticket := |writes|;
      writes := writes + [Write(hyd.roid, hyd.role, |roles[hyd.role].hooks|)];
    }

    /** Up to the GETEX, or to the end if the role is hydrated; None stands for "no answer yet". */
    method Login(f: nat, roid: int, agent: Uuid) returns (status: Option<Status>)
      requires RefsOk(Now()) && Enabled(Now(), ELogin(f, roid, agent))
      modifies this
      ensures Now() == Step(old(Now()), ELogin(f, roid, agent))
      ensures past == old(past)
      ensures status == (if roid in old(hydRoles) then Some(GsOk) else None)
      ensures status.Some? ==> roles[hydRoles[roid].role].agent == agent
    {
      if roid !in hydRoles {
        fibers := fibers[f := LoginFetching(roid, agent)];
        return None;
      }
      var hyd := hydRoles[roid];
      roles := roles[hyd.role := roles[hyd.role].Connect(agent)];
      return Some(GsOk);
    }

    method LoginLoaded(f: nat, found: Option<int>, o: nat) returns (status: Status)
      requires RefsOk(Now()) && Enabled(Now(), ELoaded(f, found, o))
      modifies this
      ensures Now() == Step(old(Now()), ELoaded(f, found, o))
      ensures past == old(past)
      ensures status == (if found.None? then GsRoleNotLoaded else GsOk)
      ensures status.GsOk? ==>
        var roid, agent := old(fibers)[f].roid, old(fibers)[f].agent;
        roid in hydRoles && hydRoles[roid].role in roles && roles[hydRoles[roid].role].agent == agent
    {
      var fiber := fibers[f];
      fibers := fibers - {f};
      if found.None? {
        return GsRoleNotLoaded;
      }
      var hyd := Hydrated(found.value, o);
      if hyd.roid !in hydRoles {
        hydRoles := hydRoles[hyd.roid := hyd];
        roles := roles[o := Role(hyd.roid, 0, 0, [OnLogin])];
      } else {
        hyd := hydRoles[hyd.roid];    // load conflict
      }
      roles := roles[hyd.role := roles[hyd.role].Connect(fiber.agent)];
      return GsOk;
    }

    /** Tries every role of the list; the last one found is reconnected and reported. */
    method Reconnect(roids: seq<int>, agent: Uuid) returns (status: Status, roid: int)
      requires RefsOk(Now()) && Enabled(Now(), EReconnect(roids, agent))
      modifies this
      ensures Now() == Step(old(Now()), EReconnect(roids, agent))
      ensures past == old(past)
      ensures status == (if exists k :: k in roids && k in hydRoles then GsOk else GsReconnectNoop)
      ensures status.GsOk? ==> roid in roids && roid in hydRoles && roles[hydRoles[roid].role].agent == agent
    {
      var last: Option<Hydrated> := None;
      for i := 0 to |roids|
        invariant last == LastHydrated(hydRoles, roids[..i])
        invariant Now() == old(Now())
      {
        assert roids[..i + 1][..i] == roids[..i];
        if roids[i] in hydRoles {
          last := Some(hydRoles[roids[i]]);
        }
      }
      assert roids[..|roids|] == roids;
      if last.None? {
        return GsReconnectNoop, 0;
      }
      var hyd := last.value;
      roles := roles[hyd.role := roles[hyd.role].Connect(agent)];
      return GsOk, hyd.roid;
    }

    method Disconnect(roid: int, now: int) returns (status: Status)
      requires RefsOk(Now())
      modifies this
      ensures Now() == Step(old(Now()), EDisconnect(roid, now))
      ensures past == old(past)
      ensures status == if roid in old(hydRoles) then GsOk else GsRoleNotLoggedIn
    {
      if roid !in hydRoles {
        return GsRoleNotLoggedIn;
      }
      var o := hydRoles[roid].role;
      roles := roles[o := roles[o].Disconnect(now)];
      return GsOk;
    }

    /** Up to the SET. */
    method Logout(f: nat, roid: int, now: int) returns (status: Option<Status>)
      requires RefsOk(Now()) && Enabled(Now(), ELogout(f, roid, now))
      modifies this
      ensures Now() == Step(old(Now()), ELogout(f, roid, now))
      ensures past == old(past)
      ensures status == if roid in old(hydRoles) then None else Some(GsRoleNotLoggedIn)
    {
      if roid !in hydRoles {
        return Some(GsRoleNotLoggedIn);
      }
      var hyd := hydRoles[roid];
      if !roles[hyd.role].Disconnected() {
        roles := roles[hyd.role := roles[hyd.role].Disconnect(now)];
      }
      roles := roles[hyd.role := roles[hyd.role].Logout(None)];
      var ticket := StoreIntoRedis(hyd);
      fibers := fibers[f := LogoutStoring(roid, hyd, ticket)];
      return None;
    }

    /** The body of the save tick's loop for one role, up to its first yield. */
    method Visit(f: nat, roid: int, now: int)
      requires RefsOk(Now()) && Enabled(Now(), EVisit(f, roid, now))
      modifies this
      ensures Now() == Step(old(Now()), EVisit(f, roid, now))
      ensures past == old(past)
    {
      if roid !in hydRoles {
        return;
      }
      var hyd := hydRoles[roid];
      if !roles[hyd.role].Disconnected() {
        fibers := fibers[f := VisitChecking(roid, hyd, now)];
        return;
      }
      Decide(f, roid, hyd, now);
    }

    /** From the answer of `*user/check_role` to the SET. */
    method VisitChecked(f: nat, ok: bool)
      requires RefsOk(Now()) && Enabled(Now(), EChecked(f, ok))
      modifies this
      ensures Now() == Step(old(Now()), EChecked(f, ok))
      ensures past == old(past)
    {
      var fiber := fibers[f];
      fibers := fibers - {f};
      if fiber.roid !in hydRoles {
        return;
      }
      if !ok {
        roles := roles[fiber.hyd.role := roles[fiber.hyd.role].Disconnect(fiber.now)];
      }
      Decide(f, fiber.roid, fiber.hyd, fiber.now);
    }

    method Decide(f: nat, roid: int, hyd: Hydrated, now: int)
      requires hyd.role in roles
      modifies this
      ensures Now() == VisitDecide(old(Now()), f, roid, hyd, now)
      ensures past == old(past)
    {
      var role := roles[hyd.role];
      if role.Disconnected() && now - role.dcSince >= idleLimit {
        roles := roles[hyd.role := role.Logout(Some(now))];
        var ticket := StoreIntoRedis(hyd);
        fibers := fibers[f := VisitLoggingOut(roid, hyd, ticket)];
      } else {
        var ticket := StoreIntoRedis(hyd);
        fibers := fibers[f := VisitStoring(roid, hyd, ticket)];
      }
    }

    /** After the SET: both logout paths erase the role, a mere save writes the entry back. */
    method Stored(f: nat)
      requires RefsOk(Now()) && Enabled(Now(), EStored(f))
      modifies this
      ensures Now() == Step(old(Now()), EStored(f))
      ensures past == old(past)
    {
      var fiber := fibers[f];
      fibers := fibers - {f};
      if !fiber.VisitStoring? {
        hydRoles := hydRoles - {fiber.roid};
      } else if fiber.roid in hydRoles {
        hydRoles := hydRoles[fiber.roid := fiber.hyd];
      }
    }

    // ----- Handlers -----

    /** The SET of fiber f takes effect in its turn, and the fiber goes on. */
    method AwaitStore(f: nat, others: seq<Event>)
      requires Valid() && f in fibers && !fibers[f].LoginFetching? && !fibers[f].VisitChecking?
      requires fibers[f].ticket < |writes|
      modifies this
      ensures Valid() && old(past) < past && old(writes) <= writes && f !in fibers
      ensures old(fibers[f]).ticket < applied
      ensures !old(fibers[f]).VisitStoring? ==> old(fibers[f]).roid !in hydRoles
      ensures Calm(others) ==> StartsNoVisit(past, |old(past)|)
      ensures AnswersAre(past, |old(past)|, f, None)
    {
      Yield(f, others);
      ApplyUpTo(f);
      End(f);
    }

    /** The SET has been answered. */
    method End(f: nat)
      requires Valid() && Enabled(Now(), EStored(f))
      modifies this
      ensures Valid() && past == old(past) + [EStored(f)] && writes == old(writes) && applied == old(applied)
      ensures f !in fibers && (!old(fibers[f]).VisitStoring? ==> old(fibers[f]).roid !in hydRoles)
    {
      ghost var s := Now();
      Stored(f);
      Log(s, EStored(f));
    }

    /** Redis takes the SETs up to that of fiber f. */
    method ApplyUpTo(f: nat)
      requires Valid() && f in fibers && !fibers[f].LoginFetching? && !fibers[f].VisitChecking?
      requires fibers[f].ticket < |writes|
      modifies this
      ensures Waited(f, old(fibers[f]), old(past), old(writes)) && fibers[f].ticket < applied
      ensures StartsNoVisit(past, |old(past)|) && AnswersAre(past, |old(past)|, f, None)
    {
      while applied <= fibers[f].ticket
        invariant Waited(f, old(fibers[f]), old(past), old(writes))
        invariant StartsNoVisit(past, |old(past)|) && AnswersAre(past, |old(past)|, f, None)
        decreases fibers[f].ticket - applied
      {
        WaitingFiberStays(Now(), EApply, f);
        Other(EApply);
      }
    }

    /** An identity for a new object. */
    method NewRole() returns (o: nat)
      ensures o !in roles
    {
      ghost var bound := Above(roles.Keys);
      o := 0;
      while o in roles
        invariant o <= bound
        decreases bound - o
      {
        o := o + 1;
      }
    }

    /** `*role/login`; `present` tells whether GETEX finds the record. */
    method HandleLogin(f: nat, roid: int, agent: Uuid, others: seq<Event>, present: bool) returns (status: Status)
      requires Valid() && f !in fibers && agent != 0
      modifies this
      ensures Valid() && old(past) < past && f !in fibers
      ensures status == GsOk || status == GsRoleNotLoaded
      ensures status == GsOk ==>
        roid in hydRoles && hydRoles[roid].role in roles && roles[hydRoles[roid].role].agent == agent
      ensures roid in old(hydRoles) ==> status == GsOk
    {
      ghost var s := Now();
      var answer := Login(f, roid, agent);
      Log(s, ELogin(f, roid, agent));
      if answer.Some? {
        return answer.value;
      }
      status := AwaitRecord(f, others, present);
    }

    /** The fiber of a login waits for its GETEX. */
    method AwaitRecord(f: nat, others: seq<Event>, present: bool) returns (status: Status)
      requires Valid() && f in fibers && fibers[f].LoginFetching?
      modifies this
      ensures Valid() && old(past) < past && f !in fibers
      ensures status == if present then GsOk else GsRoleNotLoaded
      ensures status == GsOk ==>
        var roid, agent := old(fibers[f]).roid, old(fibers[f]).agent;
        roid in hydRoles && hydRoles[roid].role in roles && roles[hydRoles[roid].role].agent == agent
    {
      Yield(f, others);
      var found := if present then Some(fibers[f].roid) else None;
      var o := NewRole();
      ghost var s := Now();
      status := LoginLoaded(f, found, o);
      Log(s, ELoaded(f, found, o));
    }

    /** `*role/logout`: when it answers "gs_ok", the role has gone, and a SET issued after `on_logout` has taken
        effect. */
    method HandleLogout(f: nat, roid: int, now: int, others: seq<Event>) returns (status: Status)
      requires Valid() && f !in fibers
      modifies this
      ensures Valid() && old(past) < past && f !in fibers
      ensures status == if roid in old(hydRoles) then GsOk else GsRoleNotLoggedIn
      ensures status == GsOk ==>
        roid !in hydRoles && StoredBetween(Initial(idleLimit), past, |old(past)|, |past|, roid)
    {
      ghost var s := Now();
      var answer := Logout(f, roid, now);
      Log(s, ELogout(f, roid, now));
      if answer.Some? {
        return answer.value;
      }
      assert fibers[f].ticket == |old(writes)| && writes[fibers[f].ticket].roid == roid;
      FinishStore(f, others, old(past), old(writes));
      status := GsOk;
    }

    /** Fiber f waits for a SET that was issued after event `before`. */
    method FinishStore(f: nat, others: seq<Event>, ghost before: seq<Event>, ghost issued: seq<Write>)
      requires Valid() && f in fibers && !fibers[f].LoginFetching? && !fibers[f].VisitChecking?
      requires |issued| <= fibers[f].ticket < |writes| && writes[fibers[f].ticket].roid == fibers[f].roid
      requires before <= past && Legal(Initial(idleLimit), before) && Run(Initial(idleLimit), before).writes == issued
      modifies this
      ensures Valid() && old(past) < past && f !in fibers
      ensures !old(fibers[f]).VisitStoring? ==> old(fibers[f]).roid !in hydRoles
      ensures StoredBetween(Initial(idleLimit), past, |before|, |past|, old(fibers[f]).roid)
      ensures Calm(others) ==> StartsNoVisit(past, |old(past)|)
      ensures AnswersAre(past, |old(past)|, f, None)
    {
      ghost var ticket := fibers[f].ticket;
      AwaitStore(f, others);
      assert past[..|past|] == past && past[..|before|] == before;
      assert writes[ticket] == old(writes)[ticket];
    }

    method StartVisit(f: nat, roid: int, now: int)
      requires Valid() && f !in fibers
      modifies this
      ensures Valid() && past == old(past) + [EVisit(f, roid, now)] && old(writes) <= writes
      ensures f !in fibers <==> roid !in old(hydRoles)
      ensures f in fibers && Online(old(Now()), roid) ==>
        fibers[f] == VisitChecking(roid, old(hydRoles)[roid], now)
      ensures f in fibers && !Online(old(Now()), roid) ==> AwaitsStore(f, roid, |old(writes)|)
      ensures Late(old(Now()), roid, now) ==> fibers[f].VisitLoggingOut?
    {
      ghost var s := Now();
      StartedVisit(s, f, roid, now);
      Visit(f, roid, now);
      Log(s, EVisit(f, roid, now));
    }

    /** One visit of the save tick, from its start to its end: a SET of the role is issued and answered, unless the role
        has gone before that. `ok` is what the agent answers, if it is asked: if not, an online role is disconnected. A
        role that has been disconnected for long enough is out of the table in the end. */
    method VisitRole(f: nat, roid: int, now: int, ok: bool, others1: seq<Event>, others2: seq<Event>)
      requires Valid() && f !in fibers
      modifies this
      ensures Valid() && old(past) + [EVisit(f, roid, now)] <= past && f !in fibers
      ensures SavedOrGone(Initial(idleLimit), past, |old(past)|, |past|, roid)
      ensures Calm(others1) && Calm(others2) ==> VisitsAreOf(past, |old(past)|, f, now)
      ensures Late(old(Now()), roid, now) ==> roid !in hydRoles
      ensures Online(old(Now()), roid) && !ok ==>
        Denied(Initial(idleLimit), past, |old(past)|, old(hydRoles[roid].role), roid, now)
      ensures AnswersAre(past, |old(past)|, f, Some(ok))
      ensures roid in old(hydRoles) ==> StaysPresent(old(Now()), |old(past)|, roid, old(hydRoles[roid].role))
    {
      RunVisit(f, roid, now, ok, others1, others2);
      if roid in old(hydRoles) {
        assert past[..|old(past)|] == old(past);
        PresentSince(old(Now()), |old(past)|, roid, old(hydRoles[roid].role));
      }
    }

    method RunVisit(f: nat, roid: int, now: int, ok: bool, others1: seq<Event>, others2: seq<Event>)
      requires Valid() && f !in fibers
      modifies this
      ensures Valid() && old(past) + [EVisit(f, roid, now)] <= past && f !in fibers
      ensures SavedOrGone(Initial(idleLimit), past, |old(past)|, |past|, roid)
      ensures Calm(others1) && Calm(others2) ==> VisitsAreOf(past, |old(past)|, f, now)
      ensures Late(old(Now()), roid, now) ==> roid !in hydRoles
      ensures Online(old(Now()), roid) && !ok ==>
        Denied(Initial(idleLimit), past, |old(past)|, old(hydRoles[roid].role), roid, now)
      ensures AnswersAre(past, |old(past)|, f, Some(ok))
    {
      StartVisit(f, roid, now);
      if f !in fibers {
        assert past[..|old(past)|] == old(past);
        assert GoneAt(Initial(idleLimit), past, |old(past)|, roid);
        return;
      }
      if fibers[f].VisitChecking? {
        AfterCheck(f, ok, others1, others2, old(past), old(writes));
      } else {
        FinishStore(f, others2, old(past), old(writes));
      }
    }

    /** If the role was present with object o at position a, and nothing since has told it to go, then it is present. */
    ghost predicate StaysPresent(s: State, a: nat, roid: int, o: nat)
      reads this
    {
      Present(s, roid, o) && AllKind(Initial(idleLimit), past, a, |past|, roid) ==> Present(Now(), roid, o)
    }

    lemma PresentSince(s: State, a: nat, roid: int, o: nat)
      requires Valid() && a <= |past| && s == After(Initial(idleLimit), past, a)
      ensures StaysPresent(s, a, roid, o)
    {
      if Present(s, roid, o) && AllKind(Initial(idleLimit), past, a, |past|, roid) {
        ConfirmedRoleStays(Initial(idleLimit), past, a, |past|, roid, o);
        assert past[..|past|] == past;
      }
    }

    /** The agent has answered: either the fiber now waits for its SET, or the role has gone. */
    method Recheck(f: nat, ok: bool)
      requires Valid() && f in fibers && fibers[f].VisitChecking?
      modifies this
      ensures Valid() && past == old(past) + [EChecked(f, ok)] && old(writes) <= writes
      ensures f !in fibers ==> old(fibers[f]).roid !in hydRoles
      ensures f in fibers ==> AwaitsStore(f, old(fibers[f]).roid, |old(writes)|)
      ensures ok && old(roles[fibers[f].hyd.role]).agent != 0 ==> roles == old(roles)
      ensures f in fibers && !ok ==>
        var o := old(fibers[f]).hyd.role;
        o in roles && roles[o].Disconnected() && roles[o].dcSince == old(fibers[f]).now
    {
      ghost var s := Now();
      CheckedVisit(s, f, ok);
      VisitChecked(f, ok);
      Log(s, EChecked(f, ok));
    }

    /** The visit goes on once the agent has answered. */
    method AfterCheck(f: nat, ok: bool, others1: seq<Event>, others2: seq<Event>, ghost before: seq<Event>,
                      ghost issued: seq<Write>)
      requires Valid() && f in fibers && fibers[f].VisitChecking? && before <= past && issued <= writes
      requires Legal(Initial(idleLimit), before) && Run(Initial(idleLimit), before).writes == issued
      modifies this
      ensures Valid() && old(past) < past && f !in fibers
      ensures SavedOrGone(Initial(idleLimit), past, |before|, |past|, old(fibers[f]).roid)
      ensures Calm(others1) && Calm(others2) ==> StartsNoVisit(past, |old(past)|)
      ensures AnswersAre(past, |old(past)|, f, Some(ok))
      ensures !ok ==>
        var fiber := old(fibers[f]); Denied(Initial(idleLimit), past, |before|, fiber.hyd.role, fiber.roid, fiber.now)
    {
      ghost var fiber := fibers[f];
      AwaitAnswer(f, ok, others1, |before|);
      ghost var answered := past;
      EndVisit(f, fiber.roid, others2, before, issued);
      if !ok {
        DeniedStays(Initial(idleLimit), answered, past, |before|, fiber.hyd.role, fiber.roid, fiber.now);
      }
    }

    /** Fiber f waits for the agent's answer. */
    method AwaitAnswer(f: nat, ok: bool, others: seq<Event>, ghost from: nat)
      requires Valid() && f in fibers && fibers[f].VisitChecking? && from <= |past|
      modifies this
      ensures Valid() && old(past) < past && old(writes) <= writes
      ensures f !in fibers ==> old(fibers[f]).roid !in hydRoles
      ensures f in fibers ==> AwaitsStore(f, old(fibers[f]).roid, |old(writes)|)
      ensures Calm(others) ==> StartsNoVisit(past, |old(past)|)
      ensures AnswersAre(past, |old(past)|, f, Some(ok))
      ensures !ok ==>
        var fiber := old(fibers[f]); Denied(Initial(idleLimit), past, from, fiber.hyd.role, fiber.roid, fiber.now)
    {
      Yield(f, others);
      ghost var fiber := fibers[f];
      Recheck(f, ok);
      if !ok {
        DeniedNow(Initial(idleLimit), past, from, fiber.hyd.role, fiber.roid, fiber.now);
      }
    }

    /** Fiber f waits for a SET of the role that is not among the first `issued`. */
    ghost predicate AwaitsStore(f: nat, roid: int, issued: nat)
      requires f in fibers
      reads this
    {
      && fibers[f].roid == roid && !fibers[f].LoginFetching? && !fibers[f].VisitChecking?
      && issued <= fibers[f].ticket < |writes| && writes[fibers[f].ticket].roid == roid
    }

    method EndVisit(f: nat, ghost roid: int, others: seq<Event>, ghost before: seq<Event>, ghost issued: seq<Write>)
      requires Valid() && before <= past
      requires Legal(Initial(idleLimit), before) && Run(Initial(idleLimit), before).writes == issued
      requires if f in fibers then AwaitsStore(f, roid, |issued|) else roid !in hydRoles
      modifies this
      ensures Valid() && old(past) <= past && f !in fibers
      ensures SavedOrGone(Initial(idleLimit), past, |before|, |past|, roid)
      ensures Calm(others) ==> StartsNoVisit(past, |old(past)|)
      ensures AnswersAre(past, |old(past)|, f, None)
    {
      if f in fibers {
        FinishStore(f, others, before, issued);
      } else {
        GoneNow(Initial(idleLimit), past, |before|, roid);
      }
    }

    // ----- The save tick -----

    /** All these roles have been visited from position a on, and have been saved or were gone. */
    ghost predicate AllSaved(a: nat, roids: seq<int>, now: int)
      reads this
    {
      && (forall i :: 0 <= i < |roids| ==> SavedOrGone(Initial(idleLimit), past, a, |past|, roids[i]))
      && (forall i :: 0 <= i < |roids| ==> VisitStarts(past, a, |past|, roids[i], now))
    }

    method VisitNext(f: nat, roid: int, now: int, ok: bool, others1: seq<Event>, others2: seq<Event>, ghost from: nat,
                     ghost done: seq<int>)
      requires Valid() && f !in fibers && from <= |past| && AllSaved(from, done, now)
      modifies this
      ensures Valid() && old(past) <= past && f !in fibers && AllSaved(from, done + [roid], now)
      ensures Calm(others1) && Calm(others2) ==> VisitsAreOf(past, |old(past)|, f, now)
    {
      ghost var before := past;
      VisitRole(f, roid, now, ok, others1, others2);
      forall i | 0 <= i < |done|
        ensures SavedOrGone(Initial(idleLimit), past, from, |past|, done[i])
        ensures VisitStarts(past, from, |past|, done[i], now)
      {
        SavedOrGoneStays(Initial(idleLimit), before, past, from, done[i]);
        VisitStartsStays(before, past, from, done[i], now);
      }
      SavedSince(Initial(idleLimit), past, from, |before|, roid);
      assert past[|before|] == EVisit(f, roid, now);
    }

    /** Plans if needed, pops one bucket and visits its roles one after the other; every role of the bucket that stays
        hydrated meanwhile has a SET issued and answered within the tick. `order` enumerates `hyd_roles`, `oks` are
        the agents' answers, and `gaps` is what others do at the yields. As the ticks of one timer do not overlap,
        that comprises no visits, and then this is a tick of the run. */
    method SaveTick(f: nat, order: seq<int>, now: int, oks: seq<bool>, gaps: seq<seq<Event>>)
      returns (visited: seq<int>)
      requires Valid() && f !in fibers
      requires forall r :: r in order <==> r in hydRoles
      modifies this, scheduler
      ensures Valid() && old(past) <= past && f !in fibers
      ensures var plan := Filled(old(scheduler.saveBuckets), Layout(order));
        scheduler.saveBuckets == plan[..|plan| - 1]
        && |visited| == |plan[|plan| - 1]|
        && forall k :: 0 <= k < |visited| ==> visited[k] == plan[|plan| - 1][|visited| - 1 - k]
      ensures AllSaved(|old(past)|, visited, now)
      ensures NoVisits(old(Now())) && (forall i :: 0 <= i < |gaps| ==> Calm(gaps[i])) ==>
        TickRuns(Initial(idleLimit), past, |old(past)|, |past|, visited, now)
    {
      visited := scheduler.Tick(order);
      ghost var start := past;
      VisitAll(f, visited, now, oks, gaps);
      if NoVisits(old(Now())) && forall i :: 0 <= i < |gaps| ==> Calm(gaps[i]) {
        RunPrefix(Initial(idleLimit), past, |start|);
        assert past[..|start|] == start;
        TickOfOne(Initial(idleLimit), past, |start|, f, visited, now);
      }
    }

    /** The loop of the tick. */
    method VisitAll(f: nat, visited: seq<int>, now: int, oks: seq<bool>, gaps: seq<seq<Event>>)
      requires Valid() && f !in fibers
      modifies this
      ensures Valid() && old(past) <= past && f !in fibers && AllSaved(|old(past)|, visited, now)
      ensures (forall i :: 0 <= i < |gaps| ==> Calm(gaps[i])) ==> VisitsAreOf(past, |old(past)|, f, now)
    {
      for k := 0 to |visited|
        invariant Valid() && old(past) <= past && f !in fibers
        invariant AllSaved(|old(past)|, visited[..k], now)
        invariant (forall i :: 0 <= i < |gaps| ==> Calm(gaps[i])) ==> VisitsAreOf(past, |old(past)|, f, now)
      {
        VisitNext(f, visited[k], now, k < |oks| && oks[k], Gap(gaps, 2 * k), Gap(gaps, 2 * k + 1), |old(past)|,
                  visited[..k]);
        assert visited[..k] + [visited[k]] == visited[..k + 1];
      }
      assert visited[..|visited|] == visited;
    }
  }

  function Gap(gaps: seq<seq<Event>>, i: nat): seq<Event> {
    if i < |gaps| then gaps[i] else []
  }
}
