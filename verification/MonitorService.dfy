/** The monitor's handlers and save tick as imperative code over mutable tables.

    At every `yield` a handler hands over to other fibers: `others` says what they do meanwhile, and the
    part of it that is possible is carried out. `past` records every step; each handler is proved to be a
    fiber of `RoleStore` that runs from its first command to its answer, so the theorems about runs apply. */
module MonitorService {
  import opened Options
  import opened RoleStore
  import PersistedRows
  import TrackedKeys
  import opened SavePlan

  // ----- Runs that grow at the end -----

  ghost predicate Possible(s: Store, es: seq<Event>)
    decreases |es|, 0
  {
    es == [] || (Possible(s, es[..|es| - 1]) && Enabled(After(s, es[..|es| - 1]), es[|es| - 1]))
  }

  ghost function After(s: Store, es: seq<Event>): Store
    requires Possible(s, es)
    decreases |es|, 1
  {
    if es == [] then s else Step(After(s, es[..|es| - 1]), es[|es| - 1])
  }

  lemma OneMore(s: Store, es: seq<Event>, e: Event)
    requires Possible(s, es) && Enabled(After(s, es), e)
    ensures Possible(s, es + [e]) && After(s, es + [e]) == Step(After(s, es), e)
  {
    assert (es + [e])[..|es|] == es;
  }

  lemma {:induction false} PossibleKeepsWellKeyed(s: Store, es: seq<Event>)
    requires Possible(s, es) && WellKeyed(s)
    ensures WellKeyed(After(s, es))
    decreases |es|
  {
    if es != [] {
      PossibleKeepsWellKeyed(s, es[..|es| - 1]);
      StepKeepsWellKeyed(After(s, es[..|es| - 1]), es[|es| - 1]);
    }
  }

  predicate Concerns(e: Event, f: nat) {
    !e.LogicSet? && e.f == f
  }

  lemma WaitingFiberStays(s: Store, e: Event, f: nat)
    requires Enabled(s, e) && f in s.fibers && !Concerns(e, f)
    ensures f in Step(s, e).fibers && Step(s, e).fibers[f] == s.fibers[f]
  {
    if e.Go? {
      OthersStay(s, e.f, e.spelling, f);
    }
  }

  lemma HereStays(s: Store, e: Event)
    requires Enabled(s, e)
    ensures Step(s, e).here == s.here
  {
  }

  /** The last of these steps resumes fiber f, which ends it with this answer. */
  ghost predicate Answered(s: Store, es: seq<Event>, f: nat, status: Status) {
    && es != [] && Possible(s, es) && es[|es| - 1].Go? && es[|es| - 1].f == f
    && Answer(After(s, es[..|es| - 1]), f) == Some(status)
    && f !in After(s, es).fibers
  }

  /** From position `from` on, fiber f is only resumed. */
  ghost predicate OnlyResumed(es: seq<Event>, from: nat, f: nat) {
    forall i :: from <= i < |es| && Concerns(es[i], f) ==> es[i].Go?
  }

  /** From position `from` on, fiber f starts with `first` and is then only resumed. */
  ghost predicate RunsAs(es: seq<Event>, from: nat, f: nat, first: Fiber) {
    from < |es| && es[from] == Start(f, first) && OnlyResumed(es, from + 1, f)
  }

  /** Between positions a and b, fiber f has run a save visit of `roid` from its start to its answer. */
  ghost predicate Completed(s: Store, es: seq<Event>, a: nat, b: nat, f: nat, roid: int) {
    exists n: nat, j: nat :: a <= n < j <= b && CompletedBy(s, es, n, j, f, roid)
  }

  ghost predicate CompletedBy(s: Store, es: seq<Event>, n: nat, j: nat, f: nat, roid: int) {
    && j <= |es| && RunsAs(es[..j], n, f, Getting(roid, Save))
    && (Answered(s, es[..j], f, GsOk) || Answered(s, es[..j], f, GsRoleNotLoaded))
  }

  lemma JustCompleted(s: Store, es: seq<Event>, a: nat, n: nat, f: nat, roid: int, status: Status)
    requires a <= n < |es| && RunsAs(es, n, f, Getting(roid, Save)) && Answered(s, es, f, status)
    requires status == GsOk || status == GsRoleNotLoaded
    ensures Completed(s, es, a, |es|, f, roid)
  {
    assert es[..|es|] == es;
    assert CompletedBy(s, es, n, |es|, f, roid);
  }

  lemma CompletedStays(s: Store, before: seq<Event>, es: seq<Event>, a: nat, b: nat, f: nat, roid: int)
    requires before <= es && |before| <= b && Completed(s, before, a, |before|, f, roid)
    ensures Completed(s, es, a, b, f, roid)
  {
    var n: nat, j: nat :| a <= n < j <= |before| && CompletedBy(s, before, n, j, f, roid);
    assert es[..j] == before[..j];
    assert CompletedBy(s, es, n, j, f, roid);
  }

  /** From position a on, fiber f has run a save visit of each of these roles. */
  ghost predicate AllCompleted(s: Store, es: seq<Event>, a: nat, f: nat, roids: seq<int>) {
    forall i :: 0 <= i < |roids| ==> Completed(s, es, a, |es|, f, roids[i])
  }

  lemma OneMoreCompleted(s: Store, before: seq<Event>, es: seq<Event>, a: nat, f: nat, roids: seq<int>, roid: int,
                         status: Status)
    requires a <= |before| < |es| && before <= es && AllCompleted(s, before, a, f, roids)
    requires RunsAs(es, |before|, f, Getting(roid, Save)) && Answered(s, es, f, status)
    requires status == GsOk || status == GsRoleNotLoaded
    ensures AllCompleted(s, es, a, f, roids + [roid])
  {
    JustCompleted(s, es, a, |before|, f, roid, status);
    forall i | 0 <= i < |roids| ensures Completed(s, es, a, |es|, f, roids[i]) {
      CompletedStays(s, before, es, a, |es|, f, roids[i]);
    }
  }

  function Lookup(redis: map<int, Text>, roid: int): Option<Text> {
    if roid in redis then Some(redis[roid]) else None
  }

  /** How many steps from position `from` on, not counting those of fiber f, change the value of `roid` in Redis. */
  ghost function Changes(s: Store, es: seq<Event>, from: nat, f: nat, roid: int): nat
    requires Possible(s, es)
    decreases |es|
  {
    if |es| <= from then 0 else
    var before, e := es[..|es| - 1], es[|es| - 1];
    var changed := Lookup(After(s, before).redis, roid) != Lookup(After(s, es).redis, roid);
    Changes(s, before, from, f, roid) + if changed && !Concerns(e, f) then 1 else 0
  }

  /** If a value has changed while f waited, somebody has changed it. */
  lemma {:induction false} SomebodyChanged(s: Store, es: seq<Event>, from: nat, f: nat, roid: int, at: nat)
    requires from <= at <= |es| && Possible(s, es) && Possible(s, es[..at])
    requires forall i :: at <= i < |es| ==> !Concerns(es[i], f)
    ensures Changes(s, es, from, f, roid) >= Changes(s, es[..at], from, f, roid)
    ensures Lookup(After(s, es).redis, roid) != Lookup(After(s, es[..at]).redis, roid) ==>
      Changes(s, es, from, f, roid) > Changes(s, es[..at], from, f, roid)
    decreases |es|
  {
    if at < |es| {
      var before := es[..|es| - 1];
      assert before[..at] == es[..at];
      SomebodyChanged(s, before, from, f, roid, at);
    } else {
      assert es[..at] == es;
    }
  }

  class RoleService {
    const here: Home
    const scheduler: SaveScheduler
    var redis: map<int, Text>
    var mysql: map<int, Row>
    var roleRecords: map<int, Record>
    var fibers: map<nat, Fiber>
    ghost var past: seq<Event>

    function Now(): Store
      reads this
    {
      Store(here, redis, mysql, roleRecords, fibers)
    }

    ghost predicate Valid()
      reads this
    {
      Possible(Initial(here), past) && Now() == After(Initial(here), past)
    }

    constructor (here: Home)
      ensures Valid() && Now() == Initial(here) && past == [] && fresh(scheduler) && scheduler.saveBuckets == []
    {
      this.here := here;
      scheduler := new SaveScheduler();
      redis, mysql, roleRecords, fibers, past := map[], map[], map[], map[], [];
    }

    /** Record that the tables just went through step e. */
    ghost method Log(s: Store, e: Event)
      requires Possible(Initial(here), past) && s == After(Initial(here), past)
      requires Enabled(s, e) && Now() == Step(s, e)
      modifies this`past
      ensures Valid() && past == old(past) + [e]
    {
      OneMore(Initial(here), past, e);
      past := past + [e];
    }

    /** Another fiber, or a logic server, takes a step. */
    method Other(e: Event)
      requires Valid() && Enabled(Now(), e)
      modifies this
      ensures Valid() && past == old(past) + [e] && Now() == Step(old(Now()), e)
    {
      ghost var s := Now();
      HereStays(s, e);
      var t := Step(Now(), e);
      redis, mysql, roleRecords, fibers := t.redis, t.mysql, t.tracked, t.fibers;
      Log(s, e);
    }

    /** The steps that others have taken since, with fiber f waiting. */
    ghost predicate Waited(f: nat, fiber: Fiber, before: seq<Event>)
      reads this
    {
      && Valid() && before <= past
      && f in fibers && fibers[f] == fiber
      && forall i :: |before| <= i < |past| ==> !Concerns(past[i], f)
    }

    /** Fiber f waits; others run. */
    method Yield(f: nat, others: seq<Event>)
      requires Valid() && f in fibers
      modifies this
      ensures Waited(f, old(fibers[f]), old(past))
      ensures others == [] ==> past == old(past)
    {
      for k := 0 to |others|
        invariant Waited(f, old(fibers[f]), old(past))
        invariant k == 0 ==> past == old(past)
      {
        if Enabled(Now(), others[k]) && !Concerns(others[k], f) {
          WaitingFiberStays(Now(), others[k], f);
          Other(others[k]);
        }
      }
    }

    /** A request starts a fiber. */
    method Begin(f: nat, first: Fiber)
      requires Valid() && f !in fibers && FirstCommand(first)
      modifies this
      ensures Valid() && past == old(past) + [Start(f, first)]
      ensures f in fibers && fibers[f] == first
    {
      ghost var s := Now();
      fibers := fibers[f := first];
      Log(s, Start(f, first));
    }

    // ----- The code after each answer -----

    /** After the SELECT of `*role/load`. */
    method Selected(f: nat) returns (found: Option<Record>)
      requires Valid() && f in fibers && fibers[f].Selecting?
      modifies this
      ensures Valid() && past == old(past) + [Go(f, 0)]
      ensures found.Some? ==> f in fibers && fibers[f] == StoringNx(found.value.roid, found.value)
      ensures found.None? ==> Answered(Initial(here), past, f, GsRoidNotFound)
    {
      ghost var s := Now();
      var roid := fibers[f].roid;
      if roid !in mysql {
        fibers := fibers - {f};
        Log(s, Go(f, 0));
        return None;
      }
      var roinfo := Record(roid, mysql[roid], here);
      fibers := fibers[f := StoringNx(roid, roinfo)];
      Log(s, Go(f, 0));
      return Some(roinfo);
    }

    /** After the INSERT IGNORE of `*role/create`; None if it matched nothing. */
    method Inserted(f: nat) returns (created: Option<Record>)
      requires Valid() && f in fibers && fibers[f].Inserting?
      modifies this
      ensures Valid() && past == old(past) + [Go(f, 0)] && f in fibers
      ensures fibers[f] == match created
        case None => Reselecting(old(fibers[f]).roid, old(fibers[f]).row.username)
        case Some(record) => StoringNx(record.roid, record)
    {
      ghost var s := Now();
      var roid, row := fibers[f].roid, fibers[f].row;
      if roid in mysql {
        fibers := fibers[f := Reselecting(roid, row.username)];
        Log(s, Go(f, 0));
        return None;
      }
      var roinfo := Record(roid, row, here);
      mysql := mysql[roid := row];
      fibers := fibers[f := StoringNx(roid, roinfo)];
      Log(s, Go(f, 0));
      return Some(roinfo);
    }

    /** After the SELECT that makes `*role/create` retryable. */
    method Reselected(f: nat) returns (found: Option<Record>)
      requires Valid() && f in fibers && fibers[f].Reselecting?
      modifies this
      ensures Valid() && past == old(past) + [Go(f, 0)]
      ensures found.Some? ==> f in fibers && fibers[f] == StoringNx(found.value.roid, found.value)
      ensures found.None? ==> Answered(Initial(here), past, f, GsRoidConflict)
    {
      ghost var s := Now();
      var roid, username := fibers[f].roid, fibers[f].username;
      if roid !in mysql || mysql[roid].username != username {
        fibers := fibers - {f};
        Log(s, Go(f, 0));
        return None;
      }
      var roinfo := Record(roid, mysql[roid], here);
      fibers := fibers[f := StoringNx(roid, roinfo)];
      Log(s, Go(f, 0));
      return Some(roinfo);
    }

    /** After the SET NX GET that ends both. */
    method StoredNx(f: nat, spelling: nat)
      requires Valid() && f in fibers && fibers[f].StoringNx?
      modifies this
      ensures Valid() && past == old(past) + [Go(f, spelling)] && Answered(Initial(here), past, f, GsOk)
    {
      ghost var s := Now();
      var roinfo := fibers[f].record;
      if roinfo.roid in redis {
        roinfo := redis[roinfo.roid].record;
      } else {
        redis := redis[roinfo.roid := Text(roinfo, spelling)];
      }
      roleRecords := roleRecords[roinfo.roid := roinfo];
      fibers := fibers - {f};
      Log(s, Go(f, spelling));
    }

    /** After the GET of `*role/flush` or of a visit of the save tick. */
    method GotToPersist(f: nat) returns (status: Status)
      requires Valid() && f in fibers && fibers[f].Getting? && !fibers[f].purpose.Unload?
      modifies this
      ensures Valid() && past == old(past) + [Go(f, 0)]
      ensures status == GsOk ==> f in fibers && fibers[f].Persisting?
      ensures status != GsOk ==> Answered(Initial(here), past, f, status)
      ensures old(fibers[f]).purpose == Save ==> status == GsOk || status == GsRoleNotLoaded
    {
      ghost var s := Now();
      var roid, purpose := fibers[f].roid, fibers[f].purpose;
      if roid !in redis {
        roleRecords := roleRecords - {roid};
        fibers := fibers - {f};
        Log(s, Go(f, 0));
        return GsRoleNotLoaded;
      }
      var roinfo := redis[roid].record;
      if purpose == Flush && Foreign(roinfo, here) {
        fibers := fibers - {f};
        Log(s, Go(f, 0));
        return GsRoleForeign;
      }
      roleRecords := roleRecords[roinfo.roid := roinfo];
      fibers := fibers[f := Persisting(roid, roinfo)];
      Log(s, Go(f, 0));
      return GsOk;
    }

    /** After the UPDATE that ends both. */
    method Persisted(f: nat)
      requires Valid() && f in fibers && fibers[f].Persisting?
      modifies this
      ensures Valid() && past == old(past) + [Go(f, 0)] && Answered(Initial(here), past, f, GsOk)
    {
      ghost var s := Now();
      mysql := Update(mysql, fibers[f].record);
      fibers := fibers - {f};
      Log(s, Go(f, 0));
    }

    // ----- Handlers -----

    method Load(f: nat, roid: int, others1: seq<Event>, others2: seq<Event>, spelling: nat) returns (status: Status)
      requires Valid() && f !in fibers
      modifies this
      ensures Valid() && old(past) <= past
      ensures RunsAs(past, |old(past)|, f, Selecting(roid)) && Answered(Initial(here), past, f, status)
    {
      Begin(f, Selecting(roid));
      Yield(f, others1);
      var found := Selected(f);
      if found.None? {
        return GsRoidNotFound;
      }
      WaitAndStore(f, others2, spelling);
      status := GsOk;
    }

    method Create(f: nat, roid: int, username: string, nickname: string, now: int,
                  others1: seq<Event>, others2: seq<Event>, others3: seq<Event>, spelling: nat) returns (status: Status)
      requires Valid() && f !in fibers
      modifies this
      ensures Valid() && old(past) <= past
      ensures RunsAs(past, |old(past)|, f, Inserting(roid, FreshRow(username, nickname, now)))
      ensures Answered(Initial(here), past, f, status)
    {
      Begin(f, Inserting(roid, FreshRow(username, nickname, now)));
      Yield(f, others1);
      var roinfo := Inserted(f);
      if roinfo.None? {
        roinfo := Reclaim(f, others2);
        if roinfo.None? {
          return GsRoidConflict;
        }
      }
      WaitAndStore(f, others3, spelling);
      status := GsOk;
    }

    /** The role exists: a retry by the same user loads it. */
    method Reclaim(f: nat, others: seq<Event>) returns (found: Option<Record>)
      requires Valid() && f in fibers && fibers[f].Reselecting?
      modifies this
      ensures Valid() && old(past) <= past && OnlyResumed(past, |old(past)|, f)
      ensures found.Some? ==> f in fibers && fibers[f] == StoringNx(found.value.roid, found.value)
      ensures found.None? ==> Answered(Initial(here), past, f, GsRoidConflict)
    {
      Yield(f, others);
      found := Reselected(f);
    }

    method WaitAndStore(f: nat, others: seq<Event>, spelling: nat)
      requires Valid() && f in fibers && fibers[f].StoringNx?
      modifies this
      ensures Valid() && old(past) <= past && Answered(Initial(here), past, f, GsOk)
      ensures OnlyResumed(past, |old(past)|, f)
    {
      Yield(f, others);
      StoredNx(f, spelling);
    }

    /** `*role/flush`, and one visit of the save tick. */
    method Persist(f: nat, roid: int, purpose: Purpose, others1: seq<Event>, others2: seq<Event>)
      returns (status: Status)
      requires Valid() && f !in fibers && !purpose.Unload?
      modifies this
      ensures Valid() && old(past) <= past
      ensures RunsAs(past, |old(past)|, f, Getting(roid, purpose)) && Answered(Initial(here), past, f, status)
      ensures purpose == Save ==> status == GsOk || status == GsRoleNotLoaded
    {
      Begin(f, Getting(roid, purpose));
      Yield(f, others1);
      status := GotToPersist(f);
      if status == GsOk {
        WaitAndUpdate(f, others2);
      }
    }

    /** The second half of a persist: the fiber waits for its UPDATE. */
    method WaitAndUpdate(f: nat, others: seq<Event>)
      requires Valid() && f in fibers && fibers[f].Persisting?
      modifies this
      ensures Valid() && old(past) <= past && OnlyResumed(past, |old(past)|, f)
      ensures Answered(Initial(here), past, f, GsOk)
    {
      Yield(f, others);
      Persisted(f);
    }

    // ----- *role/unload -----

    /** Fiber f is about to write `roid`, with the value that Redis has right now in hand. */
    ghost predicate AboutToWrite(f: nat, roid: int)
      reads this
    {
      && Valid() && f in fibers && fibers[f].UnloadWriting?
      && fibers[f].roid == fibers[f].text.record.roid == roid
      && Lookup(redis, roid) == Some(fibers[f].text)
    }

    /** After the GET. */
    method GotToUnload(f: nat, roid: int) returns (status: Status)
      requires Valid() && WellKeyed(Now()) && f in fibers && fibers[f] == Getting(roid, Purpose.Unload)
      modifies this
      ensures Valid() && past == old(past) + [Go(f, 0)]
      ensures status == GsOk ==> AboutToWrite(f, roid)
      ensures status != GsOk ==> Answered(Initial(here), past, f, status)
    {
      ghost var s := Now();
      if roid !in redis {
        roleRecords := roleRecords - {roid};
        fibers := fibers - {f};
        Log(s, Go(f, 0));
        return GsRoleNotLoaded;
      }
      status := UnloadRoundFor(f, roid, redis[roid]);
    }

    /** The home check that starts each round of the loop. */
    method UnloadRoundFor(f: nat, roid: int, text: Text) returns (status: Status)
      requires Valid() && WellKeyed(Now()) && f in fibers && fibers[f].roid == roid && Lookup(redis, roid) == Some(text)
      requires fibers[f] == Getting(roid, Purpose.Unload) || (fibers[f].UnloadDeleting? && fibers[f].text != text)
      modifies this
      ensures Valid() && past == old(past) + [Go(f, 0)]
      ensures status == GsOk ==> AboutToWrite(f, roid)
      ensures status != GsOk ==> Answered(Initial(here), past, f, status)
    {
      ghost var s := Now();
      assert FiberAgrees(fibers[f]);
      if Foreign(text.record, here) {
        fibers := fibers - {f};
        Log(s, Go(f, 0));
        return GsRoleForeign;
      }
      fibers := fibers[f := UnloadWriting(roid, text)];
      Log(s, Go(f, 0));
      return GsOk;
    }

    /** After the UPDATE. */
    method UnloadWritten(f: nat)
      requires Valid() && f in fibers && fibers[f].UnloadWriting?
      modifies this
      ensures Valid() && past == old(past) + [Go(f, 0)] && redis == old(redis)
      ensures f in fibers && fibers[f] == UnloadDeleting(old(fibers[f]).roid, old(fibers[f]).text)
    {
      ghost var s := Now();
      var roid, text := fibers[f].roid, fibers[f].text;
      mysql := Update(mysql, text.record);
      fibers := fibers[f := UnloadDeleting(roid, text)];
      Log(s, Go(f, 0));
    }

    /** After the compare-and-delete; None means that the value has changed and another round follows. */
    method UnloadDeleted(f: nat, roid: int) returns (status: Option<Status>)
      requires Valid() && WellKeyed(Now()) && f in fibers && fibers[f].UnloadDeleting? && fibers[f].roid == roid
      modifies this
      ensures Valid() && past == old(past) + [Go(f, 0)]
      ensures status.None? ==> AboutToWrite(f, roid) && Lookup(old(redis), roid) != Some(old(fibers[f]).text)
      ensures status.Some? ==> Answered(Initial(here), past, f, status.value)
    {
      var text := fibers[f].text;
      assert FiberAgrees(fibers[f]);
      if roid in redis && redis[roid] != text {
        var next := UnloadRoundFor(f, roid, redis[roid]);
        return if next == GsOk then None else Some(next);
      }
      ghost var s := Now();
      redis := redis - {roid};
      roleRecords := roleRecords - {roid};
      fibers := fibers - {f};
      Log(s, Go(f, 0));
      return Some(GsOk);
    }

    /** At least `base` changes by others have been counted, and one more if Redis no longer holds `text`. */
    ghost predicate Counted(from: nat, f: nat, roid: int, text: Text, base: nat)
      reads this
    {
      && Valid()
      && Changes(Initial(here), past, from, f, roid) >= base + if Lookup(redis, roid) == Some(text) then 0 else 1
    }

    method YieldCounting(f: nat, others: seq<Event>, ghost from: nat, ghost roid: int, ghost text: Text,
                         ghost base: nat)
      requires Valid() && f in fibers && from <= |past| && Counted(from, f, roid, text, base)
      modifies this
      ensures Waited(f, old(fibers[f]), old(past)) && Counted(from, f, roid, text, base)
      ensures others == [] ==> past == old(past)
    {
      ghost var before := past;
      Yield(f, others);
      assert past[..|before|] == before;
      SomebodyChanged(Initial(here), past, from, f, roid, |before|);
    }

    /** One round of the loop: UPDATE, then compare and delete. */
    method UnloadOnce(f: nat, roid: int, others1: seq<Event>, others2: seq<Event>, ghost from: nat)
      returns (status: Option<Status>)
      requires AboutToWrite(f, roid) && from <= |past|
      modifies this
      ensures Valid() && old(past) <= past && OnlyResumed(past, |old(past)|, f)
      ensures others1 == others2 == [] ==> status.Some?
      ensures status.None? ==> AboutToWrite(f, roid)
      ensures status.Some? ==> Answered(Initial(here), past, f, status.value)
      ensures Changes(Initial(here), past, from, f, roid)
           >= Changes(Initial(here), old(past), from, f, roid) + if status.None? then 1 else 0
    {
      ghost var base, text := Changes(Initial(here), past, from, f, roid), fibers[f].text;
      YieldCounting(f, others1, from, roid, text, base);
      ghost var before := past;
      UnloadWritten(f);
      assert past[..|past| - 1] == before;
      status := WaitAndDelete(f, roid, others2, from, base);
    }

    method WaitAndDelete(f: nat, roid: int, others: seq<Event>, ghost from: nat, ghost base: nat)
      returns (status: Option<Status>)
      requires Valid() && f in fibers && fibers[f].UnloadDeleting? && fibers[f].roid == roid && from <= |past|
      requires Counted(from, f, roid, fibers[f].text, base)
      modifies this
      ensures Valid() && old(past) <= past && OnlyResumed(past, |old(past)|, f)
      ensures others == [] && Lookup(old(redis), roid) == Some(old(fibers[f]).text) ==> status.Some?
      ensures status.None? ==> AboutToWrite(f, roid)
      ensures status.Some? ==> Answered(Initial(here), past, f, status.value)
      ensures Changes(Initial(here), past, from, f, roid) >= base + if status.None? then 1 else 0
    {
      YieldCounting(f, others, from, roid, fibers[f].text, base);
      PossibleKeepsWellKeyed(Initial(here), past);
      ghost var before := past;
      status := UnloadDeleted(f, roid);
      assert past[..|past| - 1] == before;
    }

    /** `*role/unload`, with a do-while loop. `gaps[i]` is what others do while it waits for its answer i; when
        they are used up nobody interferes any more. `writes` counts its UPDATEs: at most one more than the
        number of times that others change the value in Redis meanwhile, and in a disciplined run at most one more
        than the number of SETs of the role meanwhile. */
    method Unload(f: nat, roid: int, gaps: seq<seq<Event>>) returns (status: Status, writes: nat)
      requires Valid() && f !in fibers
      modifies this
      ensures Valid() && old(past) <= past
      ensures RunsAs(past, |old(past)|, f, Getting(roid, Purpose.Unload)) && Answered(Initial(here), past, f, status)
      ensures writes <= 1 + Changes(Initial(here), past, |old(past)|, f, roid)
      ensures Legal(Initial(here), past) ==> writes <= 1 + Sets(past, |old(past)|, roid)
    {
      ghost var from := |past|;
      writes := 0;
      status := StartUnload(f, roid, Gap(gaps, 0));
      if status != GsOk {
        return;
      }
      status, writes := UnloadRounds(f, roid, gaps, from);
    }

    /** Up to the first UPDATE. */
    method StartUnload(f: nat, roid: int, others: seq<Event>) returns (status: Status)
      requires Valid() && f !in fibers
      modifies this
      ensures Valid() && old(past) <= past && RunsAs(past, |old(past)|, f, Getting(roid, Purpose.Unload))
      ensures if status == GsOk then AboutToWrite(f, roid) else Answered(Initial(here), past, f, status)
    {
      Begin(f, Getting(roid, Purpose.Unload));
      Yield(f, others);
      PossibleKeepsWellKeyed(Initial(here), past);
      status := GotToUnload(f, roid);
    }

    /** The loop of the handler. */
    method UnloadRounds(f: nat, roid: int, gaps: seq<seq<Event>>, ghost from: nat) returns (status: Status, writes: nat)
      requires Valid() && from <= |past| && RunsAs(past, from, f, Getting(roid, Purpose.Unload))
      requires AboutToWrite(f, roid)
      modifies this
      ensures Valid() && old(past) <= past
      ensures RunsAs(past, from, f, Getting(roid, Purpose.Unload)) && Answered(Initial(here), past, f, status)
      ensures writes <= 1 + Changes(Initial(here), past, from, f, roid)
      ensures Legal(Initial(here), past) ==> writes <= 1 + Sets(past, from, roid)
    {
      writes := 0;
      var next: Option<Status> := None;
      var i := 1;
      while next.None?
        invariant Valid() && old(past) <= past && RunsAs(past, from, f, Getting(roid, Purpose.Unload))
        invariant next.None? ==> AboutToWrite(f, roid)
        invariant next.None? ==> writes <= Changes(Initial(here), past, from, f, roid)
        invariant next.Some? ==> Answered(Initial(here), past, f, next.value)
        invariant next.Some? ==> writes <= 1 + Changes(Initial(here), past, from, f, roid)
        decreases next.None?, |gaps| - i
      {
        next := UnloadOnce(f, roid, Gap(gaps, i), Gap(gaps, i + 1), from);
        writes := writes + 1;
        i := i + 2;
      }
      status := next.value;
      if Legal(Initial(here), past) {
        ChangesAreSets(here, past, from, f, roid, status);
      }
    }

    // ----- The save tick -----

    /** The next role of the bucket; `done` are those that the tick, which began at position `from`, has visited. */
    method VisitNext(f: nat, roid: int, others1: seq<Event>, others2: seq<Event>, ghost from: nat, ghost done: seq<int>)
      requires Valid() && f !in fibers && from <= |past|
      requires Started(past, from, f) == done && AllCompleted(Initial(here), past, from, f, done)
      modifies this
      ensures Valid() && old(past) <= past && f !in fibers
      ensures Started(past, from, f) == done + [roid]
      ensures AllCompleted(Initial(here), past, from, f, done + [roid])
    {
      ghost var before := past;
      var status := Persist(f, roid, Save, others1, others2);
      StartedOnce(before, past, from, f, Getting(roid, Save));
      OneMoreCompleted(Initial(here), before, past, from, f, done, roid, status);
    }

    /** Plans if needed, pops one bucket and visits its roles one after the other. `order` enumerates
        `role_records`; `gaps` is what others do at the yields. */
    method SaveTick(f: nat, order: seq<int>, gaps: seq<seq<Event>>) returns (visited: seq<int>)
      requires Valid() && f !in fibers
      requires forall r :: r in order <==> r in roleRecords
      modifies this, scheduler
      ensures Valid() && old(past) <= past && f !in fibers
      ensures var plan := Filled(old(scheduler.saveBuckets), Layout(order));
        scheduler.saveBuckets == plan[..|plan| - 1]
        && |visited| == |plan[|plan| - 1]|
        && forall k :: 0 <= k < |visited| ==> visited[k] == plan[|plan| - 1][|visited| - 1 - k]
      ensures Started(past, |old(past)|, f) == visited
      ensures AllCompleted(Initial(here), past, |old(past)|, f, visited)
    {
      visited := scheduler.Tick(order);
      for k := 0 to |visited|
        modifies this
        invariant Valid() && old(past) <= past && f !in fibers
        invariant Started(past, |old(past)|, f) == visited[..k]
        invariant AllCompleted(Initial(here), past, |old(past)|, f, visited[..k])
      {
        VisitNext(f, visited[k], Gap(gaps, 2 * k), Gap(gaps, 2 * k + 1), |old(past)|, visited[..k]);
        assert visited[..k] + [visited[k]] == visited[..k + 1];
      }
      assert visited[..|visited|] == visited;
    }
  }

  // ----- Disciplined runs -----

  lemma {:induction false} LegalSplits(s: Store, es: seq<Event>, e: Event)
    requires Legal(s, es + [e])
    ensures Legal(s, es) && Enabled(Run(s, es), e) && UnloadAlone(Run(s, es), e)
    ensures Run(s, es + [e]) == Step(Run(s, es), e)
    decreases |es|
  {
    if es == [] {
      assert Legal(Step(s, e), []);
    } else {
      assert (es + [e])[1..] == es[1..] + [e];
      LegalSplits(Step(s, es[0]), es[1..], e);
    }
  }

  /** A run that keeps the discipline is a possible one, with the same end. */
  lemma {:induction false} LegalIsPossible(s: Store, es: seq<Event>)
    requires Legal(s, es)
    ensures Possible(s, es) && After(s, es) == Run(s, es)
    decreases |es|
  {
    if es != [] {
      var before := es[..|es| - 1];
      assert before + [es[|es| - 1]] == es;
      LegalSplits(s, before, es[|es| - 1]);
      LegalIsPossible(s, before);
    }
  }

  /** Whenever an unload answers "gs_ok" in a disciplined run, the key is gone and MySQL holds exactly the
      value that Redis held at the instant of deletion. */
  lemma AnsweredUnloadLosesNothing(here: Home, es: seq<Event>, f: nat, roid: int)
    requires Legal(Initial(here), es) && Answered(Initial(here), es, f, GsOk)
    requires var before := es[..|es| - 1];
      f in After(Initial(here), before).fibers && After(Initial(here), before).fibers[f].UnloadDeleting?
      && After(Initial(here), before).fibers[f].roid == roid
    ensures var before, s := After(Initial(here), es[..|es| - 1]), Run(Initial(here), es);
      && roid in before.redis && roid !in s.redis
      && roid in s.mysql && s.mysql[roid] == before.redis[roid].record.row
      && Logical(s) == Logical(before)
  {
    var before, e := es[..|es| - 1], es[|es| - 1];
    assert before + [e] == es;
    LegalSplits(Initial(here), before, e);
    LegalIsPossible(Initial(here), before);
    RunRefines(Initial(here), before);
    UnloadLosesNothing(Run(Initial(here), before), f, e.spelling);
    StepRefines(Run(Initial(here), before), e);
  }

  /** While an unload of `roid` is under way in a disciplined run, only a logic server's SET changes the key. */
  lemma OnlySetsInterfere(s: Store, e: Event, f: nat, roid: int)
    requires Inv(s) && Enabled(s, e) && UnloadAlone(s, e) && !Concerns(e, f)
    requires f in s.fibers && s.fibers[f].roid == roid && s.fibers[f].IsUnload()
    ensures Lookup(Step(s, e).redis, roid) != Lookup(s.redis, roid) ==> e.LogicSet? && e.roid == roid
  {
    if e.Go? {
      assert FiberAgrees(s.fibers[e.f]);
    }
  }

  /** The SETs of `roid` from position `from` on. */
  ghost function Sets(es: seq<Event>, from: nat, roid: int): nat
    decreases |es|
  {
    if |es| <= from then 0 else
    var e := es[|es| - 1];
    Sets(es[..|es| - 1], from, roid) + if e.LogicSet? && e.roid == roid then 1 else 0
  }

  /** Fiber f is still at its unload of `roid`. */
  ghost predicate Unloading(s: Store, f: nat, roid: int) {
    f in s.fibers && s.fibers[f].roid == roid && s.fibers[f].IsUnload()
  }

  lemma ResumedUnload(s: Store, f: nat, roid: int, spelling: nat)
    requires Unloading(s, f, roid)
    ensures f in Step(s, Go(f, spelling)).fibers ==> Unloading(Step(s, Go(f, spelling)), f, roid)
  {
  }

  /** The events before the last one of an unload in a disciplined run. */
  lemma OneEventBack(here: Home, es: seq<Event>, from: nat, f: nat, roid: int)
    requires Legal(Initial(here), es) && from + 1 < |es| && RunsAs(es, from, f, Getting(roid, Purpose.Unload))
    ensures var before, e := es[..|es| - 1], es[|es| - 1];
      && Legal(Initial(here), before) && RunsAs(before, from, f, Getting(roid, Purpose.Unload))
      && Inv(Run(Initial(here), before)) && Enabled(Run(Initial(here), before), e)
      && UnloadAlone(Run(Initial(here), before), e)
      && Possible(Initial(here), before) && After(Initial(here), before) == Run(Initial(here), before)
      && Possible(Initial(here), es) && After(Initial(here), es) == Step(After(Initial(here), before), e)
  {
    var before := es[..|es| - 1];
    assert before + [es[|es| - 1]] == es;
    LegalSplits(Initial(here), before, es[|es| - 1]);
    LegalIsPossible(Initial(here), before);
    RunRefines(Initial(here), before);
    LegalIsPossible(Initial(here), es);
  }

  lemma FirstEventOfUnload(here: Home, es: seq<Event>, from: nat, f: nat, roid: int)
    requires Legal(Initial(here), es) && from + 1 == |es| && es[from] == Start(f, Getting(roid, Purpose.Unload))
    ensures Possible(Initial(here), es) && Changes(Initial(here), es, from, f, roid) == 0
    ensures Unloading(After(Initial(here), es), f, roid)
  {
    LegalIsPossible(Initial(here), es);
    assert Changes(Initial(here), es[..from], from, f, roid) == 0;
  }

  lemma OthersStartNothing(s: Store, e: Event, f: nat)
    requires Enabled(s, e) && !Concerns(e, f) && f in Step(s, e).fibers
    ensures f in s.fibers
  {
  }

  lemma {:induction false} ChangesWhileUnloading(here: Home, es: seq<Event>, from: nat, f: nat, roid: int)
    requires Legal(Initial(here), es) && RunsAs(es, from, f, Getting(roid, Purpose.Unload))
    ensures Possible(Initial(here), es)
    ensures f in After(Initial(here), es).fibers ==>
      Unloading(After(Initial(here), es), f, roid) && Changes(Initial(here), es, from, f, roid) <= Sets(es, from, roid)
    decreases |es|
  {
    if |es| == from + 1 {
      FirstEventOfUnload(here, es, from, f, roid);
    } else {
      var before, e := es[..|es| - 1], es[|es| - 1];
      OneEventBack(here, es, from, f, roid);
      ChangesWhileUnloading(here, before, from, f, roid);
      var s := After(Initial(here), before);
      if f in Step(s, e).fibers {
        if Concerns(e, f) {
          ResumedUnload(s, f, roid, e.spelling);
        } else {
          OthersStartNothing(s, e, f);
          WaitingFiberStays(s, e, f);
          OnlySetsInterfere(s, e, f, roid);
        }
      }
    }
  }

  /** In a disciplined run, others change the value during an unload no more often than it is SET. */
  lemma ChangesAreSets(here: Home, es: seq<Event>, from: nat, f: nat, roid: int, status: Status)
    requires Legal(Initial(here), es) && RunsAs(es, from, f, Getting(roid, Purpose.Unload))
    requires Answered(Initial(here), es, f, status)
    ensures Changes(Initial(here), es, from, f, roid) <= Sets(es, from, roid)
  {
    if |es| > from + 1 {
      OneEventBack(here, es, from, f, roid);
      ChangesWhileUnloading(here, es[..|es| - 1], from, f, roid);
    }
  }

  /** The roles that fiber f turns to, from position `from` on. */
  ghost function Started(es: seq<Event>, from: nat, f: nat): seq<int>
    decreases |es|
  {
    if |es| <= from then [] else
    var e := es[|es| - 1];
    Started(es[..|es| - 1], from, f) + if e.Start? && e.f == f then [e.fiber.roid] else []
  }

  lemma {:induction false} StartedOnce(before: seq<Event>, es: seq<Event>, from: nat, f: nat, first: Fiber)
    requires before <= es && from <= |before| && RunsAs(es, |before|, f, first)
    ensures Started(es, from, f) == Started(before, from, f) + [first.roid]
    decreases |es|
  {
    if |es| == |before| + 1 {
      assert es[..|before|] == before;
    } else {
      StartedOnce(before, es[..|es| - 1], from, f, first);
    }
  }

  function Gap(gaps: seq<seq<Event>>, i: nat): seq<Event> {
    if i < |gaps| then gaps[i] else []
  }

  // ----- What a save tick brings to MySQL -----

  /** The fiber of a save visit waits for its GET or its UPDATE. */
  lemma {:induction false} FiberOfVisit(s: Store, es: seq<Event>, n: nat, f: nat, roid: int)
    requires Possible(s, es) && RunsAs(es, n, f, Getting(roid, Save)) && f in After(s, es).fibers
    ensures var fiber := After(s, es).fibers[f]; fiber.roid == roid && (fiber.Getting? || fiber.Persisting?)
    ensures After(s, es).fibers[f].Getting? ==> After(s, es).fibers[f].purpose == Save
    decreases |es|
  {
    if |es| > n + 1 {
      var past, e := es[..|es| - 1], es[|es| - 1];
      if !Concerns(e, f) {
        OthersStartNothing(After(s, past), e, f);
        WaitingFiberStays(After(s, past), e, f);
      }
      FiberOfVisit(s, past, n, f, roid);
    }
  }

  lemma VisitIsSaved(here: Home, visit: seq<Event>, n: nat, f: nat, roid: int)
    requires Legal(Initial(here), visit) && RunsAs(visit, n, f, Getting(roid, Save))
    requires Answered(Initial(here), visit, f, GsOk) || Answered(Initial(here), visit, f, GsRoleNotLoaded)
    ensures PersistedRows.Ended(Initial(here), visit, n, f, roid, Save)
  {
    var before := visit[..|visit| - 1];
    TrackedKeys.LegalPrefix(Initial(here), visit, |visit| - 1);
    LegalIsPossible(Initial(here), before);
    assert |visit| > n + 1;
    FiberOfVisit(Initial(here), before, n, f, roid);
    assert PersistedRows.Persisting(visit, n, f, roid, Save);
  }

  /** In a disciplined run the visits of a save tick are the ones that bring a role to MySQL. */
  lemma CompletedIsSaved(here: Home, es: seq<Event>, a: nat, b: nat, f: nat, roid: int)
    requires Legal(Initial(here), es) && Completed(Initial(here), es, a, b, f, roid)
    ensures PersistedRows.Saved(Initial(here), es, a, b, roid)
  {
    var n: nat, j: nat :| a <= n < j <= b && CompletedBy(Initial(here), es, n, j, f, roid);
    TrackedKeys.LegalPrefix(Initial(here), es, j);
    VisitIsSaved(here, es[..j], n, f, roid);
    assert PersistedRows.SavedBy(Initial(here), es, n, f, j, roid);
  }
}
