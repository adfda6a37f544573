/** Where records come from, which handlers refuse foreign ones, and what the monitor lists: told by the fields. */
module RoleHomes {
  import opened Options
  import opened RoleStore
  import opened TrackedKeys

  // ----- Home -----

  /** The record's home is this server: host, database and zone. */
  predicate IsHere(record: Record, here: Home) {
    record.home.host == here.host && record.home.db == here.db && record.home.zone == here.zone
  }

  /** Whatever Redis or a handler has of the role has this server as its home. */
  ghost predicate HomeOk(s: Store, r: int) {
    && (r in s.redis ==> IsHere(s.redis[r].record, s.here))
    && forall f :: f in s.fibers && s.fibers[f].roid == r ==> FiberIsHere(s.fibers[f], s.here)
  }

  predicate FiberIsHere(fiber: Fiber, here: Home) {
    && (fiber.StoringNx? || fiber.Persisting? ==> IsHere(fiber.record, here))
    && (fiber.UnloadWriting? || fiber.UnloadDeleting? ==> IsHere(fiber.text.record, here))
  }

  /** A logic server's SET of role r keeps the home that the role was loaded with. */
  predicate KeepsHome(s: Store, e: Event, r: int) {
    e.LogicSet? && e.roid == r ==>
      if r in s.redis then e.text.record.home == s.redis[r].record.home else IsHere(e.text.record, s.here)
  }

  /** What a load or a create puts into Redis has this server as its home, whichever of the three commands has found or
      made the row; and the row is the one in MySQL. */
  lemma LoadedRecordIsHere(s: Store, f: nat, spelling: nat)
    requires f in s.fibers && f in Resume(s, f, spelling).fibers && Resume(s, f, spelling).fibers[f].StoringNx?
    ensures var fiber, t := s.fibers[f], Resume(s, f, spelling);
      var record := t.fibers[f].record;
      && (fiber.Inserting? || fiber.Reselecting? || fiber.Selecting?)
      && record.home.host == s.here.host && record.home.db == s.here.db && record.home.zone == s.here.zone
      && record.roid == fiber.roid && fiber.roid in t.mysql && record.row == t.mysql[fiber.roid]
  {
  }

  lemma OwnStepKeepsHome(s: Store, f: nat, spelling: nat)
    requires WellKeyed(s) && f in s.fibers && HomeOk(s, s.fibers[f].roid)
    ensures HomeOk(Resume(s, f, spelling), s.fibers[f].roid)
  {
    assert FiberAgrees(s.fibers[f]) && FiberIsHere(s.fibers[f], s.here);
    AllOthersStay(s, f, spelling);
  }

  lemma OtherStepKeepsHome(s: Store, f: nat, spelling: nat, r: int)
    requires WellKeyed(s) && f in s.fibers && s.fibers[f].roid != r && HomeOk(s, r)
    ensures HomeOk(Resume(s, f, spelling), r)
  {
    assert FiberAgrees(s.fibers[f]);
    AllOthersStay(s, f, spelling);
    if f in Resume(s, f, spelling).fibers {
      FiberKeepsRole(s, f, spelling);
    }
  }

  lemma FiberKeepsRole(s: Store, f: nat, spelling: nat)
    requires f in s.fibers && f in Resume(s, f, spelling).fibers
    ensures Resume(s, f, spelling).fibers[f].roid == s.fibers[f].roid
  {
  }

  lemma StepKeepsHome(s: Store, e: Event, r: int)
    requires WellKeyed(s) && Enabled(s, e) && HomeOk(s, r) && KeepsHome(s, e, r)
    ensures HomeOk(Step(s, e), r) && Step(s, e).here == s.here
  {
    if e.Go? {
      if s.fibers[e.f].roid == r {
        OwnStepKeepsHome(s, e.f, e.spelling);
      } else {
        OtherStepKeepsHome(s, e.f, e.spelling, r);
      }
    }
  }

  ghost predicate HomesKept(s: Store, es: seq<Event>, r: int)
    requires Legal(s, es)
  {
    forall i :: 0 <= i < |es| ==> KeepsHome(After(s, es, i), es[i], r)
  }

  lemma {:induction false} RunKeepsHome(s: Store, es: seq<Event>, m: nat, r: int)
    requires Legal(s, es) && m <= |es| && WellKeyed(s) && HomeOk(s, r) && HomesKept(s, es, r)
    ensures HomeOk(After(s, es, m), r) && WellKeyed(After(s, es, m)) && After(s, es, m).here == s.here
    decreases m
  {
    AfterIsWellKeyed(s, es, m);
    if m == 0 {
      assert es[..0] == [];
    } else {
      RunKeepsHome(s, es, m - 1, r);
      NextAfter(s, es, m - 1);
      AfterIsWellKeyed(s, es, m - 1);
      StepKeepsHome(After(s, es, m - 1), es[m - 1], r);
    }
  }

  // ----- Answers -----

  /** The record that the handler has just found in Redis, if it looks at its home. */
  function Inspected(s: Store, f: nat): Option<Record>
    requires f in s.fibers
  {
    match s.fibers[f]
    case Getting(roid, purpose) =>
      if roid in s.redis && purpose != Save then Some(s.redis[roid].record) else None
    case UnloadDeleting(_, text) =>
      var key := text.record.roid;
      if key in s.redis && s.redis[key] != text then Some(s.redis[key].record) else None
    case _ => None
  }

  /** A flush or an unload answers "gs_role_foreign" exactly if the record that it finds has another host or another
      database than this server; the zone does not matter. Then it writes and deletes nothing. */
  lemma ForeignIff(s: Store, f: nat, spelling: nat)
    requires f in s.fibers
    ensures Answer(s, f) == Some(GsRoleForeign) <==>
      var record := Inspected(s, f);
      record.Some? && (record.value.home.host != s.here.host || record.value.home.db != s.here.db)
    ensures Answer(s, f) == Some(GsRoleForeign) ==>
      && Resume(s, f, spelling) == s.(fibers := s.fibers - {f})
  {
  }

  /** A handler goes on exactly if it does not answer. */
  lemma AnswersEnd(s: Store, f: nat, spelling: nat)
    requires f in s.fibers
    ensures Answer(s, f).Some? ==> f !in Resume(s, f, spelling).fibers
    ensures Answer(s, f).None? ==> f in Resume(s, f, spelling).fibers
  {
  }

  /** With what status the other handlers end: on the state of the two tiers when their last command takes effect. */
  lemma StatusIff(s: Store, f: nat)
    requires f in s.fibers
    ensures Answer(s, f) == Some(GsRoidNotFound) <==> s.fibers[f].Selecting? && s.fibers[f].roid !in s.mysql
    ensures Answer(s, f) == Some(GsRoleNotLoaded) <==> s.fibers[f].Getting? && s.fibers[f].roid !in s.redis
    ensures Answer(s, f) == Some(GsRoidConflict) <==>
      && s.fibers[f].Reselecting?
      && (s.fibers[f].roid in s.mysql ==> s.mysql[s.fibers[f].roid].username != s.fibers[f].username)
    ensures Answer(s, f) == Some(GsOk) <==>
      || s.fibers[f].StoringNx? || s.fibers[f].Persisting?
      || (s.fibers[f].UnloadDeleting? &&
          var text := s.fibers[f].text; text.record.roid !in s.redis || s.redis[text.record.roid] == text)
  {
  }

  /** Over every run in which logic servers keep the home of a role: if this monitor, or a create through it, has made
      all records of the role that there are, no flush or unload of it ever answers "gs_role_foreign". */
  lemma OwnRolesAreNeverForeign(s: Store, es: seq<Event>, f: nat, r: int)
    requires Legal(s, es) && WellKeyed(s) && HomeOk(s, r) && HomesKept(s, es, r)
    requires f in Run(s, es).fibers && Run(s, es).fibers[f].roid == r
    ensures Answer(Run(s, es), f) != Some(GsRoleForeign)
  {
    RunKeepsHome(s, es, |es|, r);
    assert es[..|es|] == es;
    var t := Run(s, es);
    assert FiberAgrees(t.fibers[f]);
    ForeignIff(t, f, 0);
  }

  // ----- What is listed -----

  /** What each command that concerns `role_records` makes of its entry. */
  lemma ListedAs(s: Store, f: nat, spelling: nat)
    requires WellKeyed(s) && f in s.fibers
    ensures var r, t := s.fibers[f].roid, Resume(s, f, spelling);
      && (forall q :: q != r ==>
            (q in t.tracked <==> q in s.tracked) && (q in s.tracked ==> t.tracked[q] == s.tracked[q]))
      && (s.fibers[f].StoringNx? ==>
           && r in t.tracked && r in t.redis && t.tracked[r] == t.redis[r].record
           && t.redis[r].record == if r in s.redis then s.redis[r].record else s.fibers[f].record)
      && (s.fibers[f].Getting? && r !in s.redis ==> r !in t.tracked)
      && (s.fibers[f].Getting? && r in s.redis && f in t.fibers && t.fibers[f].Persisting? ==>
           r in t.tracked && t.tracked[r] == s.redis[r].record == t.fibers[f].record)
      && (s.fibers[f].UnloadDeleting? && Answer(s, f) == Some(GsOk) ==> r !in t.tracked && r !in t.redis)
  {
    assert FiberAgrees(s.fibers[f]);
  }

  /** The row that a create inserts. */
  lemma InsertedRow(s: Store, f: nat, spelling: nat, username: string, nickname: string, now: int)
    requires f in s.fibers && s.fibers[f].Inserting? && s.fibers[f].roid !in s.mysql
    requires s.fibers[f].row == FreshRow(username, nickname, now)
    ensures var r, t := s.fibers[f].roid, Resume(s, f, spelling);
      && r in t.mysql && t.mysql[r].username == username && t.mysql[r].nickname == nickname
      && t.mysql[r].updateTime == now && t.mysql[r].avatar == t.mysql[r].profile == t.mysql[r].whole == ""
  {
  }
}
