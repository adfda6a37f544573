/** The two-tier role store: Redis over MySQL, as the monitor's handlers and the logic server's SET see it.

    A handler is a fiber that waits for one database command at a time. `Resume` lets that command take
    effect and runs the fiber up to its next command; `Step` interleaves all fibers in any order. */
module RoleStore {
  import opened Options

  // ----- Data -----

  datatype Home = Home(host: string, db: string, zone: int)

  /** What MySQL keeps of a role. */
  datatype Row = Row(
    username: string,
    nickname: string,
    updateTime: int,
    avatar: string,
    profile: string,
    whole: string)

  datatype Record = Record(roid: int, row: Row, home: Home)

  /** A string in Redis: the record it parses to, and which of its possible spellings it is. */
  datatype Text = Text(record: Record, spelling: nat)

  datatype Purpose = Flush | Save | Unload

  /** What a suspended handler waits for. */
  datatype Fiber =
    | Inserting(roid: int, row: Row)                       // create: INSERT IGNORE
    | Reselecting(roid: int, username: string)             // create: SELECT of an existing role
    | Selecting(roid: int)                                 // load: SELECT
    | StoringNx(roid: int, record: Record)                 // create and load: SET NX GET
    | Getting(roid: int, purpose: Purpose)                 // flush, save visit, unload: GET
    | Persisting(roid: int, record: Record)                // flush, save visit: UPDATE
    | UnloadWriting(roid: int, text: Text)                 // unload: UPDATE
    | UnloadDeleting(roid: int, text: Text)                // unload: compare and delete
  {
    predicate IsUnload() {
      (Getting? && purpose == Unload) || UnloadWriting? || UnloadDeleting?
    }

    predicate IsPersist() {
      Getting? || Persisting? || IsUnload()
    }
  }

  datatype Status = GsOk | GsRoidConflict | GsRoidNotFound | GsRoleNotLoaded | GsRoleForeign

  /** `here` is this monitor's own home; `tracked` is `role_records`. */
  datatype Store = Store(
    here: Home,
    redis: map<int, Text>,
    mysql: map<int, Row>,
    tracked: map<int, Record>,
    fibers: map<nat, Fiber>)

  function Initial(here: Home): Store {
    Store(here, map[], map[], map[], map[])
  }

  function FreshRow(username: string, nickname: string, now: int): Row {
    Row(username, nickname, now, "", "", "")
  }

  predicate Foreign(record: Record, here: Home) {
    record.home.host != here.host || record.home.db != here.db
  }

  // ----- Code between yields -----

  function Then(s: Store, f: nat, fiber: Fiber): Store {
    s.(fibers := s.fibers[f := fiber])
  }

  function Finish(s: Store, f: nat): Store {
    s.(fibers := s.fibers - {f})
  }

  /** UPDATE ... WHERE roid = ... */
  function Update(mysql: map<int, Row>, record: Record): map<int, Row> {
    if record.roid in mysql then mysql[record.roid := record.row] else mysql
  }

  /** After the unload's GET or failed compare-and-delete returned `text`. */
  function UnloadRound(s: Store, f: nat, roid: int, text: Text): Store {
    if Foreign(text.record, s.here) then Finish(s, f) else Then(s, f, UnloadWriting(roid, text))
  }

  /** `spelling` picks the string that a record is serialised to. */
  function Resume(s: Store, f: nat, spelling: nat): Store
    requires f in s.fibers
  {
    match s.fibers[f]
    case Inserting(roid, row) =>
      if roid in s.mysql then Then(s, f, Reselecting(roid, row.username))
      else Then(s.(mysql := s.mysql[roid := row]), f, StoringNx(roid, Record(roid, row, s.here)))
    case Reselecting(roid, username) =>
      if roid !in s.mysql || s.mysql[roid].username != username then Finish(s, f)
      else Then(s, f, StoringNx(roid, Record(roid, s.mysql[roid], s.here)))
    case Selecting(roid) =>
      if roid !in s.mysql then Finish(s, f)
      else Then(s, f, StoringNx(roid, Record(roid, s.mysql[roid], s.here)))
    case StoringNx(roid, record) =>
      var present := record.roid in s.redis;
      var winner := if present then s.redis[record.roid].record else record;
      Finish(s, f).(
        redis := if present then s.redis else s.redis[record.roid := Text(record, spelling)],
        tracked := s.tracked[winner.roid := winner])
    case Getting(roid, purpose) =>
      if roid !in s.redis then Finish(s, f).(tracked := s.tracked - {roid}) else
      var text := s.redis[roid];
      if purpose == Unload then UnloadRound(s, f, roid, text)
      else if purpose == Flush && Foreign(text.record, s.here) then Finish(s, f)
      else Then(s, f, Persisting(roid, text.record)).(tracked := s.tracked[text.record.roid := text.record])
    case Persisting(_, record) =>
      Finish(s, f).(mysql := Update(s.mysql, record))
    case UnloadWriting(roid, text) =>
      Then(s, f, UnloadDeleting(roid, text)).(mysql := Update(s.mysql, text.record))
    case UnloadDeleting(roid, text) =>
      var key := text.record.roid;
      if key in s.redis && s.redis[key] != text then UnloadRound(s, f, roid, s.redis[key])
      else Finish(s, f).(redis := s.redis - {key}, tracked := s.tracked - {roid})
  }

  /** The status with which the handler answers, if resuming it ends it. */
  function Answer(s: Store, f: nat): Option<Status>
    requires f in s.fibers
  {
    match s.fibers[f]
    case Inserting(_, _) => None
    case Reselecting(roid, username) =>
      if roid !in s.mysql || s.mysql[roid].username != username then Some(GsRoidConflict) else None
    case Selecting(roid) => if roid !in s.mysql then Some(GsRoidNotFound) else None
    case StoringNx(_, _) => Some(GsOk)
    case Getting(roid, purpose) =>
      if roid !in s.redis then Some(GsRoleNotLoaded)
      else if purpose != Save && Foreign(s.redis[roid].record, s.here) then Some(GsRoleForeign)
      else None
    case Persisting(_, _) => Some(GsOk)
    case UnloadWriting(_, _) => None
    case UnloadDeleting(_, text) =>
      var key := text.record.roid;
      if key !in s.redis || s.redis[key] == text then Some(GsOk)
      else if Foreign(s.redis[key].record, s.here) then Some(GsRoleForeign)
      else None
  }

  // ----- Interleavings -----

  datatype Event =
    | Start(f: nat, fiber: Fiber)          // a request arrives, or the save tick turns to a role
    | Go(f: nat, spelling: nat)            // a command takes effect
    | Abort(f: nat)                        // an exception ends a handler
    | LogicSet(roid: int, text: Text)      // a logic server stores a role

  predicate FirstCommand(fiber: Fiber) {
    || (fiber.Inserting? && fiber.row == FreshRow(fiber.row.username, fiber.row.nickname, fiber.row.updateTime))
    || fiber.Selecting? || fiber.Getting?
  }

  /** A logic server only stores roles that exist, under their own ID. */
  predicate Enabled(s: Store, e: Event) {
    match e
    case Start(f, fiber) => f !in s.fibers && FirstCommand(fiber)
    case Go(f, _) => f in s.fibers
    case Abort(f) => f in s.fibers
    case LogicSet(roid, text) => roid in s.mysql && text.record.roid == roid
  }

  function Step(s: Store, e: Event): Store
    requires Enabled(s, e)
  {
    match e
    case Start(f, fiber) => Then(s, f, fiber)
    case Go(f, spelling) => Resume(s, f, spelling)
    case Abort(f) => Finish(s, f)
    case LogicSet(roid, text) => s.(redis := s.redis[roid := text])
  }

  /** An unload of a role overlaps no other handler of that role. */
  predicate UnloadAlone(s: Store, e: Event) {
    e.Start? ==> forall g :: g in s.fibers && s.fibers[g].roid == e.fiber.roid ==>
      !e.fiber.IsUnload() && !s.fibers[g].IsUnload()
  }

  // ----- The one map that the two tiers stand for -----

  function Logical(s: Store): map<int, Row> {
    map r | r in s.mysql :: if r in s.redis then s.redis[r].record.row else s.mysql[r]
  }

  /** What a step means for that map: only a first create and a logic server's SET change it. */
  function LogicalStep(s: Store, e: Event): map<int, Row>
    requires Enabled(s, e)
  {
    match e
    case Go(f, _) =>
      if s.fibers[f].Inserting? && s.fibers[f].roid !in Logical(s)
      then Logical(s)[s.fibers[f].roid := s.fibers[f].row]
      else Logical(s)
    case LogicSet(roid, text) => Logical(s)[roid := text.record.row]
    case _ => Logical(s)
  }

  // ----- Invariants -----

  /** The record under key k is that of role k, in both tiers, in `role_records` and in every fiber. */
  ghost predicate KeysAgree(s: Store) {
    && (forall k :: k in s.redis ==> s.redis[k].record.roid == k)
    && (forall k :: k in s.tracked ==> s.tracked[k].roid == k)
    && (forall f :: f in s.fibers ==> FiberAgrees(s.fibers[f]))
  }

  predicate FiberAgrees(fiber: Fiber) {
    && (fiber.StoringNx? || fiber.Persisting? ==> fiber.record.roid == fiber.roid)
    && (fiber.UnloadWriting? || fiber.UnloadDeleting? ==> fiber.text.record.roid == fiber.roid)
  }

  /** What a suspended fiber may rely on. */
  predicate FiberOk(s: Store, fiber: Fiber) {
    match fiber
    case StoringNx(roid, record) => roid in s.mysql && (roid !in s.redis ==> s.mysql[roid] == record.row)
    case Persisting(roid, _) => roid in s.redis
    case UnloadWriting(roid, _) => roid in s.redis
    case UnloadDeleting(roid, text) => roid in s.redis && roid in s.mysql && s.mysql[roid] == text.record.row
    case _ => true
  }

  ghost predicate UnloadsAlone(s: Store) {
    forall f, g :: f in s.fibers && g in s.fibers && s.fibers[f].IsUnload() && s.fibers[f].roid == s.fibers[g].roid
      ==> f == g
  }

  ghost predicate Inv(s: Store) {
    && KeysAgree(s)
    && s.redis.Keys <= s.mysql.Keys
    && UnloadsAlone(s)
    && forall f :: f in s.fibers ==> FiberOk(s, s.fibers[f])
  }

  /** A state any interleaving can reach, overlapping or not: keys agree and MySQL knows every role. */
  ghost predicate WellKeyed(s: Store) {
    KeysAgree(s) && s.redis.Keys <= s.mysql.Keys
      && forall f :: f in s.fibers && s.fibers[f].StoringNx? ==> s.fibers[f].roid in s.mysql
  }

  /** Resuming a fiber leaves the others alone. */
  lemma OthersStay(s: Store, f: nat, spelling: nat, g: nat)
    requires f in s.fibers && g != f
    ensures var t := Resume(s, f, spelling);
      (g in t.fibers <==> g in s.fibers) && (g in s.fibers ==> t.fibers[g] == s.fibers[g])
  {
    if s.fibers[f].IsUnload() {
      OthersStayInUnload(s, f, spelling, g);
    }
  }

  lemma OthersStayInUnload(s: Store, f: nat, spelling: nat, g: nat)
    requires f in s.fibers && g != f && s.fibers[f].IsUnload()
    ensures var t := Resume(s, f, spelling);
      (g in t.fibers <==> g in s.fibers) && (g in s.fibers ==> t.fibers[g] == s.fibers[g])
  {
  }

  lemma AllOthersStay(s: Store, f: nat, spelling: nat)
    requires f in s.fibers
    ensures forall g :: g != f && g in Resume(s, f, spelling).fibers ==>
      g in s.fibers && Resume(s, f, spelling).fibers[g] == s.fibers[g]
  {
    forall g | g != f && g in Resume(s, f, spelling).fibers
      ensures g in s.fibers && Resume(s, f, spelling).fibers[g] == s.fibers[g]
    {
      OthersStay(s, f, spelling, g);
    }
  }

  lemma ResumedFiberAgrees(s: Store, f: nat, spelling: nat)
    requires WellKeyed(s) && f in s.fibers
    ensures var t := Resume(s, f, spelling);
      f in t.fibers ==> FiberAgrees(t.fibers[f]) && (t.fibers[f].StoringNx? ==> t.fibers[f].roid in t.mysql)
  {
    assert FiberAgrees(s.fibers[f]);
  }

  lemma ResumedTiersAgree(s: Store, f: nat, spelling: nat)
    requires WellKeyed(s) && f in s.fibers
    ensures var t := Resume(s, f, spelling);
      && (forall k :: k in t.redis ==> t.redis[k].record.roid == k)
      && t.redis.Keys <= t.mysql.Keys && s.mysql.Keys <= t.mysql.Keys
  {
    assert FiberAgrees(s.fibers[f]);
  }

  lemma ResumedTableAgrees(s: Store, f: nat, spelling: nat)
    requires WellKeyed(s) && f in s.fibers
    ensures var t := Resume(s, f, spelling);
      && (forall k :: k in t.tracked ==> t.tracked[k].roid == k)
      && (forall g :: g in t.fibers && g != f ==> g in s.fibers && t.fibers[g] == s.fibers[g])
  {
    assert FiberAgrees(s.fibers[f]);
  }

  lemma StillWellKeyed(s: Store, t: Store, f: nat)
    requires WellKeyed(s) && s.mysql.Keys <= t.mysql.Keys && t.redis.Keys <= t.mysql.Keys
    requires forall k :: k in t.redis ==> t.redis[k].record.roid == k
    requires forall k :: k in t.tracked ==> t.tracked[k].roid == k
    requires forall g :: g in t.fibers && g != f ==> g in s.fibers && t.fibers[g] == s.fibers[g]
    requires f in t.fibers ==> FiberAgrees(t.fibers[f]) && (t.fibers[f].StoringNx? ==> t.fibers[f].roid in t.mysql)
    ensures WellKeyed(t)
  {
    forall g | g in t.fibers && g != f && t.fibers[g].StoringNx? ensures t.fibers[g].roid in t.mysql {
      assert s.fibers[g].roid in s.mysql.Keys;
    }
  }

  lemma ResumeKeepsWellKeyed(s: Store, f: nat, spelling: nat)
    requires WellKeyed(s) && f in s.fibers
    ensures WellKeyed(Resume(s, f, spelling))
  {
    ResumedFiberAgrees(s, f, spelling);
    ResumedTiersAgree(s, f, spelling);
    ResumedTableAgrees(s, f, spelling);
    StillWellKeyed(s, Resume(s, f, spelling), f);
  }

  lemma StepKeepsWellKeyed(s: Store, e: Event)
    requires WellKeyed(s) && Enabled(s, e)
    ensures WellKeyed(Step(s, e))
  {
    if e.Go? {
      ResumeKeepsWellKeyed(s, e.f, e.spelling);
    }
  }

  /** Only fiber f moves on, for the same role. */
  ghost predicate OnlyMoves(s: Store, t: Store, f: nat) {
    && t.here == s.here
    && (forall g :: g in t.fibers && g != f ==> g in s.fibers && t.fibers[g] == s.fibers[g])
    && (f in t.fibers && f in s.fibers ==>
         t.fibers[f].roid == s.fibers[f].roid && (t.fibers[f].IsUnload() ==> s.fibers[f].IsUnload()))
  }

  /** Steps that touch neither tier. */
  lemma ReadKeepsInv(s: Store, t: Store, f: nat)
    requires Inv(s) && KeysAgree(t) && OnlyMoves(s, t, f) && f in s.fibers
    requires t.redis == s.redis && t.mysql == s.mysql
    requires f in t.fibers ==> FiberOk(t, t.fibers[f])
    ensures Inv(t) && Logical(t) == Logical(s)
  {
    forall g | g in t.fibers ensures FiberOk(t, t.fibers[g]) {
      assert g != f ==> FiberOk(s, s.fibers[g]);
    }
  }

  lemma InsertKeepsInv(s: Store, f: nat)
    requires Inv(s) && f in s.fibers && s.fibers[f].Inserting? && s.fibers[f].roid !in s.mysql
    ensures Inv(Resume(s, f, 0))
    ensures Logical(Resume(s, f, 0)) == Logical(s)[s.fibers[f].roid := s.fibers[f].row]
  {
    var t := Resume(s, f, 0);
    assert OnlyMoves(s, t, f);
    forall g | g in t.fibers ensures FiberOk(t, t.fibers[g]) {
      assert g != f ==> FiberOk(s, s.fibers[g]);
    }
  }

  lemma StoreNxKeepsInv(s: Store, f: nat, spelling: nat)
    requires Inv(s) && f in s.fibers && s.fibers[f].StoringNx?
    ensures Inv(Resume(s, f, spelling)) && Logical(Resume(s, f, spelling)) == Logical(s)
  {
    var t := Resume(s, f, spelling);
    assert OnlyMoves(s, t, f) && FiberOk(s, s.fibers[f]);
    forall g | g in t.fibers ensures FiberOk(t, t.fibers[g]) {
      assert g in s.fibers && FiberOk(s, s.fibers[g]);
    }
  }

  /** An UPDATE goes unnoticed as long as Redis has the key. */
  lemma UpdateKeepsInv(s: Store, t: Store, f: nat, record: Record)
    requires Inv(s) && KeysAgree(t) && OnlyMoves(s, t, f) && f in s.fibers && s.fibers[f].roid == record.roid
    requires record.roid in s.redis && (s.fibers[f].IsUnload() || f !in t.fibers)
    requires t.redis == s.redis && t.mysql == s.mysql[record.roid := record.row]
    requires f in t.fibers ==> FiberOk(t, t.fibers[f])
    ensures Inv(t) && Logical(t) == Logical(s)
  {
    forall g | g in t.fibers ensures FiberOk(t, t.fibers[g]) {
      if g != f {
        assert FiberOk(s, s.fibers[g]);
      }
    }
  }

  lemma PersistKeepsInv(s: Store, f: nat, spelling: nat)
    requires Inv(s) && f in s.fibers && (s.fibers[f].Persisting? || s.fibers[f].UnloadWriting?)
    ensures Inv(Resume(s, f, spelling)) && Logical(Resume(s, f, spelling)) == Logical(s)
  {
    var fiber, t := s.fibers[f], Resume(s, f, spelling);
    assert FiberOk(s, fiber) && FiberAgrees(fiber);
    var record := if fiber.Persisting? then fiber.record else fiber.text.record;
    assert record.roid in s.redis.Keys;
    UpdateKeepsInv(s, t, f, record);
  }

  /** Compare and delete: either nothing happens, or the row in MySQL already is what Redis gives up. */
  lemma DeleteKeepsInv(s: Store, f: nat, spelling: nat)
    requires Inv(s) && f in s.fibers && s.fibers[f].UnloadDeleting?
    ensures Inv(Resume(s, f, spelling)) && Logical(Resume(s, f, spelling)) == Logical(s)
  {
    var fiber, t := s.fibers[f], Resume(s, f, spelling);
    assert FiberOk(s, fiber) && FiberAgrees(fiber);
    if s.redis[fiber.roid] != fiber.text {
      ReadKeepsInv(s, t, f);
    } else {
      assert OnlyMoves(s, t, f);
      forall g | g in t.fibers ensures FiberOk(t, t.fibers[g]) {
        assert FiberOk(s, s.fibers[g]) && s.fibers[g].roid != fiber.roid;
      }
    }
  }

  lemma ReadsKeepInv(s: Store, f: nat, spelling: nat)
    requires Inv(s) && f in s.fibers
    requires s.fibers[f].Reselecting? || s.fibers[f].Selecting? || s.fibers[f].Getting?
      || (s.fibers[f].Inserting? && s.fibers[f].roid in s.mysql)
    ensures Inv(Resume(s, f, spelling)) && Logical(Resume(s, f, spelling)) == Logical(s)
  {
    InvIsWellKeyed(s);
    ResumeKeepsWellKeyed(s, f, spelling);
    ReadMovesOn(s, f, spelling);
    ReadKeepsInv(s, Resume(s, f, spelling), f);
  }

  lemma InvIsWellKeyed(s: Store)
    requires Inv(s)
    ensures WellKeyed(s)
  {
    forall f | f in s.fibers && s.fibers[f].StoringNx? ensures s.fibers[f].roid in s.mysql {
      assert FiberOk(s, s.fibers[f]);
    }
  }

  lemma ReadMovesOn(s: Store, f: nat, spelling: nat)
    requires WellKeyed(s) && f in s.fibers
    requires s.fibers[f].Reselecting? || s.fibers[f].Selecting? || s.fibers[f].Getting?
      || (s.fibers[f].Inserting? && s.fibers[f].roid in s.mysql)
    ensures var t := Resume(s, f, spelling);
      && t.redis == s.redis && t.mysql == s.mysql && OnlyMoves(s, t, f)
      && (f in t.fibers ==> FiberOk(t, t.fibers[f]))
  {
    AllOthersStay(s, f, spelling);
  }

  lemma GoKeepsInv(s: Store, f: nat, spelling: nat)
    requires Inv(s) && f in s.fibers
    ensures Inv(Resume(s, f, spelling)) && Logical(Resume(s, f, spelling)) == LogicalStep(s, Go(f, spelling))
  {
    match s.fibers[f] {
      case Inserting(roid, _) =>
        if roid in s.mysql {
          ReadsKeepInv(s, f, spelling);
        } else {
          InsertKeepsInv(s, f);
        }
      case StoringNx(_, _) => StoreNxKeepsInv(s, f, spelling);
      case Persisting(_, _) => PersistKeepsInv(s, f, spelling);
      case UnloadWriting(_, _) => PersistKeepsInv(s, f, spelling);
      case UnloadDeleting(_, _) => DeleteKeepsInv(s, f, spelling);
      case _ => ReadsKeepInv(s, f, spelling);
    }
  }

  lemma SetKeepsInv(s: Store, roid: int, text: Text)
    requires Inv(s) && Enabled(s, LogicSet(roid, text))
    ensures Inv(Step(s, LogicSet(roid, text)))
    ensures Logical(Step(s, LogicSet(roid, text))) == Logical(s)[roid := text.record.row]
  {
    var t := Step(s, LogicSet(roid, text));
    forall g | g in t.fibers ensures FiberOk(t, t.fibers[g]) {
      assert FiberOk(s, s.fibers[g]);
    }
  }

  /** Refinement, one step: the two tiers change exactly as the one map does. */
  lemma StepRefines(s: Store, e: Event)
    requires Inv(s) && Enabled(s, e) && UnloadAlone(s, e)
    ensures Inv(Step(s, e)) && Logical(Step(s, e)) == LogicalStep(s, e)
  {
    match e {
      case Start(f, fiber) =>
        var t := Step(s, e);
        forall g | g in t.fibers ensures FiberOk(t, t.fibers[g]) {
          assert g != f ==> FiberOk(s, s.fibers[g]);
        }
      case Go(f, spelling) => GoKeepsInv(s, f, spelling);
      case Abort(f) => ReadKeepsInv(s, Step(s, e), f);
      case LogicSet(roid, text) => SetKeepsInv(s, roid, text);
    }
  }

  // ----- Runs -----

  ghost predicate Legal(s: Store, es: seq<Event>)
    decreases |es|
  {
    es == [] || (Enabled(s, es[0]) && UnloadAlone(s, es[0]) && Legal(Step(s, es[0]), es[1..]))
  }

  ghost function Run(s: Store, es: seq<Event>): Store
    requires Legal(s, es)
    decreases |es|
  {
    if es == [] then s else Run(Step(s, es[0]), es[1..])
  }

  /** The write that a step makes to the one map, if any. */
  function Write(s: Store, e: Event): Option<(int, Row)>
    requires Enabled(s, e)
  {
    match e
    case Go(f, _) =>
      if s.fibers[f].Inserting? && s.fibers[f].roid !in s.mysql then Some((s.fibers[f].roid, s.fibers[f].row)) else None
    case LogicSet(roid, text) => Some((roid, text.record.row))
    case _ => None
  }

  /** All writes of a run, in order. */
  ghost function Writes(s: Store, es: seq<Event>): seq<(int, Row)>
    requires Legal(s, es)
    decreases |es|
  {
    if es == [] then [] else
    (match Write(s, es[0]) case Some(w) => [w] case None => []) + Writes(Step(s, es[0]), es[1..])
  }

  ghost function Applied(m: map<int, Row>, ws: seq<(int, Row)>): map<int, Row>
    decreases |ws|
  {
    if ws == [] then m else Applied(m[ws[0].0 := ws[0].1], ws[1..])
  }

  lemma {:induction false} RunRefines(s: Store, es: seq<Event>)
    requires Inv(s) && Legal(s, es)
    ensures Inv(Run(s, es)) && Logical(Run(s, es)) == Applied(Logical(s), Writes(s, es))
    decreases |es|
  {
    if es != [] {
      StepRefines(s, es[0]);
      RunRefines(Step(s, es[0]), es[1..]);
      var rest := Writes(Step(s, es[0]), es[1..]);
      match Write(s, es[0]) {
        case Some(w) => assert ([w] + rest)[1..] == rest;
        case None => assert [] + rest == rest;
      }
    }
  }

  /** Two-tier refinement, over every run: whatever loads, repeated creates, flushes, save visits, unloads
      and aborts interleave, Redis over MySQL is the plain map that results from the first creates and the
      logic servers' SETs alone, as long as an unload of a role overlaps no other handler of that role. */
  lemma TwoTiersRefineOneMap(here: Home, es: seq<Event>)
    requires Legal(Initial(here), es)
    ensures Logical(Run(Initial(here), es)) == Applied(map[], Writes(Initial(here), es))
    ensures KeysAgree(Run(Initial(here), es))
  {
    RunRefines(Initial(here), es);
  }

  /** When an unload answers "gs_ok", MySQL holds the very value that it removes from Redis, and the key is
      gone; if the value has changed meanwhile the unload goes on and nothing is removed. */
  lemma UnloadLosesNothing(s: Store, f: nat, spelling: nat)
    requires Inv(s) && f in s.fibers && s.fibers[f].UnloadDeleting?
    ensures var roid, t := s.fibers[f].roid, Resume(s, f, spelling);
      && roid in s.redis && roid in t.mysql
      && (Answer(s, f) == Some(GsOk) ==> roid !in t.redis && t.mysql[roid] == s.redis[roid].record.row)
      && (Answer(s, f) != Some(GsOk) ==> t.redis == s.redis && s.redis[roid] != s.fibers[f].text)
  {
    assert FiberOk(s, s.fibers[f]) && FiberAgrees(s.fibers[f]);
  }

  // ----- *role/list -----

  /** The avatar that the MGET overlay reports for a selected role. */
  function ListedAvatar(selected: Row, redis: map<int, Text>, roid: int): string {
    if roid in redis then redis[roid].record.row.avatar else selected.avatar
  }

  ghost predicate NoUnload(s: Store, es: seq<Event>, roid: int) {
    && (forall f :: f in s.fibers && s.fibers[f].IsUnload() ==> s.fibers[f].roid != roid)
    && (forall i :: 0 <= i < |es| && es[i].Start? && es[i].fiber.IsUnload() ==> es[i].fiber.roid != roid)
  }

  lemma NoUnloadStep(s: Store, es: seq<Event>, roid: int)
    requires Inv(s) && Legal(s, es) && es != [] && NoUnload(s, es, roid)
    ensures NoUnload(Step(s, es[0]), es[1..], roid)
    ensures roid in s.redis ==> roid in Step(s, es[0]).redis
    ensures roid in s.mysql && roid !in s.redis ==>
      roid in Step(s, es[0]).mysql && Step(s, es[0]).mysql[roid] == s.mysql[roid]
  {
    var e := es[0];
    if e.Go? {
      assert FiberOk(s, s.fibers[e.f]) && FiberAgrees(s.fibers[e.f]);
    }
  }

  /** Between its SELECT in state s and its MGET, `*role/list` may be interleaved with anything except an
      unload of the role; the avatar it reports then is the logical one at the time of the MGET. */
  lemma {:induction false} ListIsCurrent(s: Store, es: seq<Event>, roid: int)
    requires Inv(s) && Legal(s, es) && roid in s.mysql && NoUnload(s, es, roid)
    ensures var t := Run(s, es);
      && (roid in s.redis ==> roid in t.redis)
      && roid in Logical(t) && ListedAvatar(s.mysql[roid], t.redis, roid) == Logical(t)[roid].avatar
    decreases |es|
  {
    if es != [] {
      StepRefines(s, es[0]);
      NoUnloadStep(s, es, roid);
      assert roid in Logical(s);
      ListIsCurrent(Step(s, es[0]), es[1..], roid);
    }
  }
}
