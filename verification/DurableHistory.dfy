/** What MySQL has held over time, compared with what the role was: durable state never goes backwards. */
module DurableHistory {
  import opened Options
  import opened RoleStore

  /** A store together with its past. `history[r]` lists the values role r has had; `durable[r]` lists, as
      positions in that history, the rows MySQL has held; `marks[f]` is the position of the snapshot that
      fiber f is about to write. */
  datatype Traced = Traced(
    store: Store,
    history: map<int, seq<Row>>,
    durable: map<int, seq<nat>>,
    marks: map<nat, nat>)

  function Blank(here: Home): Traced {
    Traced(Initial(here), map[], map[], map[])
  }

  /** The fiber holds a snapshot that an UPDATE will write. */
  predicate Pending(fiber: Fiber) {
    fiber.Persisting? || fiber.UnloadWriting?
  }

  function Snapshot(fiber: Fiber): Record
    requires Pending(fiber)
  {
    if fiber.Persisting? then fiber.record else fiber.text.record
  }

  /** The step, with its trace. Erasing the trace leaves `Step` of `RoleStore`. */
  function TracedStep(t: Traced, e: Event): Traced
    requires Enabled(t.store, e) && Inv(t.store) && Recorded(t)
  {
    var s' := Step(t.store, e);
    match e
    case Go(f, _) =>
      var fiber := t.store.fibers[f];
      var u := t.(store := s',
                  marks := if f in s'.fibers && Pending(s'.fibers[f]) && fiber.roid in t.history
                           then t.marks[f := |t.history[fiber.roid]| - 1] else t.marks);
      if fiber.Inserting? && fiber.roid !in t.store.mysql then
        u.(history := t.history[fiber.roid := [fiber.row]], durable := t.durable[fiber.roid := [0]])
      else if Pending(fiber) then
        u.(durable := t.durable[fiber.roid := t.durable[fiber.roid] + [t.marks[f]]])
      else u
    case LogicSet(roid, text) =>
      t.(store := s', history := t.history[roid := t.history[roid] + [text.record.row]])
    case _ => t.(store := s')
  }

  /** One persist operation - flush, save visit or unload - per role at a time. */
  predicate OnePersist(s: Store, e: Event) {
    e.Start? && e.fiber.IsPersist() ==>
      forall g :: g in s.fibers && s.fibers[g].IsPersist() ==> s.fibers[g].roid != e.fiber.roid
  }

  ghost predicate Persists(s: Store, f: nat) {
    f in s.fibers && s.fibers[f].IsPersist()
  }

  ghost predicate PersistsAlone(s: Store) {
    forall f, g :: Persists(s, f) && Persists(s, g) && s.fibers[f].roid == s.fibers[g].roid ==> f == g
  }

  function Last<T>(xs: seq<T>): T
    requires xs != []
  {
    xs[|xs| - 1]
  }

  ghost predicate NonDecreasing(xs: seq<nat>) {
    forall i, j :: 0 <= i <= j < |xs| ==> xs[i] <= xs[j]
  }

  /** The trace covers the roles there are, and the marks of fibers about to write. */
  ghost predicate Recorded(t: Traced) {
    && t.history.Keys == t.durable.Keys == t.store.mysql.Keys
    && (forall r :: r in t.history ==> t.history[r] != [] && t.durable[r] != [])
    && (forall f :: f in t.store.fibers && Pending(t.store.fibers[f]) ==>
         t.store.fibers[f].roid in t.history && f in t.marks)
  }

  /** The history of one role ends with its logical value, MySQL's row is at the last durable position, and
      the durable positions never decrease. */
  ghost predicate RoleTraced(history: seq<Row>, durable: seq<nat>, logical: Row, row: Row) {
    && history != [] && Last(history) == logical
    && durable != [] && NonDecreasing(durable)
    && Last(durable) < |history| && history[Last(durable)] == row
  }

  /** A snapshot about to be written is a value the role has had, no older than what MySQL holds. */
  ghost predicate MarkOk(history: seq<Row>, durable: seq<nat>, mark: nat, row: Row) {
    durable != [] && Last(durable) <= mark < |history| && history[mark] == row
  }

  ghost predicate RolesOk(t: Traced)
    requires Recorded(t)
  {
    forall r :: r in t.history ==>
      RoleTraced(t.history[r], t.durable[r], Logical(t.store)[r], t.store.mysql[r])
  }

  ghost predicate MarkOf(t: Traced, f: nat)
    requires Recorded(t)
  {
    f in t.store.fibers && Pending(t.store.fibers[f]) ==>
      var r := t.store.fibers[f].roid;
      MarkOk(t.history[r], t.durable[r], t.marks[f], Snapshot(t.store.fibers[f]).row)
  }

  ghost predicate MarksOk(t: Traced)
    requires Recorded(t)
  {
    forall f :: f in t.store.fibers ==> MarkOf(t, f)
  }

  ghost predicate TraceOk(t: Traced) {
    Recorded(t) && RolesOk(t) && MarksOk(t)
  }

  ghost predicate TraceInv(t: Traced) {
    Inv(t.store) && PersistsAlone(t.store) && TraceOk(t)
  }

  /** What a command can do to MySQL. */
  lemma MysqlEffect(s: Store, f: nat, spelling: nat)
    requires Inv(s) && f in s.fibers
    ensures var fiber, s' := s.fibers[f], Resume(s, f, spelling);
      && OnlyMoves(s, s', f)
      && (!Pending(fiber) && !fiber.Inserting? ==> s'.mysql == s.mysql)
      && (Pending(fiber) ==> fiber.roid in s.mysql && s'.mysql == s.mysql[fiber.roid := Snapshot(fiber).row])
  {
    assert FiberOk(s, s.fibers[f]) && FiberAgrees(s.fibers[f]);
    assert s.fibers[f].roid in s.redis ==> s.fibers[f].roid in s.mysql.Keys;
  }

  /** A fiber goes on to an UPDATE with the latest value of its role in hand. */
  lemma SnapshotIsLatest(s: Store, f: nat, spelling: nat)
    requires Inv(s) && f in s.fibers
    ensures var fiber, s' := s.fibers[f], Resume(s, f, spelling);
      && (f in s'.fibers && s'.fibers[f].IsPersist() ==> fiber.IsPersist())
      && (f in s'.fibers && Pending(s'.fibers[f]) ==>
           !Pending(fiber) && fiber.roid in s.mysql && Snapshot(s'.fibers[f]).row == Logical(s)[fiber.roid])
  {
    assert FiberAgrees(s.fibers[f]);
    assert s.fibers[f].roid in s.redis ==> s.fibers[f].roid in s.mysql.Keys;
  }

  lemma GoFacts(s: Store, f: nat, spelling: nat)
    requires Inv(s) && f in s.fibers
    ensures var fiber, s' := s.fibers[f], Resume(s, f, spelling);
      && Inv(s') && Logical(s') == LogicalStep(s, Go(f, spelling)) && OnlyMoves(s, s', f)
      && (!Pending(fiber) && !fiber.Inserting? ==> s'.mysql == s.mysql)
      && (Pending(fiber) ==> fiber.roid in s.mysql && s'.mysql == s.mysql[fiber.roid := Snapshot(fiber).row])
      && (f in s'.fibers && s'.fibers[f].IsPersist() ==> fiber.IsPersist())
      && (f in s'.fibers && Pending(s'.fibers[f]) ==>
           !Pending(fiber) && fiber.roid in s.mysql && Snapshot(s'.fibers[f]).row == Logical(s)[fiber.roid])
  {
    GoKeepsInv(s, f, spelling);
    MysqlEffect(s, f, spelling);
    SnapshotIsLatest(s, f, spelling);
  }

  /** Histories only grow, and only the role of one fiber or SET is concerned. */
  ghost predicate Elsewhere(t: Traced, u: Traced, r: int, f: nat)
    requires Recorded(t) && Recorded(u)
  {
    && (forall q :: q in u.history && q != r ==>
          && q in t.history && u.history[q] == t.history[q] && u.durable[q] == t.durable[q]
          && Logical(u.store)[q] == Logical(t.store)[q] && u.store.mysql[q] == t.store.mysql[q])
    && (forall g :: g in u.store.fibers && g != f && Pending(u.store.fibers[g]) ==>
          g in t.store.fibers && u.store.fibers[g] == t.store.fibers[g] && u.marks[g] == t.marks[g])
  }

  lemma FrameTrace(t: Traced, u: Traced, r: int, f: nat)
    requires TraceOk(t) && Recorded(u) && Elsewhere(t, u, r, f)
    requires r in u.history ==> RoleTraced(u.history[r], u.durable[r], Logical(u.store)[r], u.store.mysql[r])
    requires MarkOf(u, f)
    requires forall g :: g in u.store.fibers && g != f && Pending(u.store.fibers[g]) && u.store.fibers[g].roid == r ==>
      r in t.history && t.history[r] <= u.history[r] && u.durable[r] == t.durable[r]
    ensures TraceOk(u)
  {
    forall g | g in u.store.fibers && g != f && Pending(u.store.fibers[g]) ensures MarkOf(u, g) {
      assert MarkOf(t, g);
    }
  }

  lemma AppendKeepsNonDecreasing(xs: seq<nat>, x: nat)
    requires NonDecreasing(xs) && xs != [] && Last(xs) <= x
    ensures NonDecreasing(xs + [x])
  {
  }

  lemma GoKeepsPersistsAlone(s: Store, f: nat, spelling: nat)
    requires Inv(s) && PersistsAlone(s) && f in s.fibers
    ensures PersistsAlone(Resume(s, f, spelling))
  {
    GoFacts(s, f, spelling);
    var s' := Resume(s, f, spelling);
    forall g | Persists(s', g) ensures Persists(s, g) && s'.fibers[g].roid == s.fibers[g].roid {
    }
  }

  /** A snapshot is written. */
  lemma WriteKeepsTraceInv(t: Traced, f: nat, spelling: nat)
    requires TraceInv(t) && f in t.store.fibers && Pending(t.store.fibers[f])
    ensures TraceInv(TracedStep(t, Go(f, spelling)))
  {
    var fiber, u := t.store.fibers[f], TracedStep(t, Go(f, spelling));
    var r := fiber.roid;
    GoFacts(t.store, f, spelling);
    GoKeepsPersistsAlone(t.store, f, spelling);
    WrittenTrace(t, u, f);
  }

  lemma NobodyElseWrites(s: Store, s': Store, f: nat)
    requires PersistsAlone(s) && Persists(s, f) && OnlyMoves(s, s', f)
    ensures forall g :: g in s'.fibers && g != f && Pending(s'.fibers[g]) ==> s'.fibers[g].roid != s.fibers[f].roid
  {
    forall g | g in s'.fibers && g != f && Pending(s'.fibers[g]) ensures s'.fibers[g].roid != s.fibers[f].roid {
      assert Persists(s, g);
    }
  }

  /** Fiber f, which had a snapshot in hand, has written it. */
  ghost predicate Written(t: Traced, u: Traced, f: nat) {
    && f in t.store.fibers && Pending(t.store.fibers[f]) && OnlyMoves(t.store, u.store, f)
    && (f in u.store.fibers ==> !Pending(u.store.fibers[f]))
    && var r := t.store.fibers[f].roid;
      && r in t.store.mysql && u.store.mysql == t.store.mysql[r := Snapshot(t.store.fibers[f]).row]
      && Logical(u.store) == Logical(t.store) && r in t.durable && f in t.marks
      && u.history == t.history && u.marks == t.marks && u.durable == t.durable[r := t.durable[r] + [t.marks[f]]]
  }

  lemma WrittenIsRecorded(t: Traced, u: Traced, f: nat)
    requires Recorded(t) && Written(t, u, f)
    ensures Recorded(u) && Elsewhere(t, u, t.store.fibers[f].roid, f)
  {
  }

  lemma WrittenTrace(t: Traced, u: Traced, f: nat)
    requires TraceOk(t) && PersistsAlone(t.store) && Written(t, u, f)
    ensures TraceOk(u)
  {
    var r := t.store.fibers[f].roid;
    WrittenIsRecorded(t, u, f);
    assert MarkOf(t, f);
    AppendKeepsNonDecreasing(t.durable[r], t.marks[f]);
    NobodyElseWrites(t.store, u.store, f);
    FrameTrace(t, u, r, f);
  }

  /** A snapshot is read, or nothing of the kind happens. */
  lemma ReadKeepsTraceInv(t: Traced, f: nat, spelling: nat)
    requires TraceInv(t) && f in t.store.fibers && !Pending(t.store.fibers[f])
    requires !t.store.fibers[f].Inserting? || t.store.fibers[f].roid in t.store.mysql
    ensures TraceInv(TracedStep(t, Go(f, spelling)))
  {
    var fiber, u := t.store.fibers[f], TracedStep(t, Go(f, spelling));
    var r := fiber.roid;
    GoFacts(t.store, f, spelling);
    GoKeepsPersistsAlone(t.store, f, spelling);
    MarkOfRead(t, u, f);
  }

  /** Fiber f has read the latest value, or nothing. */
  ghost predicate HasRead(t: Traced, u: Traced, f: nat) {
    && OnlyMoves(t.store, u.store, f) && f in t.store.fibers
    && u.store.mysql == t.store.mysql && Logical(u.store) == Logical(t.store)
    && u.history == t.history && u.durable == t.durable
    && var r := t.store.fibers[f].roid;
      if f in u.store.fibers && Pending(u.store.fibers[f]) then
        r in t.history && r in t.store.mysql && Snapshot(u.store.fibers[f]).row == Logical(t.store)[r]
        && t.history[r] != [] && u.marks == t.marks[f := |t.history[r]| - 1]
      else u.marks == t.marks
  }

  lemma ReadIsRecorded(t: Traced, u: Traced, f: nat)
    requires Recorded(t) && HasRead(t, u, f)
    ensures Recorded(u)
  {
    forall g | g in u.store.fibers && Pending(u.store.fibers[g])
      ensures u.store.fibers[g].roid in u.history && g in u.marks && (g != f ==> u.marks[g] == t.marks[g])
    {
      assert g != f ==> Pending(t.store.fibers[g]) && t.store.fibers[g].roid in t.history;
    }
  }

  lemma MarkOfRead(t: Traced, u: Traced, f: nat)
    requires TraceOk(t) && HasRead(t, u, f)
    ensures TraceOk(u)
  {
    var r := t.store.fibers[f].roid;
    ReadIsRecorded(t, u, f);
    forall g | g in u.store.fibers ensures MarkOf(u, g) {
      if g != f {
        assert MarkOf(t, g);
      } else if Pending(u.store.fibers[f]) {
        assert RoleTraced(t.history[r], t.durable[r], Logical(t.store)[r], t.store.mysql[r]);
      }
    }
  }

  lemma InsertKeepsTraceInv(t: Traced, f: nat, spelling: nat)
    requires TraceInv(t) && f in t.store.fibers
    requires t.store.fibers[f].Inserting? && t.store.fibers[f].roid !in t.store.mysql
    ensures TraceInv(TracedStep(t, Go(f, spelling)))
  {
    var fiber, u := t.store.fibers[f], TracedStep(t, Go(f, spelling));
    var r := fiber.roid;
    GoFacts(t.store, f, spelling);
    GoKeepsPersistsAlone(t.store, f, spelling);
    InsertedTrace(t, u, r, f, fiber.row);
  }

  /** Fiber f has inserted the new role r. */
  ghost predicate Inserted(t: Traced, u: Traced, r: int, f: nat, row: Row) {
    && OnlyMoves(t.store, u.store, f) && (f in u.store.fibers ==> !Pending(u.store.fibers[f]))
    && r !in t.store.mysql && u.store.mysql == t.store.mysql[r := row]
    && Logical(u.store) == Logical(t.store)[r := row]
    && u.history == t.history[r := [row]] && u.durable == t.durable[r := [0]] && u.marks == t.marks
  }

  lemma NobodyWritesNew(t: Traced, u: Traced, r: int, f: nat, row: Row)
    requires Recorded(t) && Inserted(t, u, r, f, row)
    ensures forall g :: g in u.store.fibers && g != f && Pending(u.store.fibers[g]) ==>
      u.store.fibers[g].roid != r && u.store.fibers[g].roid in u.history && g in u.marks
  {
    forall g | g in u.store.fibers && g != f && Pending(u.store.fibers[g])
      ensures u.store.fibers[g].roid != r && u.store.fibers[g].roid in u.history
    {
      assert g in t.store.fibers && Pending(t.store.fibers[g]) && t.store.fibers[g].roid in t.history.Keys;
    }
  }

  lemma InsertedIsRecorded(t: Traced, u: Traced, r: int, f: nat, row: Row)
    requires Recorded(t) && Inserted(t, u, r, f, row)
    ensures Recorded(u) && Elsewhere(t, u, r, f)
  {
    NobodyWritesNew(t, u, r, f, row);
  }

  lemma InsertedTrace(t: Traced, u: Traced, r: int, f: nat, row: Row)
    requires TraceOk(t) && Inserted(t, u, r, f, row)
    ensures TraceOk(u)
  {
    NobodyWritesNew(t, u, r, f, row);
    InsertedIsRecorded(t, u, r, f, row);
    FrameTrace(t, u, r, f);
  }

  /** A SET has given role r a new value. */
  lemma SetTrace(t: Traced, u: Traced, r: int, row: Row)
    requires TraceOk(t) && r in t.store.mysql
    requires u.store.mysql == t.store.mysql && Logical(u.store) == Logical(t.store)[r := row]
    requires u.store.fibers == t.store.fibers && u.durable == t.durable && u.marks == t.marks
    requires u.history == t.history[r := t.history[r] + [row]]
    ensures TraceOk(u)
  {
    forall g | g in u.store.fibers ensures MarkOf(u, g) {
      assert MarkOf(t, g);
    }
  }

  lemma SetKeepsTraceInv(t: Traced, roid: int, text: Text)
    requires TraceInv(t) && Enabled(t.store, LogicSet(roid, text))
    ensures TraceInv(TracedStep(t, LogicSet(roid, text)))
  {
    SetKeepsInv(t.store, roid, text);
    SetTrace(t, TracedStep(t, LogicSet(roid, text)), roid, text.record.row);
  }

  /** Nobody has come to have a snapshot in hand, or lost one. */
  lemma IdleTrace(t: Traced, u: Traced)
    requires TraceOk(t) && u.store.mysql == t.store.mysql && Logical(u.store) == Logical(t.store)
    requires u.history == t.history && u.durable == t.durable && u.marks == t.marks
    requires forall g :: g in u.store.fibers && Pending(u.store.fibers[g]) ==>
      g in t.store.fibers && t.store.fibers[g] == u.store.fibers[g]
    ensures TraceOk(u)
  {
    forall g | g in u.store.fibers ensures MarkOf(u, g) {
      assert g in t.store.fibers ==> MarkOf(t, g);
    }
  }

  lemma StartKeepsPersistsAlone(s: Store, e: Event)
    requires PersistsAlone(s) && Enabled(s, e) && OnePersist(s, e) && (e.Start? || e.Abort?)
    ensures PersistsAlone(Step(s, e))
  {
  }

  lemma StartKeepsTraceInv(t: Traced, e: Event)
    requires TraceInv(t) && Enabled(t.store, e) && UnloadAlone(t.store, e) && OnePersist(t.store, e)
    requires e.Start? || e.Abort?
    ensures TraceInv(TracedStep(t, e))
  {
    StepRefines(t.store, e);
    StartKeepsPersistsAlone(t.store, e);
    IdleTrace(t, TracedStep(t, e));
  }

  lemma StepKeepsTraceInv(t: Traced, e: Event)
    requires TraceInv(t) && Enabled(t.store, e) && UnloadAlone(t.store, e) && OnePersist(t.store, e)
    ensures TraceInv(TracedStep(t, e)) && TracedStep(t, e).store == Step(t.store, e)
  {
    match e {
      case Go(f, spelling) =>
        var fiber := t.store.fibers[f];
        if Pending(fiber) {
          WriteKeepsTraceInv(t, f, spelling);
        } else if fiber.Inserting? && fiber.roid !in t.store.mysql {
          InsertKeepsTraceInv(t, f, spelling);
        } else {
          ReadKeepsTraceInv(t, f, spelling);
        }
      case LogicSet(roid, text) => SetKeepsTraceInv(t, roid, text);
      case _ => StartKeepsTraceInv(t, e);
    }
  }

  // ----- Runs -----

  ghost predicate Disciplined(s: Store, es: seq<Event>)
    decreases |es|
  {
    es == [] ||
    (Enabled(s, es[0]) && UnloadAlone(s, es[0]) && OnePersist(s, es[0]) && Disciplined(Step(s, es[0]), es[1..]))
  }

  lemma {:induction false} DisciplinedIsLegal(s: Store, es: seq<Event>)
    requires Disciplined(s, es)
    ensures Legal(s, es)
    decreases |es|
  {
    if es != [] {
      DisciplinedIsLegal(Step(s, es[0]), es[1..]);
    }
  }

  lemma {:induction false} DisciplinedPrefix(s: Store, es: seq<Event>, n: nat)
    requires Disciplined(s, es) && n <= |es|
    ensures Disciplined(s, es[..n]) && Legal(s, es[..n])
    decreases |es|
  {
    if n > 0 {
      DisciplinedPrefix(Step(s, es[0]), es[1..], n - 1);
      assert es[..n][1..] == es[1..][..n - 1];
    }
  }

  ghost function TracedRun(t: Traced, es: seq<Event>): (u: Traced)
    requires TraceInv(t) && Disciplined(t.store, es)
    ensures TraceInv(u) && Legal(t.store, es) && u.store == Run(t.store, es)
    decreases |es|
  {
    if es == [] then t else
    StepKeepsTraceInv(t, es[0]);
    TracedRun(TracedStep(t, es[0]), es[1..])
  }

  /** The values that one role has had, in order, out of all writes to the one map. */
  ghost function WritesTo(ws: seq<(int, Row)>, r: int): seq<Row> {
    if ws == [] then [] else (if ws[0].0 == r then [ws[0].1] else []) + WritesTo(ws[1..], r)
  }

  ghost function HistoryOf(t: Traced, r: int): seq<Row> {
    if r in t.history then t.history[r] else []
  }

  /** Where in that history MySQL's row is. */
  ghost function Position(t: Traced, r: int): nat
    requires Recorded(t)
  {
    if r in t.durable then Last(t.durable[r]) else 0
  }

  lemma StepWrites(t: Traced, e: Event, r: int)
    requires TraceInv(t) && Enabled(t.store, e)
    ensures HistoryOf(TracedStep(t, e), r) == HistoryOf(t, r) + WrittenTo(t.store, e, r)
  {
    assert t.history.Keys == t.store.mysql.Keys;
  }

  lemma DurableGrows(t: Traced, e: Event, r: int)
    requires Recorded(t) && Inv(t.store) && Enabled(t.store, e) && r in t.durable
    ensures r in TracedStep(t, e).durable && t.durable[r] <= TracedStep(t, e).durable[r]
  {
    assert r in t.store.mysql.Keys;
  }

  lemma LaterIsNotLess(xs: seq<nat>, ys: seq<nat>)
    requires xs != [] && xs <= ys && NonDecreasing(ys)
    ensures Last(xs) <= Last(ys)
  {
    assert ys[|xs| - 1] == Last(xs);
  }

  lemma StepMovesOn(t: Traced, e: Event, r: int)
    requires TraceInv(t) && Enabled(t.store, e) && TraceInv(TracedStep(t, e))
    ensures Position(t, r) <= Position(TracedStep(t, e), r)
  {
    var u := TracedStep(t, e);
    if r in t.durable {
      DurableGrows(t, e, r);
      assert RoleTraced(u.history[r], u.durable[r], Logical(u.store)[r], u.store.mysql[r]);
      LaterIsNotLess(t.durable[r], u.durable[r]);
    }
  }

  /** What a step writes to one role. */
  ghost function WrittenTo(s: Store, e: Event, r: int): seq<Row>
    requires Enabled(s, e)
  {
    match Write(s, e) case Some(w) => (if w.0 == r then [w.1] else []) case None => []
  }

  lemma WritesUnfold(s: Store, es: seq<Event>, r: int)
    requires Legal(s, es) && es != []
    ensures WritesTo(Writes(s, es), r) == WrittenTo(s, es[0], r) + WritesTo(Writes(Step(s, es[0]), es[1..]), r)
  {
    var later := Writes(Step(s, es[0]), es[1..]);
    match Write(s, es[0]) {
      case Some(w) => assert ([w] + later)[1..] == later;
      case None => assert [] + later == later;
    }
  }

  lemma TracedUnfold(t: Traced, es: seq<Event>)
    requires TraceInv(t) && Disciplined(t.store, es) && es != []
    ensures var u := TracedStep(t, es[0]);
      && TraceInv(u) && u.store == Step(t.store, es[0])
      && Disciplined(u.store, es[1..]) && TracedRun(t, es) == TracedRun(u, es[1..])
  {
    StepKeepsTraceInv(t, es[0]);
  }

  lemma FirstWrites(t: Traced, es: seq<Event>, r: int)
    requires TraceInv(t) && Disciplined(t.store, es) && es != [] && Legal(t.store, es)
    ensures HistoryOf(TracedStep(t, es[0]), r) + WritesTo(Writes(Step(t.store, es[0]), es[1..]), r)
         == HistoryOf(t, r) + WritesTo(Writes(t.store, es), r)
  {
    StepWrites(t, es[0], r);
    WritesUnfold(t.store, es, r);
  }

  /** The trace's history is the history. */
  lemma {:induction false} HistoryIsWrites(t: Traced, es: seq<Event>, r: int)
    requires TraceInv(t) && Disciplined(t.store, es) && Legal(t.store, es)
    ensures HistoryOf(TracedRun(t, es), r) == HistoryOf(t, r) + WritesTo(Writes(t.store, es), r)
    decreases |es|
  {
    if es != [] {
      TracedUnfold(t, es);
      HistoryIsWrites(TracedStep(t, es[0]), es[1..], r);
      FirstWrites(t, es, r);
    }
  }

  lemma {:induction false} LastStep(t: Traced, es: seq<Event>, e: Event)
    requires TraceInv(t) && Disciplined(t.store, es + [e])
    ensures Disciplined(t.store, es)
    ensures var u := TracedRun(t, es);
      && Enabled(u.store, e) && UnloadAlone(u.store, e) && OnePersist(u.store, e)
      && TracedRun(t, es + [e]) == TracedStep(u, e)
    decreases |es|
  {
    if es == [] {
      assert [] + [e] == [e] && [e][1..] == [];
      StepKeepsTraceInv(t, e);
    } else {
      assert (es + [e])[0] == es[0] && (es + [e])[1..] == es[1..] + [e];
      StepKeepsTraceInv(t, es[0]);
      LastStep(TracedStep(t, es[0]), es[1..], e);
    }
  }

  /** Every value that the role has had so far. */
  ghost function Values(t: Traced, es: seq<Event>, r: int): seq<Row>
    requires Legal(t.store, es)
  {
    HistoryOf(t, r) + WritesTo(Writes(t.store, es), r)
  }

  /** After these events MySQL's row of the role, if there is one, is number k of all values the role has had. */
  ghost predicate HeldAt(t: Traced, es: seq<Event>, r: int, k: nat)
    requires Legal(t.store, es)
  {
    var s, values := Run(t.store, es), Values(t, es, r);
    r in s.mysql ==> k < |values| && values[k] == s.mysql[r] && values[|values| - 1] == Logical(s)[r]
  }

  /** What the trace knows of one role. */
  lemma TraceOfRole(u: Traced, r: int)
    requires TraceInv(u)
    ensures r in u.store.mysql <==> HistoryOf(u, r) != []
    ensures var k, values := Position(u, r), HistoryOf(u, r);
      r in u.store.mysql ==>
        k < |values| && values[k] == u.store.mysql[r] && values[|values| - 1] == Logical(u.store)[r]
  {
    assert r in u.store.mysql.Keys <==> r in u.history.Keys;
    if r in u.store.mysql {
      assert RoleTraced(u.history[r], u.durable[r], Logical(u.store)[r], u.store.mysql[r]);
    }
  }

  lemma HeldNow(t: Traced, es: seq<Event>, r: int)
    requires TraceInv(t) && Disciplined(t.store, es)
    ensures Legal(t.store, es) && HeldAt(t, es, r, Position(TracedRun(t, es), r))
    ensures r in Run(t.store, es).mysql <==> Values(t, es, r) != []
  {
    var u := TracedRun(t, es);
    HistoryIsWrites(t, es, r);
    assert Values(t, es, r) == HistoryOf(u, r) && Run(t.store, es) == u.store;
    TraceOfRole(u, r);
  }

  lemma LastMovesOn(t: Traced, past: seq<Event>, e: Event, es: seq<Event>, r: int)
    requires TraceInv(t) && Disciplined(t.store, es) && es == past + [e]
    ensures Disciplined(t.store, past)
    ensures Position(TracedRun(t, past), r) <= Position(TracedRun(t, es), r)
    ensures Legal(t.store, past) && Legal(t.store, es) && |Values(t, past, r)| <= |Values(t, es, r)|
  {
    LastStep(t, past, e);
    StepMovesOn(TracedRun(t, past), e, r);
    StepWrites(TracedRun(t, past), e, r);
    HistoryIsWrites(t, past, r);
    HistoryIsWrites(t, es, r);
  }

  /** After the first n events MySQL's row of the role, if there is one, is number k of its values so far. */
  ghost predicate HeldAfter(t: Traced, es: seq<Event>, n: nat, r: int, k: nat) {
    n <= |es| && Legal(t.store, es[..n]) && HeldAt(t, es[..n], r, k)
  }

  /** `at[n]` is the place of MySQL's row after n events in the list of the role's values; it never decreases. */
  ghost predicate InOrder(t: Traced, es: seq<Event>, r: int, at: seq<nat>) {
    && |at| == |es| + 1 && NonDecreasing(at)
    && forall n :: 0 <= n < |at| ==> HeldAfter(t, es, n, r, at[n])
  }

  lemma OneMoreInOrder(t: Traced, past: seq<Event>, es: seq<Event>, r: int, at: seq<nat>, k: nat)
    requires InOrder(t, past, r, at) && |es| == |past| + 1 && es[..|past|] == past
    requires Last(at) <= k && Legal(t.store, es) && HeldAt(t, es, r, k)
    ensures InOrder(t, es, r, at + [k])
  {
    assert es[..|es|] == es;
    forall n | 0 <= n < |at + [k]| ensures HeldAfter(t, es, n, r, (at + [k])[n]) {
      if n < |at| {
        assert HeldAfter(t, past, n, r, at[n]);
        assert past[..n] == es[..n];
      }
    }
  }

  /** From any state of a trace on, MySQL's row takes the role's values in their order. */
  lemma {:induction false} StaysInOrder(t: Traced, es: seq<Event>, r: int) returns (at: seq<nat>)
    requires TraceInv(t) && Disciplined(t.store, es)
    ensures InOrder(t, es, r, at) && Last(at) == Position(TracedRun(t, es), r)
    decreases |es|
  {
    HeldNow(t, es, r);
    if es == [] {
      at := [Position(TracedRun(t, es), r)];
      assert es[..0] == es;
    } else {
      var past := es[..|es| - 1];
      LastMovesOn(t, past, es[|es| - 1], es, r);
      var before := StaysInOrder(t, past, r);
      OneMoreInOrder(t, past, es, r, before, Position(TracedRun(t, es), r));
      at := before + [Position(TracedRun(t, es), r)];
    }
  }

  /** Durable state never goes backwards: with one persist operation per role at a time, across flushes, save
      visits and unload retries, the row that MySQL holds at each moment n of a run is a value that the role has
      had by then, and these values are taken in the order in which the role has had them. */
  lemma DurableNeverGoesBackwards(here: Home, es: seq<Event>, r: int) returns (at: seq<nat>)
    requires Disciplined(Initial(here), es)
    ensures InOrder(Blank(here), es, r, at)
  {
    at := StaysInOrder(Blank(here), es, r);
  }
}
