/** Where durability ends: exactly when another flush or save visit of the role may start. */
module DurableLimits {
  import opened Options
  import opened RoleStore
  import opened DurableHistory
  import RoleStoreLimits
  import opened Sets

  /** Two persists of one role that overlap can go backwards: here a flush reads its snapshot, the role is stored anew,
      a save visit writes the new value, and then the flush writes the old one. The first state is an ordinary one. */
  lemma OverlappingPersistsGoBackwards(here: Home, row: Row, older: Text, newer: Text)
    requires older.record.roid == 7 && older.record.home == here && newer.record.roid == 7
    ensures var s := RoleStoreLimits.Dirty(here, row, older);
      var s1 := Step(Step(s, Start(1, Getting(7, Flush))), Go(1, 0));
      var s2 := Step(Step(s1, LogicSet(7, newer)), Start(2, Getting(7, Save)));
      var s3 := Step(Step(s2, Go(2, 0)), Go(2, 0));
      var s4 := Step(s3, Go(1, 0));
      && !OnePersist(Step(s1, LogicSet(7, newer)), Start(2, Getting(7, Save)))
      && s3.mysql == map[7 := newer.record.row] && s4.mysql == map[7 := older.record.row]
      && Logical(s3) == Logical(s4) == map[7 := newer.record.row]
  {
    var s := RoleStoreLimits.Dirty(here, row, older);
    var s1 := Step(Step(s, Start(1, Getting(7, Flush))), Go(1, 0));
    assert s1.fibers[1] == Persisting(7, older.record);
    var s2 := Step(Step(s1, LogicSet(7, newer)), Start(2, Getting(7, Save)));
    var s2a := Step(s2, Go(2, 0));
    assert s2a.fibers[2] == Persisting(7, newer.record);
    var s3 := Step(s2a, Go(2, 0));
    assert s3.mysql == map[7 := newer.record.row];
  }

  // ----- Runs, put together -----

  lemma {:induction false} DisciplinedAppend(s: Store, a: seq<Event>, b: seq<Event>)
    requires Disciplined(s, a) && Legal(s, a) && Disciplined(Run(s, a), b)
    ensures Disciplined(s, a + b) && Legal(s, a + b) && Legal(Run(s, a), b) && Run(s, a + b) == Run(Run(s, a), b)
    ensures Writes(s, a + b) == Writes(s, a) + Writes(Run(s, a), b)
    decreases |a|
  {
    DisciplinedIsLegal(Run(s, a), b);
    if a == [] {
      assert a + b == b;
    } else {
      DisciplinedAppend(Step(s, a[0]), a[1..], b);
      AppendAfterFirst(s, a, b);
      WritesAfterFirst(s, a, b);
    }
  }

  lemma AppendAfterFirst(s: Store, a: seq<Event>, b: seq<Event>)
    requires a != [] && Disciplined(s, a) && Legal(s, a)
    requires var t, rest := Step(s, a[0]), a[1..]; Disciplined(t, rest + b) && Legal(t, rest + b)
    ensures Disciplined(s, a + b) && Legal(s, a + b) && Run(s, a + b) == Run(Step(s, a[0]), a[1..] + b)
    ensures Run(s, a) == Run(Step(s, a[0]), a[1..])
  {
    assert (a + b)[0] == a[0] && (a + b)[1..] == a[1..] + b;
  }

  lemma FirstWrite(s: Store, es: seq<Event>, e: Event, rest: seq<Event>)
    requires es != [] && es[0] == e && es[1..] == rest && Legal(s, es)
    ensures Writes(s, es) == (match Write(s, e) case Some(w) => [w] case None => []) + Writes(Step(s, e), rest)
  {
  }

  lemma Associative<T>(a: seq<T>, b: seq<T>, c: seq<T>)
    ensures (a + b) + c == a + (b + c)
  {
  }

  lemma WritesAfterFirst(s: Store, a: seq<Event>, b: seq<Event>)
    requires a != [] && Legal(s, a) && Legal(s, a + b) && Legal(Run(s, a), b)
    requires var t, rest := Step(s, a[0]), a[1..];
      Legal(t, rest + b) && Writes(t, rest + b) == Writes(t, rest) + Writes(Run(s, a), b)
    ensures Writes(s, a + b) == Writes(s, a) + Writes(Run(s, a), b)
  {
    var first := match Write(s, a[0]) case Some(w) => [w] case None => [];
    assert (a + b)[0] == a[0] && (a + b)[1..] == a[1..] + b;
    FirstWrite(s, a, a[0], a[1..]);
    FirstWrite(s, a + b, a[0], a[1..] + b);
    Associative(first, Writes(Step(s, a[0]), a[1..]), Writes(Run(s, a), b));
  }

  lemma OneEvent(s: Store, e: Event)
    requires Enabled(s, e) && UnloadAlone(s, e) && OnePersist(s, e)
    ensures Disciplined(s, [e]) && Legal(s, [e]) && Run(s, [e]) == Step(s, e)
    ensures Writes(s, [e]) == match Write(s, e) case Some(w) => [w] case None => []
  {
    var t := Step(s, e);
    assert [e][1..] == [];
    assert Disciplined(t, []) && Legal(t, []) && Run(t, []) == t && Writes(t, []) == [];
  }

  lemma {:induction false} WritesToAppend(a: seq<(int, Row)>, b: seq<(int, Row)>, r: int)
    ensures WritesTo(a + b, r) == WritesTo(a, r) + WritesTo(b, r)
    decreases |a|
  {
    if a == [] {
      assert a + b == b;
    } else {
      WritesToAppend(a[1..], b, r);
      assert (a + b)[0] == a[0] && (a + b)[1..] == a[1..] + b;
      var first := if a[0].0 == r then [a[0].1] else [];
      assert first + (WritesTo(a[1..], r) + WritesTo(b, r)) == (first + WritesTo(a[1..], r)) + WritesTo(b, r);
    }
  }

  // ----- An overtaken persist -----

  predicate WaitsFor(fiber: Fiber, r: int) {
    (fiber.Getting? && fiber.roid == r && !fiber.purpose.Unload?)
    || (fiber.Persisting? && fiber.roid == fiber.record.roid == r)
  }

  /** Fiber f is about to read role r, fiber g is at a persist of the same role. */
  ghost predicate TwoAtOnce(s: Store, f: nat, g: nat, r: int) {
    && f != g && f in s.fibers && g in s.fibers
    && s.fibers[f].Getting? && WaitsFor(s.fibers[f], r) && WaitsFor(s.fibers[g], r)
    && forall h :: h in s.fibers && s.fibers[h].roid == r ==> !s.fibers[h].IsUnload()
  }

  /** The role exists, or is created meanwhile. */
  lemma MakeRole(s: Store, f: nat, g: nat, r: int) returns (es: seq<Event>)
    requires TwoAtOnce(s, f, g, r)
    ensures Disciplined(s, es) && Legal(s, es)
    ensures var t := Run(s, es); TwoAtOnce(t, f, g, r) && r in t.mysql && t.here == s.here
  {
    if r in s.mysql {
      es := [];
    } else {
      var h := Above(s.fibers.Keys);
      var first := Start(h, Inserting(r, FreshRow("", "", 0)));
      OneEvent(s, first);
      var t := Step(s, first);
      OneEvent(t, Go(h, 0));
      DisciplinedAppend(s, [first], [Go(h, 0)]);
      es := [first] + [Go(h, 0)];
    }
  }

  /** Fiber g has read a value of this server's own. */
  lemma ReadFirst(s: Store, f: nat, g: nat, r: int) returns (es: seq<Event>)
    requires TwoAtOnce(s, f, g, r) && r in s.mysql
    ensures Disciplined(s, es) && Legal(s, es)
    ensures var t := Run(s, es);
      TwoAtOnce(t, f, g, r) && r in t.mysql && t.here == s.here && t.fibers[g].Persisting?
  {
    if s.fibers[g].Persisting? {
      es := [];
    } else {
      var text := Text(Record(r, FreshRow("", "", 0), s.here), 0);
      OneEvent(s, LogicSet(r, text));
      var t := Step(s, LogicSet(r, text));
      OneEvent(t, Go(g, 0));
      DisciplinedAppend(s, [LogicSet(r, text)], [Go(g, 0)]);
      es := [LogicSet(r, text)] + [Go(g, 0)];
    }
  }

  function Overtaking(f: nat, r: int, text: Text): seq<Event> {
    [LogicSet(r, text)] + ([Go(f, 0)] + [Go(f, 0)])
  }

  /** Fiber f reads and writes a newer value; fiber g still has its own in hand. */
  lemma Overtake(s: Store, f: nat, g: nat, r: int, text: Text)
    requires TwoAtOnce(s, f, g, r) && r in s.mysql && s.fibers[g].Persisting?
    requires text.record.roid == r && text.record.home == s.here
    ensures Disciplined(s, Overtaking(f, r, text)) && Legal(s, Overtaking(f, r, text))
    ensures var t := Run(s, Overtaking(f, r, text));
      && g in t.fibers && t.fibers[g] == s.fibers[g] && r in t.mysql && t.mysql[r] == text.record.row
    ensures Writes(s, Overtaking(f, r, text)) == [(r, text.record.row)]
  {
    OneEvent(s, LogicSet(r, text));
    var s1 := Step(s, LogicSet(r, text));
    OneEvent(s1, Go(f, 0));
    var s2 := Step(s1, Go(f, 0));
    assert s2.fibers[f] == Persisting(r, text.record);
    OneEvent(s2, Go(f, 0));
    DisciplinedAppend(s1, [Go(f, 0)], [Go(f, 0)]);
    DisciplinedAppend(s, [LogicSet(r, text)], [Go(f, 0)] + [Go(f, 0)]);
  }

  lemma WriteLate(t: Store, g: nat, r: int)
    requires g in t.fibers && t.fibers[g].Persisting? && t.fibers[g].record.roid == r && r in t.mysql
    ensures Disciplined(t, [Go(g, 0)]) && Legal(t, [Go(g, 0)]) && Writes(t, [Go(g, 0)]) == []
    ensures r in Run(t, [Go(g, 0)]).mysql && Run(t, [Go(g, 0)]).mysql[r] == t.fibers[g].record.row
  {
    OneEvent(t, Go(g, 0));
  }

  // ----- Exactly when a persist may start -----

  function LatestTime(rows: seq<Row>): (time: int)
    ensures forall i :: 0 <= i < |rows| ==> rows[i].updateTime <= time
  {
    if rows == [] then 0 else
    var rest := LatestTime(rows[1..]);
    if rows[0].updateTime > rest then rows[0].updateTime else rest
  }

  /** A value that the role has never had. */
  function Newer(rows: seq<Row>): (row: Row)
    ensures row !in rows
  {
    FreshRow("", "", LatestTime(rows) + 1)
  }

  /** If MySQL goes from the latest value to one that the role had before, its rows are not in order. */
  lemma BackwardsIsNotInOrder(t: Traced, past: seq<Event>, es: seq<Event>, r: int, newest: Row, before: seq<Row>,
                              at: seq<nat>)
    requires Legal(t.store, past) && Legal(t.store, es) && |es| == |past| + 1 && es[..|past|] == past
    requires Values(t, past, r) == Values(t, es, r) == before + [newest] && newest !in before
    requires r in Run(t.store, past).mysql && Run(t.store, past).mysql[r] == newest
    requires r in Run(t.store, es).mysql && Run(t.store, es).mysql[r] != newest
    ensures !InOrder(t, es, r, at)
  {
    assert es[..|past|] == past && es[..|es|] == es;
    assert InOrder(t, es, r, at) ==> HeldAfter(t, es, |past|, r, at[|past|]) && HeldAfter(t, es, |es|, r, at[|es|]);
  }

  /** While another persist of the role is suspended, a run goes on in which MySQL's rows are not in order. */
  lemma SecondPersistGoesBack(t: Traced, f: nat, g: nat, r: int) returns (es: seq<Event>)
    requires TwoAtOnce(t.store, f, g, r)
    ensures Disciplined(t.store, es) && forall at :: !InOrder(t, es, r, at)
  {
    var made := MakeRole(t.store, f, g, r);
    var read := ReadFirst(Run(t.store, made), f, g, r);
    DisciplinedAppend(t.store, made, read);
    var s, before := Run(t.store, made + read), Values(t, made + read, r);
    var newest := Newer(before + [s.fibers[g].record.row]);
    var text := Text(Record(r, newest, s.here), 0);
    Overtake(s, f, g, r, text);
    DisciplinedAppend(t.store, made + read, Overtaking(f, r, text));
    var past := made + read + Overtaking(f, r, text);
    WriteLate(Run(t.store, past), g, r);
    DisciplinedAppend(t.store, past, [Go(g, 0)]);
    es := past + [Go(g, 0)];
    OneNewValue(t, made + read, Overtaking(f, r, text), past, es, r, newest);
    assert newest !in before && newest != s.fibers[g].record.row;
    forall at ensures !InOrder(t, es, r, at) {
      BackwardsIsNotInOrder(t, past, es, r, newest, before, at);
    }
  }

  lemma OneNewValue(t: Traced, first: seq<Event>, more: seq<Event>, past: seq<Event>, es: seq<Event>, r: int, row: Row)
    requires Legal(t.store, first) && Legal(t.store, past) && Legal(t.store, es)
    requires Writes(t.store, past) == Writes(t.store, first) + [(r, row)]
    requires Writes(t.store, es) == Writes(t.store, past) + []
    ensures Values(t, past, r) == Values(t, es, r) == Values(t, first, r) + [row]
  {
    WritesToAppend(Writes(t.store, first), [(r, row)], r);
    assert [(r, row)][1..] == [];
    assert WritesTo([(r, row)], r) == [row] + WritesTo([], r) == [row];
    assert Writes(t.store, es) == Writes(t.store, past);
  }

  /** Whatever follows this event without a further overlap, MySQL's rows of the role stay in order. */
  ghost predicate Safe(t: Traced, e: Event, r: int)
    requires TraceInv(t) && Enabled(t.store, e)
  {
    forall es :: Disciplined(Step(t.store, e), es) ==> exists at :: InOrder(TracedStep(t, e), es, r, at)
  }

  lemma OtherPersist(t: Traced, f: nat, r: int, purpose: Purpose) returns (g: nat)
    requires TraceInv(t) && !purpose.Unload?
    requires Enabled(t.store, Start(f, Getting(r, purpose))) && UnloadAlone(t.store, Start(f, Getting(r, purpose)))
    requires !OnePersist(t.store, Start(f, Getting(r, purpose)))
    ensures TwoAtOnce(TracedStep(t, Start(f, Getting(r, purpose))).store, f, g, r)
  {
    g :| g in t.store.fibers && t.store.fibers[g].IsPersist() && t.store.fibers[g].roid == r;
    assert FiberAgrees(t.store.fibers[g]);
  }

  /** Starting a flush or a save visit of a role is safe exactly if no other persist of that role is suspended. */
  lemma PersistIsSafeIff(t: Traced, f: nat, r: int, purpose: Purpose)
    requires TraceInv(t) && !purpose.Unload?
    requires Enabled(t.store, Start(f, Getting(r, purpose))) && UnloadAlone(t.store, Start(f, Getting(r, purpose)))
    ensures Safe(t, Start(f, Getting(r, purpose)), r) <==> OnePersist(t.store, Start(f, Getting(r, purpose)))
  {
    var e := Start(f, Getting(r, purpose));
    var u := TracedStep(t, e);
    if OnePersist(t.store, e) {
      StepKeepsTraceInv(t, e);
      forall es | Disciplined(Step(t.store, e), es) ensures exists at :: InOrder(u, es, r, at) {
        var at := StaysInOrder(u, es, r);
      }
    } else {
      var g := OtherPersist(t, f, r, purpose);
      var es := SecondPersistGoesBack(u, f, g, r);
    }
  }
}
