/** Where the two-tier refinement ends: exactly when a command leaves the one map alone, and what goes
    wrong when an unload overlaps another handler of the same role. */
module RoleStoreLimits {
  import opened RoleStore

  /** SET NX leaves the one map alone exactly if the key is present or the record is what MySQL holds. */
  lemma StoreNxIsNeutralIff(s: Store, f: nat, spelling: nat)
    requires WellKeyed(s) && f in s.fibers && s.fibers[f].StoringNx?
    ensures var roid := s.fibers[f].roid;
      Logical(Resume(s, f, spelling)) == Logical(s) <==> roid in s.redis || s.mysql[roid] == s.fibers[f].record.row
  {
    var roid, t := s.fibers[f].roid, Resume(s, f, spelling);
    assert FiberAgrees(s.fibers[f]);
    assert Logical(t)[roid] == if roid in s.redis then s.redis[roid].record.row else s.fibers[f].record.row;
    assert forall r :: r in s.mysql && r != roid ==> Logical(t)[r] == Logical(s)[r];
  }

  /** UPDATE does exactly if the key is present, or the row is missing, or it already has that value. */
  lemma UpdateIsNeutralIff(s: Store, f: nat, spelling: nat)
    requires WellKeyed(s) && f in s.fibers && (s.fibers[f].Persisting? || s.fibers[f].UnloadWriting?)
    ensures var roid := s.fibers[f].roid;
      var record := if s.fibers[f].Persisting? then s.fibers[f].record else s.fibers[f].text.record;
      Logical(Resume(s, f, spelling)) == Logical(s) <==>
        roid in s.redis || roid !in s.mysql || s.mysql[roid] == record.row
  {
    var roid, t := s.fibers[f].roid, Resume(s, f, spelling);
    assert FiberAgrees(s.fibers[f]);
    var record := if s.fibers[f].Persisting? then s.fibers[f].record else s.fibers[f].text.record;
    if roid in s.mysql {
      assert Logical(t)[roid] == if roid in s.redis then s.redis[roid].record.row else record.row;
    }
    assert forall r :: r in s.mysql && r != roid ==> Logical(t)[r] == Logical(s)[r];
  }

  /** Compare-and-delete does exactly if it deletes nothing or MySQL holds the value it deletes. */
  lemma DeleteIsNeutralIff(s: Store, f: nat, spelling: nat)
    requires WellKeyed(s) && f in s.fibers && s.fibers[f].UnloadDeleting?
    ensures var roid, text := s.fibers[f].roid, s.fibers[f].text;
      Logical(Resume(s, f, spelling)) == Logical(s) <==>
        roid !in s.redis || s.redis[roid] != text || s.mysql[roid] == text.record.row
  {
    var roid, text, t := s.fibers[f].roid, s.fibers[f].text, Resume(s, f, spelling);
    assert FiberAgrees(s.fibers[f]);
    if roid in s.redis && s.redis[roid] == text {
      assert roid in s.mysql.Keys && Logical(t)[roid] == s.mysql[roid];
    }
    assert forall r :: r in s.mysql && r != roid ==> Logical(t)[r] == Logical(s)[r];
  }

  // ----- Overlaps that lose an update -----

  /** Role 7 has been created (`oldRow`), loaded, and stored with new data (`text`) by a logic server. */
  function Dirty(here: Home, oldRow: Row, text: Text): Store {
    Store(here, map[7 := text], map[7 := oldRow], map[7 := Record(7, oldRow, here)], map[])
  }

  /** That state is reached by an ordinary run. */
  lemma DirtyIsReachable(here: Home, username: string, nickname: string, now: int, text: Text)
    requires text.record.roid == 7
    ensures var oldRow := FreshRow(username, nickname, now);
      var es := [Start(0, Inserting(7, oldRow)), Go(0, 0), Go(0, 0), LogicSet(7, text)];
      Legal(Initial(here), es) && Run(Initial(here), es) == Dirty(here, oldRow, text)
  {
    var oldRow := FreshRow(username, nickname, now);
    var s1 := Step(Initial(here), Start(0, Inserting(7, oldRow)));
    var s2 := Step(s1, Go(0, 0));
    var s3 := Step(s2, Go(0, 0));
    var s4 := Step(s3, LogicSet(7, text));
    assert s3.fibers == map[];
    assert s4 == Dirty(here, oldRow, text);
    var es := [Start(0, Inserting(7, oldRow)), Go(0, 0), Go(0, 0), LogicSet(7, text)];
    assert es[1..] == [Go(0, 0), Go(0, 0), LogicSet(7, text)];
    assert es[1..][1..] == [Go(0, 0), LogicSet(7, text)];
    assert es[1..][1..][1..] == [LogicSet(7, text)];
    assert Legal(s3, [LogicSet(7, text)]) && Run(s3, [LogicSet(7, text)]) == s4;
    assert Legal(s2, [Go(0, 0), LogicSet(7, text)]) && Run(s2, [Go(0, 0), LogicSet(7, text)]) == s4;
  }

  /** A load that selects its row before an unload and stores it after the unload: the key is gone when the
      SET NX comes, so the old row is stored over the update that the unload just saved. */
  lemma LoadAcrossUnloadLosesUpdate(here: Home, oldRow: Row, text: Text)
    requires text.record.roid == 7 && text.record.home == here && text.record.row != oldRow
    ensures var s := Dirty(here, oldRow, text);
      var s1 := Step(s, Start(1, Selecting(7)));
      var s2 := Step(s1, Go(1, 0));
      var s3 := Step(s2, Start(2, Getting(7, Unload)));
      var s4 := Step(Step(Step(s3, Go(2, 0)), Go(2, 0)), Go(2, 0));
      var s5 := Step(s4, Go(1, 0));
      && Enabled(s2, Start(2, Getting(7, Unload))) && !UnloadAlone(s2, Start(2, Getting(7, Unload)))
      && Logical(s4) == map[7 := text.record.row] && Logical(s5) == map[7 := oldRow]
  {
    var s := Dirty(here, oldRow, text);
    var s2 := Step(Step(s, Start(1, Selecting(7))), Go(1, 0));
    assert 1 in s2.fibers && s2.fibers[1] == StoringNx(7, Record(7, oldRow, here));
    var s3 := Step(s2, Start(2, Getting(7, Unload)));
    var s3a := Step(s3, Go(2, 0));
    assert s3a.fibers[2] == UnloadWriting(7, text);
    var s3b := Step(s3a, Go(2, 0));
    assert s3b.fibers[2] == UnloadDeleting(7, text);
    var s4 := Step(s3b, Go(2, 0));
    assert s4.redis == map[] && s4.mysql == map[7 := text.record.row];
  }

  /** A flush that read its snapshot before a later SET, and writes it after an unload of the later value. */
  lemma FlushAcrossUnloadLosesUpdate(here: Home, oldRow: Row, text: Text, newer: Text)
    requires text.record.roid == 7 && text.record.home == here
    requires newer.record.roid == 7 && newer.record.home == here && newer.record.row != text.record.row
    ensures var s := Dirty(here, oldRow, text);
      var s1 := Step(Step(s, Start(1, Getting(7, Flush))), Go(1, 0));
      var s2 := Step(Step(s1, LogicSet(7, newer)), Start(2, Getting(7, Unload)));
      var s3 := Step(Step(Step(s2, Go(2, 0)), Go(2, 0)), Go(2, 0));
      var s4 := Step(s3, Go(1, 0));
      && !UnloadAlone(Step(s1, LogicSet(7, newer)), Start(2, Getting(7, Unload)))
      && Logical(s3) == map[7 := newer.record.row] && Logical(s4) == map[7 := text.record.row]
  {
    var s := Dirty(here, oldRow, text);
    var s1 := Step(Step(s, Start(1, Getting(7, Flush))), Go(1, 0));
    assert s1.fibers[1] == Persisting(7, text.record);
    var s2 := Step(Step(s1, LogicSet(7, newer)), Start(2, Getting(7, Unload)));
    var s2a := Step(s2, Go(2, 0));
    assert s2a.fibers[2] == UnloadWriting(7, newer);
    var s2b := Step(s2a, Go(2, 0));
    assert s2b.fibers[2] == UnloadDeleting(7, newer);
    var s3 := Step(s2b, Go(2, 0));
    assert s3.redis == map[] && s3.mysql == map[7 := newer.record.row];
  }
}
