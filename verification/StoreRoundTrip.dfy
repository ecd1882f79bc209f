/** Writing the systems and reading them back gives the same systems. */
module StoreRoundTrip {
  import opened Feed
  import opened Rows
  import opened Store

  /** The row belongs to a listed system, and no system listed before it takes the id that the row holds. */
  predicate Waits(list: seq<System>, r: nat, id: nat) {
    exists j | 0 <= j < |list| :: list[j].rowId == Some(r) && forall i | 0 <= i < j :: list[i].id != id
  }

  predicate InTheirTurn(list: seq<System>, t: Tables) {
    forall r | r in t.systems :: Waits(list, r, t.systems[r].id)
  }

  /** The row ids given have already been handed out: otherwise the next free row may be one of them. */
  predicate RowsGiven(list: seq<System>, t: Tables) {
    forall s | s in list && s.rowId.Some? :: s.rowId.value < t.next
  }

  /** When a system without row id is listed nothing is deleted, so every stored row must find its system in turn. */
  ghost predicate Savable(list: seq<System>, t: Tables) {
    && ListFine(list) && TablesFine(t)
    && (Unstored(list) ==> InTheirTurn(list, t) && RowsGiven(list, t))
  }

  lemma ListedWaits(list: seq<System>, r: nat, id: nat)
    requires ListFine(list) && Lists(list, r, id)
    ensures Waits(list, r, id)
  {
    hide Normal, ChildrenDistinct;
    var s :| s in list && s.rowId == Some(r) && s.id == id;
    var j :| 0 <= j < |list| && list[j] == s;
    assert forall i | 0 <= i < j :: list[i].id != list[j].id;
  }

  /** A list that names every stored system under its row id and id finds each in turn. */
  lemma CoveringWaits(list: seq<System>, t: Tables)
    requires ListFine(list) && CoversTable(list, t)
    ensures InTheirTurn(list, t)
  {
    hide ListFine, Lists, Waits;
    forall r | r in t.systems ensures Waits(list, r, t.systems[r].id) {
      ListedWaits(list, r, t.systems[r].id);
    }
  }

  /** The system is in row r, in its own row if it has one, else in a row handed out since `first`. */
  predicate Placed(s: System, t: Tables, first: nat, r: nat) {
    r in t.systems && t.systems[r] == Encoded(s) && (if s.rowId.Some? then r == s.rowId.value else r >= first)
  }

  ghost predicate ChildrenSaved(s: System, t: Tables) {
    && (forall id: nat :: (s.id, id) in t.talkgroups <==> HasId(s.talkgroups, id))
    && (forall r | r in s.talkgroups :: (s.id, r.id) in t.talkgroups && t.talkgroups[(s.id, r.id)] == r)
    && (forall id: nat :: (s.id, id) in t.units <==> HasId(s.units, id))
    && (forall r | r in s.units :: (s.id, r.id) in t.units && t.units[(s.id, r.id)] == r)
  }

  ghost predicate Stored(s: System, t: Tables, first: nat) {
    (exists r: nat :: Placed(s, t, first, r)) && ChildrenSaved(s, t)
  }

  /** Every stored row is that of a system already saved, or waits for its own. */
  ghost predicate Accounted(done: seq<System>, todo: seq<System>, t: Tables) {
    forall r | r in t.systems :: (exists s | s in done :: s.id == t.systems[r].id) || Waits(todo, r, t.systems[r].id)
  }

  ghost predicate Underway(done: seq<System>, todo: seq<System>, t: Tables, first: nat) {
    && ListFine(done + todo) && TablesFine(t) && first <= t.next
    && (Unstored(done + todo) ==> forall s | s in done + todo && s.rowId.Some? :: s.rowId.value < first)
    && (forall s | s in done :: Stored(s, t, first))
  }

  ghost predicate Saving(done: seq<System>, todo: seq<System>, t: Tables, first: nat) {
    Underway(done, todo, t, first) && Accounted(done, todo, t)
  }

  lemma PrunedTablesFine(list: seq<System>, t: Tables)
    requires TablesFine(t)
    ensures TablesFine(Pruned(list, t))
  {
    hide Gone, GoneIds;
  }

  lemma PrunedFine(list: seq<System>, t: Tables)
    requires Savable(list, t)
    ensures Saving([], list, Pruned(list, t), t.next)
  {
    PrunedTablesFine(list, t);
    var p := Pruned(list, t);
    assert [] + list == list;
    forall r | r in p.systems ensures Waits(list, r, p.systems[r].id) {
      if !Unstored(list) {
        ListedWaits(list, r, p.systems[r].id);
      }
    }
    hide ListFine, Waits, Lists, TablesFine;
  }

  lemma HeadIsDistinct(done: seq<System>, todo: seq<System>)
    requires ListFine(done + todo) && todo != []
    ensures forall x | x in done || x in todo[1..] :: x.id != todo[0].id
    ensures forall x | x in done || x in todo[1..] :: x.rowId.Some? && todo[0].rowId.Some? ==> x.rowId != todo[0].rowId
  {
    var all := done + todo;
    var n := |done|;
    assert all[n] == todo[0];
    forall x | x in done || x in todo[1..]
      ensures x.id != todo[0].id && (x.rowId.Some? && todo[0].rowId.Some? ==> x.rowId != todo[0].rowId)
    {
      if x in done {
        var i :| 0 <= i < n && done[i] == x;
        assert all[i] == x;
      } else {
        var i :| 0 <= i < |todo| - 1 && todo[1..][i] == x;
        assert all[n + 1 + i] == x;
      }
    }
  }

  lemma NoConflict(done: seq<System>, todo: seq<System>, t: Tables, first: nat)
    requires Saving(done, todo, t, first) && todo != []
    ensures !Conflicts(todo[0], t)
  {
    HeadIsDistinct(done, todo);
    hide ListFine, Stored;
    assert todo == [todo[0]] + todo[1..];
    forall r | r in t.systems && t.systems[r].id == todo[0].id ensures r == Target(todo[0], t) {
      assert Waits(todo, r, t.systems[r].id);
    }
  }

  lemma WaitsOn(todo: seq<System>, r: nat, id: nat)
    requires todo != [] && Waits(todo, r, id) && todo[0].rowId != Some(r)
    ensures Waits(todo[1..], r, id)
  {
    var j :| 0 <= j < |todo| && todo[j].rowId == Some(r) && forall i | 0 <= i < j :: todo[i].id != id;
    assert todo[1..][j - 1] == todo[j];
    assert forall i | 0 <= i < j - 1 :: todo[1..][i] == todo[i + 1];
  }

  lemma RowWritten(s: System, t: Tables)
    requires TablesFine(t) && !Conflicts(s, t) && (s.rowId.Some? ==> s.rowId.value > 0)
    ensures TablesFine(WithRow(s, t)) && t.next <= WithRow(s, t).next
  {
  }

  lemma SavedTables(s: System, t: Tables)
    requires TablesFine(t) && !Conflicts(s, t) && ChildrenDistinct(s) && (s.rowId.Some? ==> s.rowId.value > 0)
    ensures
      var t' := Saved(s, t);
      && TablesFine(t') && t'.systems == t.systems[Target(s, t) := Encoded(s)] && t.next <= t'.next
      && ChildrenSaved(s, t')
      && (forall k: (nat, nat) | k.0 != s.id ::
          (k in t'.talkgroups <==> k in t.talkgroups) && (k in t.talkgroups ==> t'.talkgroups[k] == t.talkgroups[k]))
      && (forall k: (nat, nat) | k.0 != s.id ::
          (k in t'.units <==> k in t.units) && (k in t.units ==> t'.units[k] == t.units[k]))
  {
    hide RowsWritten, Conflicts, Encoded;
    RowWritten(s, t);
    WrittenRows(s.talkgroups, s.id, t.talkgroups);
    WrittenRows(s.units, s.id, t.units);
  }

  /** Saving one system leaves every system saved before it as it was. */
  lemma StaysStored(x: System, s: System, t: Tables, first: nat)
    requires TablesFine(t) && first <= t.next && !Conflicts(s, t) && ChildrenDistinct(s) &&
               (s.rowId.Some? ==> s.rowId.value > 0)
    requires Stored(x, t, first) && x.id != s.id
    requires x.rowId.Some? && s.rowId.Some? ==> x.rowId != s.rowId
    requires x.rowId.None? && s.rowId.Some? ==> s.rowId.value < first
    ensures Stored(x, Saved(s, t), first)
  {
    hide Saved;
    SavedTables(s, t);
    var r: nat :| Placed(x, t, first, r);
    assert Placed(x, Saved(s, t), first, r);
  }

  lemma SaveOne(done: seq<System>, todo: seq<System>, t: Tables, first: nat)
    requires Saving(done, todo, t, first) && todo != []
    ensures !Conflicts(todo[0], t) && Saving(done + [todo[0]], todo[1..], Saved(todo[0], t), first)
  {
    hide Saved, Stored, ListFine;
    var s, rest := todo[0], todo[1..];
    var done', t' := done + [s], Saved(s, t);
    assert done' + rest == done + todo && s in done + todo;
    NoConflict(done, todo, t, first);
    SaveOneFacts(done, todo, t, first);
    forall x | x in done' ensures Stored(x, t', first) {
    }
    forall r | r in t'.systems
      ensures (exists x | x in done' :: x.id == t'.systems[r].id) || Waits(rest, r, t'.systems[r].id)
    {
      if r == Target(s, t) {
        assert s in done';
      } else if x :| x in done && x.id == t.systems[r].id {
        assert x in done';
      } else {
        WaitsOn(todo, r, t.systems[r].id);
      }
    }
  }

  lemma SaveOneFacts(done: seq<System>, todo: seq<System>, t: Tables, first: nat)
    requires Underway(done, todo, t, first) && todo != [] && !Conflicts(todo[0], t)
    ensures TablesFine(Saved(todo[0], t)) && first <= Saved(todo[0], t).next
    ensures Saved(todo[0], t).systems == t.systems[Target(todo[0], t) := Encoded(todo[0])]
    ensures Stored(todo[0], Saved(todo[0], t), first)
    ensures forall x | x in done :: Stored(x, Saved(todo[0], t), first)
  {
    hide Saved;
    var s := todo[0];
    HeadIsDistinct(done, todo);
    assert s in done + todo;
    SavedTables(s, t);
    assert Placed(s, Saved(s, t), first, Target(s, t));
    forall x | x in done ensures Stored(x, Saved(s, t), first) {
      assert x in done + todo;
      StaysStored(x, s, t, first);
    }
  }

  lemma {:induction false} SaveRest(done: seq<System>, todo: seq<System>, t: Tables, first: nat)
    requires Saving(done, todo, t, first)
    ensures
      var o := SavedAll(todo, t);
      o.ok && Saving(done + todo, [], o.tables, first)
    decreases |todo|
  {
    hide Saving, Saved, Conflicts;
    if todo == [] {
      assert done + todo == done && done + [] == done;
    } else {
      SaveOne(done, todo, t, first);
      SaveRest(done + [todo[0]], todo[1..], Saved(todo[0], t), first);
      assert done + [todo[0]] + todo[1..] == done + todo;
    }
  }

  /** However far the loop gets, everything saved on the way stays saved; it stops only at a system whose id another row
      has. */
  lemma {:induction false} SavesUntilRefused(done: seq<System>, todo: seq<System>, t: Tables, first: nat)
    returns (n: nat)
    requires Underway(done, todo, t, first)
    ensures
      var o := SavedAll(todo, t);
      && n <= |todo| && (o.ok <==> n == |todo|)
      && (forall s | s in done + todo[..n] :: Stored(s, o.tables, first))
      && (!o.ok ==> exists r | r in o.tables.systems ::
          todo[n].rowId != Some(r) && o.tables.systems[r].id == todo[n].id)
    decreases |todo|
  {
    hide Stored, Saved, ListFine;
    n := 0;
    assert done + todo[..0] == done;
    if todo != [] && !Conflicts(todo[0], t) {
      SaveOneFacts(done, todo, t, first);
      assert done + [todo[0]] + todo[1..] == done + todo;
      var k := SavesUntilRefused(done + [todo[0]], todo[1..], Saved(todo[0], t), first);
      n := k + 1;
      assert done + [todo[0]] + todo[1..][..k] == done + todo[..n] && (k < |todo| - 1 ==> todo[1..][k] == todo[n]);
    }
  }

  /** A refused write has saved the systems before the refused one, whose id is that of another row, and stops there. */
  lemma RefusedWrite(list: seq<System>, t: Tables) returns (n: nat)
    requires ListFine(list) && TablesFine(t) && (Unstored(list) ==> RowsGiven(list, t)) && !Written(list, t).ok
    ensures
      var after := Written(list, t).tables;
      && n < |list| && (forall s | s in list[..n] :: Stored(s, after, t.next))
      && exists r | r in after.systems :: list[n].rowId != Some(r) && after.systems[r].id == list[n].id
  {
    hide Stored, SavedAll, ListFine, TablesFine, Unstored;
    PrunedTablesFine(list, t);
    assert [] + list == list;
    n := SavesUntilRefused([], list, Store.Pruned(list, t), t.next);
    assert [] + list[..n] == list[..n];
  }

  /** The write succeeds, stores every listed system with exactly its talkgroups and units, and nothing else. */
  lemma WriteStoresExactly(list: seq<System>, t: Tables)
    requires Savable(list, t)
    ensures
      var o := Written(list, t);
      && o.ok && TablesFine(o.tables)
      && (forall s | s in list :: Stored(s, o.tables, t.next))
      && (forall r | r in o.tables.systems :: exists s | s in list :: s.id == o.tables.systems[r].id)
  {
    hide Stored, SavedAll, Store.Pruned, ListFine;
    PrunedFine(list, t);
    SaveRest([], list, Store.Pruned(list, t), t.next);
    assert [] + list == list && list + [] == list;
  }

  // ---- Reading back ----

  /** The same system; a system without row id has been given one. */
  predicate SameSystem(o: System, s: System) {
    && o.rowId.Some? && (s.rowId.Some? ==> o.rowId == s.rowId)
    && o.id == s.id && o.autoPopulate == s.autoPopulate && o.blacklists == s.blacklists && o.caption == s.caption
    && o.led == s.led && o.order == s.order
    && multiset(o.talkgroups) == multiset(s.talkgroups) && multiset(o.units) == multiset(s.units)
  }

  function Ids(list: seq<System>): (ids: seq<nat>)
    ensures |ids| == |list|
  {
    seq(|list|, i requires 0 <= i < |list| => list[i].id)
  }

  /** A permutation of the list, sorted by order, the nested lists likewise. */
  ghost predicate Reloaded(out: seq<System>, list: seq<System>) {
    && SortedSystems(out)
    && (forall o | o in out :: SortedRows(o.talkgroups) && SortedRows(o.units))
    && multiset(Ids(out)) == multiset(Ids(list))
    && (forall s | s in list :: exists o | o in out :: SameSystem(o, s))
    && (forall o | o in out :: exists s | s in list :: SameSystem(o, s))
  }

  lemma ReadOne(s: System, o: System, t: Tables, first: nat)
    requires Stored(s, t, first) && TablesFine(t) && ChildrenDistinct(s) && Normal(s)
    requires IsSystemReading(o, t) && o.id == s.id
    ensures SameSystem(o, s)
  {
    var r: nat :| Placed(s, t, first, r);
    assert o.rowId == Some(r);
    BlacklistsRoundTrip(s.blacklists);
    ReadBack(s.talkgroups, o.talkgroups, s.id, t.talkgroups, ReadTalkgroup);
    ReadBack(s.units, o.units, s.id, t.units, ReadUnit);
  }

  lemma {:induction false} CountDistinct(s: seq<nat>, x: nat)
    requires forall i, j | 0 <= i < j < |s| :: s[i] != s[j]
    ensures multiset(s)[x] == if x in s then 1 else 0
  {
    if s != [] {
      assert s == [s[0]] + s[1..];
      CountDistinct(s[1..], x);
    }
  }

  lemma SameIds(a: seq<nat>, b: seq<nat>)
    requires forall i, j | 0 <= i < j < |a| :: a[i] != a[j]
    requires forall i, j | 0 <= i < j < |b| :: b[i] != b[j]
    requires forall x :: x in a <==> x in b
    ensures multiset(a) == multiset(b)
  {
    forall x ensures multiset(a)[x] == multiset(b)[x] {
      CountDistinct(a, x);
      CountDistinct(b, x);
    }
  }

  lemma ListedIsRead(s: System, out: seq<System>, t: Tables, first: nat) returns (o: System)
    requires Stored(s, t, first) && TablesFine(t) && ChildrenDistinct(s) && Normal(s) && Store.IsReading(out, t)
    ensures o in out && SameSystem(o, s)
  {
    hide ChildrenDistinct, ChildrenSaved, Normal, SameSystem, IsRowReading;
    var r: nat :| Placed(s, t, first, r);
    o :| o in out && o.rowId == Some(r);
    assert IsSystemReading(o, t);
    ReadOne(s, o, t, first);
  }

  lemma ReadIsListed(o: System, out: seq<System>, list: seq<System>, t: Tables, first: nat) returns (s: System)
    requires TablesFine(t) && ListFine(list) && Store.IsReading(out, t) && o in out
    requires forall s | s in list :: Stored(s, t, first)
    requires forall r | r in t.systems :: exists s | s in list :: s.id == t.systems[r].id
    ensures s in list && SameSystem(o, s)
  {
    hide Stored, ChildrenDistinct, Normal, SameSystem, IsRowReading;
    assert IsSystemReading(o, t);
    s :| s in list && s.id == t.systems[o.rowId.value].id;
    ReadOne(s, o, t, first);
  }

  lemma ReadSorted(out: seq<System>, t: Tables)
    requires Store.IsReading(out, t)
    ensures SortedSystems(out) && forall o | o in out :: SortedRows(o.talkgroups) && SortedRows(o.units)
  {
  }

  lemma ListIdsDistinct(list: seq<System>)
    requires ListFine(list)
    ensures forall i, j | 0 <= i < j < |list| :: Ids(list)[i] != Ids(list)[j]
  {
  }

  lemma ReadIdsDistinct(out: seq<System>, t: Tables)
    requires TablesFine(t) && Store.IsReading(out, t)
    ensures forall i, j | 0 <= i < j < |out| :: Ids(out)[i] != Ids(out)[j]
  {
    hide IsRowReading;
    forall i, j | 0 <= i < j < |out| ensures Ids(out)[i] != Ids(out)[j] {
      assert IsSystemReading(out[i], t) && IsSystemReading(out[j], t);
    }
  }

  lemma ReadAll(list: seq<System>, out: seq<System>, t: Tables, first: nat)
    requires ListFine(list) && TablesFine(t)
    requires forall s | s in list :: Stored(s, t, first)
    requires forall r | r in t.systems :: exists s | s in list :: s.id == t.systems[r].id
    requires Store.IsReading(out, t)
    ensures Reloaded(out, list)
  {
    hide Stored, SameSystem, SortedSystems, SortedRows, Ids, Store.IsReading;
    ListIdsDistinct(list);
    ReadSorted(out, t);
    forall s | s in list ensures exists o | o in out :: SameSystem(o, s) {
      var o := ListedIsRead(s, out, t, first);
    }
    forall o | o in out ensures exists s | s in list :: SameSystem(o, s) {
      var s := ReadIsListed(o, out, list, t, first);
    }
    ReadIdsDistinct(out, t);
    SameIdSets(out, list);
    SameIds(Ids(out), Ids(list));
  }

  lemma SameIdSets(out: seq<System>, list: seq<System>)
    requires forall s | s in list :: exists o | o in out :: SameSystem(o, s)
    requires forall o | o in out :: exists s | s in list :: SameSystem(o, s)
    ensures forall x :: x in Ids(out) <==> x in Ids(list)
  {
    forall x ensures x in Ids(out) <==> x in Ids(list) {
      IdsMembers(out, x);
      IdsMembers(list, x);
    }
  }

  lemma IdsMembers(list: seq<System>, x: nat)
    ensures x in Ids(list) <==> exists s | s in list :: s.id == x
  {
    if s :| s in list && s.id == x {
      var i :| 0 <= i < |list| && list[i] == s;
      assert Ids(list)[i] == x;
    }
  }

  /** The nested round trip: whatever order the rows come in, a read after a write is a permutation of the list
      sorted by order, with every talkgroup and unit, renumbered and swapped system ids included. */
  lemma WriteThenRead(list: seq<System>, t: Tables, out: seq<System>)
    requires Savable(list, t) && Store.IsReading(out, Written(list, t).tables)
    ensures Written(list, t).ok && Reloaded(out, list)
  {
    WriteStoresExactly(list, t);
    ReadAll(list, out, Written(list, t).tables, t.next);
  }

  // ---- What the hypotheses are for ----

  /** Some listed system has no row id: no stored system is deleted. */
  lemma UnstoredDeletesNothing(list: seq<System>, t: Tables)
    requires Unstored(list)
    ensures Gone(list, t) == {} && Store.Pruned(list, t) == t
  {
  }

  lemma {:induction false} SavedKeepsRow(list: seq<System>, t: Tables, r: nat)
    requires TablesFine(t) && r in t.systems && forall s | s in list :: s.rowId != Some(r)
    ensures r in SavedAll(list, t).tables.systems && SavedAll(list, t).tables.systems[r] == t.systems[r]
    requires forall s | s in list :: (s.rowId.Some? ==> s.rowId.value > 0) && ChildrenDistinct(s)
  {
    hide Saved, Conflicts, ChildrenDistinct;
    if list != [] && !Conflicts(list[0], t) {
      assert list == [list[0]] + list[1..];
      SavedTables(list[0], t);
      SavedKeepsRow(list[1..], Saved(list[0], t), r);
    }
  }

  lemma ListRows(list: seq<System>)
    requires ListFine(list)
    ensures forall s | s in list :: (s.rowId.Some? ==> s.rowId.value > 0) && ChildrenDistinct(s)
  {
  }

  lemma ReloadedIsListed(out: seq<System>, list: seq<System>, o: System) returns (s: System)
    requires Reloaded(out, list) && o in out
    ensures s in list && SameSystem(o, s) && s.id == o.id
  {
    hide SortedSystems, SortedRows, Ids;
    s :| s in list && SameSystem(o, s);
  }

  lemma StaleRowIsRead(list: seq<System>, t: Tables, out: seq<System>, r: nat) returns (o: System)
    requires Unstored(list) && TablesFine(t) && ListFine(list)
    requires r in t.systems && forall s | s in list :: s.rowId != Some(r)
    requires Store.IsReading(out, Written(list, t).tables)
    ensures o in out && o.rowId == Some(r) && o.id == t.systems[r].id
  {
    hide ListFine, SavedAll, Store.Pruned, IsRowReading, SortedRows;
    UnstoredDeletesNothing(list, t);
    ListRows(list);
    SavedKeepsRow(list, t, r);
    o :| o in out && o.rowId == Some(r);
    assert IsSystemReading(o, Written(list, t).tables);
  }

  /** Listing one unstored system resurrects every stored system missing from the list: the stale row comes
      back with the next read, which is then no permutation of the list. */
  lemma UnstoredResurrects(list: seq<System>, t: Tables, out: seq<System>, r: nat)
    requires Unstored(list) && TablesFine(t) && ListFine(list)
    requires r in t.systems && forall s | s in list :: s.rowId != Some(r) && s.id != t.systems[r].id
    requires Store.IsReading(out, Written(list, t).tables)
    ensures exists o | o in out :: o.rowId == Some(r) && o.id == t.systems[r].id
    ensures !Reloaded(out, list)
  {
    hide ListFine, Written, Store.IsReading, Reloaded;
    var o := StaleRowIsRead(list, t, out, r);
    if Reloaded(out, list) {
      var s := ReloadedIsListed(out, list, o);
      assert false;
    }
  }

  /** A stored row whose id a listed system takes before any listed system rewrites the row: the write is refused. */
  lemma {:induction false} RowInTheWay(list: seq<System>, t: Tables, i: nat, r: nat)
    requires TablesFine(t) && r in t.systems && i < |list| && list[i].id == t.systems[r].id
    requires forall k | 0 <= k <= i :: list[k].rowId != Some(r)
    requires forall s | s in list :: (s.rowId.Some? ==> s.rowId.value > 0) && ChildrenDistinct(s)
    ensures !SavedAll(list, t).ok
    decreases |list|
  {
    hide Saved, ChildrenDistinct;
    if i == 0 {
      assert r != Target(list[0], t);
    } else if !Conflicts(list[0], t) {
      var rest := list[1..];
      assert list == [list[0]] + rest;
      SavedTables(list[0], t);
      hide Conflicts;
      assert forall k | 0 <= k <= i - 1 :: rest[k] == list[k + 1];
      RowInTheWay(rest, Saved(list[0], t), i - 1, r);
    }
  }

  lemma UnstoredWrites(list: seq<System>, t: Tables)
    requires Unstored(list)
    ensures Written(list, t) == SavedAll(list, t)
  {
    UnstoredDeletesNothing(list, t);
  }

  lemma StaleListed(list: seq<System>, t: Tables, out: seq<System>, r: nat) returns (s: System)
    requires Unstored(list) && TablesFine(t) && ListFine(list)
    requires r in t.systems && forall s | s in list :: s.rowId != Some(r)
    requires Store.IsReading(out, Written(list, t).tables) && Reloaded(out, list)
    ensures s in list && s.id == t.systems[r].id
  {
    hide ListFine, Written, Store.IsReading, Reloaded, SameSystem;
    var o := StaleRowIsRead(list, t, out, r);
    s := ReloadedIsListed(out, list, o);
  }

  lemma ListedInTheWay(list: seq<System>, t: Tables, s: System, r: nat)
    requires Unstored(list) && TablesFine(t) && ListFine(list)
    requires r in t.systems && forall x | x in list :: x.rowId != Some(r)
    requires s in list && s.id == t.systems[r].id
    ensures !Written(list, t).ok
  {
    ListRows(list);
    UnstoredWrites(list, t);
    hide ListFine, SavedAll, Written, ChildrenDistinct, TablesFine, Unstored;
    var i := PositionOf(list, s, r);
    RowInTheWay(list, t, i, r);
  }

  /** A stored row under whose row id nothing is listed: its system is listed as unstored and refused, or it comes
      back. */
  lemma StaleRow(list: seq<System>, t: Tables, out: seq<System>, r: nat)
    requires Unstored(list) && TablesFine(t) && ListFine(list)
    requires r in t.systems && forall s | s in list :: s.rowId != Some(r)
    requires Store.IsReading(out, Written(list, t).tables)
    ensures !(Written(list, t).ok && Reloaded(out, list))
  {
    hide ListFine, Written, Store.IsReading, Reloaded, TablesFine, Unstored;
    if Reloaded(out, list) {
      var s := StaleListed(list, t, out, r);
      ListedInTheWay(list, t, s, r);
    }
  }

  lemma PositionOf(list: seq<System>, s: System, r: nat) returns (i: nat)
    requires s in list && forall x | x in list :: x.rowId != Some(r)
    ensures i < |list| && list[i] == s && forall k | 0 <= k <= i :: list[k].rowId != Some(r)
  {
    i :| 0 <= i < |list| && list[i] == s;
    assert forall k | 0 <= k <= i :: list[k] in list;
  }

  /** A stored row that does not find its system in turn spoils the round trip: it is refused or comes back stale. */
  lemma OutOfTurn(list: seq<System>, t: Tables, out: seq<System>, r: nat)
    requires Unstored(list) && TablesFine(t) && ListFine(list) && r in t.systems && !Waits(list, r, t.systems[r].id)
    requires Store.IsReading(out, Written(list, t).tables)
    ensures !(Written(list, t).ok && Reloaded(out, list))
  {
    ListRows(list);
    UnstoredWrites(list, t);
    hide ListFine, TablesFine, Reloaded, SavedAll, Written, Store.IsReading, Unstored, Waits, ChildrenDistinct;
    if s :| s in list && s.rowId == Some(r) {
      var i := TakenBefore(list, t, r, s);
      RowInTheWay(list, t, i, r);
    } else {
      StaleRow(list, t, out, r);
    }
  }

  lemma TakenBefore(list: seq<System>, t: Tables, r: nat, s: System) returns (i: nat)
    requires ListFine(list) && r in t.systems && !Waits(list, r, t.systems[r].id) && s in list && s.rowId == Some(r)
    ensures i < |list| && list[i].id == t.systems[r].id && forall k | 0 <= k <= i :: list[k].rowId != Some(r)
  {
    hide Normal, ChildrenDistinct;
    var j :| 0 <= j < |list| && list[j] == s;
    i :| 0 <= i < j && list[i].id == t.systems[r].id;
    assert forall k | 0 <= k < j :: list[k].rowId.Some? ==> list[k].rowId != list[j].rowId;
  }

  /** Exactly when a list with an unstored system makes the round trip: when every stored row is that of a listed
      system, and no system listed before it takes the id the row still holds. */
  lemma UnstoredRoundTrip(list: seq<System>, t: Tables, out: seq<System>)
    requires ListFine(list) && TablesFine(t) && Unstored(list) && RowsGiven(list, t)
    requires Store.IsReading(out, Written(list, t).tables)
    ensures Written(list, t).ok && Reloaded(out, list) <==> InTheirTurn(list, t)
  {
    hide ListFine, TablesFine, RowsGiven, Reloaded, Written, Store.IsReading, Waits;
    if InTheirTurn(list, t) {
      assert Savable(list, t);
      WriteThenRead(list, t, out);
    } else {
      var r :| r in t.systems && !Waits(list, r, t.systems[r].id);
      OutOfTurn(list, t, out, r);
    }
  }

  /** With every listed system stored, the write always succeeds and the read always gives the list back. */
  lemma StoredListsRoundTrip(list: seq<System>, t: Tables, out: seq<System>)
    requires ListFine(list) && TablesFine(t) && !Unstored(list)
    requires Store.IsReading(out, Written(list, t).tables)
    ensures Written(list, t).ok && Reloaded(out, list)
    ensures forall s, o | s in list && o in out && o.id == s.id :: o.rowId == s.rowId
  {
    hide Store.IsReading, Reloaded;
    WriteThenRead(list, t, out);
    assert Reloaded(out, list);
    StoredKeepRowIds(list, out);
  }

  lemma OneSystemPerId(list: seq<System>, s: System, s': System)
    requires ListFine(list) && s in list && s' in list && s.id == s'.id
    ensures s == s'
  {
  }

  lemma StoredKeepRowIds(list: seq<System>, out: seq<System>)
    requires ListFine(list) && !Unstored(list) && Reloaded(out, list)
    ensures forall s, o | s in list && o in out && o.id == s.id :: o.rowId == s.rowId
  {
    hide ListFine, Reloaded;
    forall s, o | s in list && o in out && o.id == s.id ensures o.rowId == s.rowId {
      var s' := ReloadedIsListed(out, list, o);
      OneSystemPerId(list, s, s');
    }
  }
}
