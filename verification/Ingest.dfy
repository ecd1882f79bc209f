/** Ingesting calls: memory and tables of the configuration over any run. */
module Ingest {
  import opened Feed
  import opened Rows
  import opened Store
  import opened StoreRoundTrip
  import opened Population
  import L = Labels

  /** What memory satisfies at all times: it names every stored system, under row ids already handed out. */
  ghost predicate MemoryFine(list: seq<System>, t: Tables) {
    && ListFine(list) && TablesFine(t) && CoversTable(list, t)
    && forall s | s in list && s.rowId.Some? :: s.rowId.value < t.next
  }

  lemma MemoryTables(list: seq<System>, t: Tables)
    requires MemoryFine(list, t)
    ensures ListFine(list) && TablesFine(t)
  {
  }

  // ---- A list just read ----

  lemma {:induction false} NoBrackets(s: string)
    ensures '[' !in WithoutBrackets(s) && ']' !in WithoutBrackets(s)
  {
    if s != "" {
      NoBrackets(s[1..]);
    }
  }

  lemma ReadSystemFine(o: System, t: Tables)
    requires TablesFine(t) && IsSystemReading(o, t)
    ensures ChildrenDistinct(o) && Normal(o) && 0 < o.rowId.value < t.next
  {
    NoBrackets(t.systems[o.rowId.value].blacklists);
    forall r | r in o.talkgroups ensures ReadTalkgroup(r.fields) == r.fields {
    }
  }

  lemma ReadListFine(out: seq<System>, t: Tables)
    requires TablesFine(t) && Store.IsReading(out, t)
    ensures MemoryFine(out, t)
  {
    hide IsRowReading, ChildrenDistinct, Normal;
    forall o | o in out ensures ChildrenDistinct(o) && Normal(o) && o.rowId.Some? && 0 < o.rowId.value < t.next {
      assert IsSystemReading(o, t);
      ReadSystemFine(o, t);
    }
    forall i, j | 0 <= i < j < |out| ensures out[i].id != out[j].id {
      assert IsSystemReading(out[i], t) && IsSystemReading(out[j], t);
    }
    forall r | r in t.systems ensures Lists(out, r, t.systems[r].id) {
      var o :| o in out && o.rowId == Some(r);
      assert IsSystemReading(o, t);
    }
  }

  // ---- Memory after a call ----

  lemma WithSystemFine(list: seq<System>, t: Tables, c: Incoming, auto: bool)
    requires MemoryFine(list, t)
    ensures MemoryFine(WithSystem(list, c, auto), t)
  {
  }

  lemma ReplacedFine(list: seq<System>, t: Tables, i: nat, e: System)
    requires MemoryFine(list, t) && i < |list|
    requires e.id == list[i].id && e.rowId == list[i].rowId && ChildrenDistinct(e) && Normal(e)
    ensures MemoryFine(list[i := e], t)
  {
    hide ChildrenDistinct, Normal;
    var l := list[i := e];
    assert list[i] in list;
    forall s | s in l ensures s == e || s in list {
    }
    forall r | r in t.systems ensures Lists(l, r, t.systems[r].id) {
      var s :| s in list && s.rowId == Some(r) && s.id == t.systems[r].id;
      var j :| 0 <= j < |list| && list[j] == s;
      assert l[j] in l;
    }
  }

  lemma GrownFine(list: seq<System>, t: Tables, c: Incoming, auto: bool, groupId: nat, tagId: nat)
    requires MemoryFine(list, t)
    ensures MemoryFine(Grown(list, c, auto, groupId, tagId), t)
  {
    hide MemoryFine, Enriched;
    if Populating(list, c, auto) {
      SystemIsThere(list, c, auto);
      WithSystemFine(list, t, c, auto);
      var l := WithSystem(list, c, auto);
      var i := SystemAt(l, c.system);
      MemberFine(l, t, i);
      EnrichedFine(l[i], c, groupId, tagId);
      ReplacedFine(l, t, i, Enriched(l[i], c, groupId, tagId));
    }
  }

  lemma MemberFine(list: seq<System>, t: Tables, i: nat)
    requires MemoryFine(list, t) && i < |list|
    ensures ChildrenDistinct(list[i]) && Normal(list[i])
  {
  }

  // ---- Memory and tables agree ----

  lemma SameSystemSameRows(a: System, b: System, t: Tables)
    requires IsSystemReading(a, t) && IsSystemReading(b, t) && a.id == b.id
    ensures forall r :: r in a.talkgroups <==> r in b.talkgroups
    ensures forall id :: HasId(a.units, id) <==> HasId(b.units, id)
  {
  }

  lemma ChangeShows(s: System, c: Incoming, groupId: nat, tagId: nat)
    requires ChildrenDistinct(s) && Enriched(s, c, groupId, tagId) != s
    ensures
      var e := Enriched(s, c, groupId, tagId);
      (exists r | r in e.talkgroups :: r !in s.talkgroups) || (exists id :: HasId(e.units, id) && !HasId(s.units, id))
  {
    var e := Enriched(s, c, groupId, tagId);
    var j := RowAt(s.talkgroups, c.talkgroup);
    if j == -1 {
      var a := WithTalkgroup(s, c, groupId, tagId);
      assert a.talkgroups[|s.talkgroups|] in a.talkgroups;
      var k := RowAt(a.talkgroups, c.talkgroup);
      assert e.talkgroups[k] in e.talkgroups && e.talkgroups[k].id == c.talkgroup;
    } else if e.talkgroups != s.talkgroups {
      assert e.talkgroups[j] in e.talkgroups && e.talkgroups[j].id == c.talkgroup && e.talkgroups[j] != s.talkgroups[j];
    } else {
      MergedUnits(s.units, c.units.value);
      var u :| u in c.units.value && RowAt(s.units, u.id) == -1;
      assert HasId(e.units, u.id) && !HasId(s.units, u.id);
    }
  }

  /** A changed system is no longer what the tables say. */
  lemma ChangedDisagrees(s: System, t: Tables, c: Incoming, groupId: nat, tagId: nat)
    requires IsSystemReading(s, t) && ChildrenDistinct(s) && Enriched(s, c, groupId, tagId) != s
    ensures Enriched(s, c, groupId, tagId).id == s.id ==> !IsSystemReading(Enriched(s, c, groupId, tagId), t)
  {
    hide Enriched;
    var e := Enriched(s, c, groupId, tagId);
    ChangeShows(s, c, groupId, tagId);
    if e.id == s.id && IsSystemReading(e, t) {
      SameSystemSameRows(e, s, t);
    }
  }

  lemma ReadingMember(list: seq<System>, t: Tables, i: nat)
    requires Store.IsReading(list, t) && i < |list|
    ensures IsSystemReading(list[i], t)
  {
  }

  lemma KnownSystemUnsaved(list: seq<System>, t: Tables, c: Incoming, i: nat, groupId: nat, tagId: nat)
    requires Store.IsReading(list, t) && TablesFine(t) && i < |list|
    requires Store.IsReading(list[i := Enriched(list[i], c, groupId, tagId)], t)
    ensures Enriched(list[i], c, groupId, tagId) == list[i]
  {
    hide IsSystemReading, Enriched, MemoryFine, Store.IsReading;
    var e := Enriched(list[i], c, groupId, tagId);
    ReadListFine(list, t);
    MemberFine(list, t, i);
    EnrichedFine(list[i], c, groupId, tagId);
    ReadingMember(list, t, i);
    ReadingMember(list[i := e], t, i);
    if e != list[i] {
      ChangedDisagrees(list[i], t, c, groupId, tagId);
    }
  }

  lemma NewSystemUnsaved(list: seq<System>, t: Tables, c: Incoming, i: nat, groupId: nat, tagId: nat)
    requires i < |list| && list[i] == Enriched(NewSystem(c), c, groupId, tagId)
    ensures !Store.IsReading(list, t)
  {
    hide IsSystemReading, Store.IsReading;
    EnrichedFineNew(c, groupId, tagId);
    UnstoredIsNoReading(list[i], t);
    if Store.IsReading(list, t) {
      ReadingMember(list, t, i);
    }
  }

  /** Unsaved, the configuration in memory agrees with the tables exactly when the call changed nothing. */
  lemma UnsavedAgreement(list: seq<System>, t: Tables, c: Incoming, auto: bool, groupId: nat, tagId: nat)
    requires Store.IsReading(list, t) && TablesFine(t)
    ensures Store.IsReading(Grown(list, c, auto, groupId, tagId), t) <==> Grown(list, c, auto, groupId, tagId) == list
  {
    hide Enriched, Store.IsReading;
    var g := Grown(list, c, auto, groupId, tagId);
    if Populating(list, c, auto) {
      SystemIsThere(list, c, auto);
      var l := WithSystem(list, c, auto);
      var i := SystemAt(l, c.system);
      assert g == l[i := Enriched(l[i], c, groupId, tagId)];
      if SystemAt(list, c.system) == -1 {
        assert l[i] == NewSystem(c);
        assert |g| == |list| + 1;
        NewSystemUnsaved(g, t, c, i, groupId, tagId);
      } else {
        assert l == list;
        if Store.IsReading(g, t) {
          KnownSystemUnsaved(list, t, c, i, groupId, tagId);
          assert g == list;
        }
      }
    }
  }

  lemma EnrichedFineNew(c: Incoming, groupId: nat, tagId: nat)
    ensures Enriched(NewSystem(c), c, groupId, tagId).rowId.None?
  {
  }

  lemma UnstoredIsNoReading(s: System, t: Tables)
    ensures IsSystemReading(s, t) ==> s.rowId.Some?
  {
  }

  // ---- References ----

  predicate Resolves(t: Talkgroup, groups: L.LabelTable, tags: L.LabelTable) {
    t.fields.groupId in groups.rows && t.fields.tagId in tags.rows
  }

  predicate Grows(a: L.LabelTable, b: L.LabelTable) {
    forall i | i in a.rows :: i in b.rows && b.rows[i] == a.rows[i]
  }

  ghost predicate HadTalkgroup(list: seq<System>, sys: nat, t: Talkgroup) {
    exists s | s in list :: s.id == sys && exists t0 | t0 in s.talkgroups ::
      t0.id == t.id && t0.fields.groupId == t.fields.groupId && t0.fields.tagId == t.fields.tagId
  }

  /** Every talkgroup is an old one with its group and tag, or refers to a stored group and tag. */
  ghost predicate RefersWell(now: seq<System>, before: seq<System>, groups: L.LabelTable, tags: L.LabelTable) {
    forall s | s in now :: forall t | t in s.talkgroups :: Resolves(t, groups, tags) || HadTalkgroup(before, s.id, t)
  }

  lemma GrownRefersWell(list: seq<System>, t: Tables, c: Incoming, auto: bool, groupId: nat, tagId: nat,
                        groups: L.LabelTable, tags: L.LabelTable)
    requires MemoryFine(list, t)
    requires Populating(list, c, auto) && LacksTalkgroup(list, c) ==> groupId in groups.rows && tagId in tags.rows
    ensures RefersWell(Grown(list, c, auto, groupId, tagId), list, groups, tags)
  {
    hide MemoryFine, Enriched;
    var g := Grown(list, c, auto, groupId, tagId);
    forall s, u | s in g && u in s.talkgroups ensures Resolves(u, groups, tags) || HadTalkgroup(list, s.id, u) {
      if s !in list {
        SystemIsThere(list, c, auto);
        var l := WithSystem(list, c, auto);
        var i := SystemAt(l, c.system);
        WithSystemFine(list, t, c, auto);
        MemberFine(l, t, i);
        EnrichedFine(l[i], c, groupId, tagId);
        if SystemAt(list, c.system) != -1 {
          assert l[i] in list;
        }
      }
    }
  }

  lemma ReloadRefersWell(now: seq<System>, middle: seq<System>, before: seq<System>, groups: L.LabelTable,
                         tags: L.LabelTable)
    requires Reloaded(now, middle) && RefersWell(middle, before, groups, tags)
    ensures RefersWell(now, before, groups, tags)
  {
    hide Reloaded;
    forall o, u | o in now && u in o.talkgroups ensures Resolves(u, groups, tags) || HadTalkgroup(before, o.id, u) {
      var s := ReloadedIsListed(now, middle, o);
      assert u in multiset(o.talkgroups);
      assert u in s.talkgroups;
    }
  }

  lemma RefersWellTrans(now: seq<System>, middle: seq<System>, before: seq<System>,
                        g1: L.LabelTable, t1: L.LabelTable, g2: L.LabelTable, t2: L.LabelTable)
    requires RefersWell(middle, before, g1, t1) && RefersWell(now, middle, g2, t2) && Grows(g1, g2) && Grows(t1, t2)
    ensures RefersWell(now, before, g2, t2)
  {
  }

  lemma UnchangedRefersWell(list: seq<System>, groups: L.LabelTable, tags: L.LabelTable)
    ensures RefersWell(list, list, groups, tags)
  {
  }

  lemma NewSystemRefersWell(list: seq<System>, c: Incoming, auto: bool, groups: L.LabelTable, tags: L.LabelTable)
    ensures RefersWell(WithSystem(list, c, auto), list, groups, tags)
  {
  }

  lemma NewSystemAgreement(list: seq<System>, t: Tables, c: Incoming, auto: bool)
    requires Store.IsReading(list, t)
    ensures Store.IsReading(WithSystem(list, c, auto), t) <==> !auto || SystemAt(list, c.system) != -1
  {
    hide IsSystemReading, Store.IsReading;
    var l := WithSystem(list, c, auto);
    if auto && SystemAt(list, c.system) == -1 {
      UnstoredIsNoReading(l[|list|], t);
      if Store.IsReading(l, t) {
        ReadingMember(l, t, |list|);
      }
    }
  }

  /** A call that is not saved leaves memory and tables in agreement exactly when it loses nothing, and a call
      that is saved loses nothing. */
  lemma UnsavedLoses(list: seq<System>, t: Tables, c: Incoming, auto: bool, groupId: nat, tagId: nat)
    requires Store.IsReading(list, t) && MemoryFine(list, t)
    ensures !Saves(list, c, auto) ==>
              (Store.IsReading(Grown(list, c, auto, groupId, tagId), t) <==> !Loses(list, c, auto))
    ensures Saves(list, c, auto) ==> !Loses(list, c, auto)
  {
    hide Store.IsReading, Grown;
    GrownChanges(list, c, auto, groupId, tagId);
    UnsavedAgreement(list, t, c, auto, groupId, tagId);
  }
}
