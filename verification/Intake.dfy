/** What a call that is taken in leaves in memory, said of the systems themselves: the labels and names, the units, and
    everything that stays as it was. */
module Intake {
  import opened Feed
  import opened Rows
  import opened Store
  import opened StoreRoundTrip
  import opened Population

  // ---- One talkgroup ----

  /** The name it has now: the given one, else the one it had, else its label. */
  predicate NamedBy(f: TalkgroupFields, name: string, c: Incoming) {
    f.name == (if c.talkgroupName.Some? then c.talkgroupName.value else if name != "" then name else f.caption)
  }

  /** A known talkgroup keeps all but label and name. */
  predicate IsRelabelled(t': Talkgroup, t: Talkgroup, c: Incoming) {
    && t'.id == t.id && t'.order == t.order
    && t'.fields.groupId == t.fields.groupId && t'.fields.tagId == t.fields.tagId
    && t'.fields.frequency == t.fields.frequency && t'.fields.led == t.fields.led
    && t'.fields.caption == (if c.talkgroupLabel.Some? then c.talkgroupLabel.value else t.fields.caption)
    && NamedBy(t'.fields, t.fields.name, c)
  }

  /** A new one is labelled with its number unless the call says otherwise. */
  predicate IsCreated(t': Talkgroup, c: Incoming, groupId: nat, tagId: nat) {
    && t'.id == c.talkgroup && t'.order == 0
    && t'.fields.groupId == groupId && t'.fields.tagId == tagId
    && t'.fields.frequency == None && t'.fields.led == None
    && t'.fields.caption == (if c.talkgroupLabel.Some? then c.talkgroupLabel.value else Decimal(c.talkgroup))
    && NamedBy(t'.fields, "", c)
  }

  /** Only the call's own talkgroup is new or changed. */
  ghost predicate TalkgroupsTaken(now: seq<Talkgroup>, was: seq<Talkgroup>, c: Incoming, groupId: nat, tagId: nat) {
    && (forall t: Talkgroup | t.id != c.talkgroup :: t in now <==> t in was)
    && HasId(now, c.talkgroup)
    && forall t' | t' in now && t'.id == c.talkgroup ::
         if HasId(was, c.talkgroup) then exists t | t in was && t.id == c.talkgroup :: IsRelabelled(t', t, c)
         else IsCreated(t', c, groupId, tagId)
  }

  lemma EnrichedTalkgroups(s: System, c: Incoming, groupId: nat, tagId: nat)
    requires ChildrenDistinct(s)
    ensures TalkgroupsTaken(Enriched(s, c, groupId, tagId).talkgroups, s.talkgroups, c, groupId, tagId)
  {
    if RowAt(s.talkgroups, c.talkgroup) != -1 {
      KnownTalkgroup(s, c, groupId, tagId);
    } else {
      NewOne(s, c, groupId, tagId);
    }
  }

  lemma KnownTalkgroup(s: System, c: Incoming, groupId: nat, tagId: nat)
    requires ChildrenDistinct(s) && RowAt(s.talkgroups, c.talkgroup) != -1
    ensures TalkgroupsTaken(Enriched(s, c, groupId, tagId).talkgroups, s.talkgroups, c, groupId, tagId)
  {
    var was, now, i := s.talkgroups, Enriched(s, c, groupId, tagId).talkgroups, RowAt(s.talkgroups, c.talkgroup);
    assert was[i] in was && now == was[i := now[i]] && IsRelabelled(now[i], was[i], c);
    OneReplaced(was, i, now[i]);
    hide Enriched, IsRelabelled, IsCreated;
  }

  lemma NewOne(s: System, c: Incoming, groupId: nat, tagId: nat)
    requires ChildrenDistinct(s) && RowAt(s.talkgroups, c.talkgroup) == -1
    ensures TalkgroupsTaken(Enriched(s, c, groupId, tagId).talkgroups, s.talkgroups, c, groupId, tagId)
  {
    var t := RelabelledRow(NewTalkgroup(c, groupId, tagId), c);
    assert IsCreated(t, c, groupId, tagId);
    hide RelabelledRow, NewTalkgroup, IsRelabelled, IsCreated, Enriched, RowAt;
    OneAppended(s, c, groupId, tagId);
    assert (s.talkgroups + [t])[|s.talkgroups|] == t;
  }

  lemma OneAppended(s: System, c: Incoming, groupId: nat, tagId: nat)
    requires ChildrenDistinct(s) && RowAt(s.talkgroups, c.talkgroup) == -1
    ensures Enriched(s, c, groupId, tagId).talkgroups ==
            s.talkgroups + [RelabelledRow(NewTalkgroup(c, groupId, tagId), c)]
  {
    var n, t := |s.talkgroups|, NewTalkgroup(c, groupId, tagId);
    assert t.id == c.talkgroup && RelabelledRow(t, c).id == c.talkgroup;
    hide RelabelledRow, NewTalkgroup, Merged;
    var grown := s.talkgroups + [t];
    assert WithTalkgroup(s, c, groupId, tagId).talkgroups == grown && grown[n] == t && t in grown;
    assert RowAt(grown, c.talkgroup) == n;
    assert grown[n := RelabelledRow(t, c)] == s.talkgroups + [RelabelledRow(t, c)];
  }

  lemma OneReplaced(was: seq<Talkgroup>, i: nat, t: Talkgroup)
    requires DistinctIds(was) && i < |was| && t.id == was[i].id
    ensures forall x :: x in was[i := t] <==> x == t || (x in was && x.id != t.id)
  {
    var now := was[i := t];
    forall x ensures x in now <==> x == t || (x in was && x.id != t.id) {
      if x in was && x.id != t.id {
        var j :| 0 <= j < |was| && was[j] == x;
        assert now[j] == x;
      }
      if x in now {
        var j :| 0 <= j < |now| && now[j] == x;
        assert j != i ==> was[j] == x && was[j].id != was[i].id;
      }
      assert now[i] in now;
    }
  }

  // ---- Units ----

  /** The first unit the call names with that id has that label. */
  ghost predicate FirstNamed(more: seq<Unit>, u: Unit) {
    exists i | 0 <= i < |more| ::
      more[i].id == u.id && more[i].fields == u.fields && forall j | 0 <= j < i :: more[j].id != u.id
  }

  /** Known units stay as they are, each unknown id the call names is added with the first label given for it. */
  ghost predicate UnitsTaken(now: seq<Unit>, was: seq<Unit>, c: Incoming) {
    var more := if c.units.Some? then c.units.value else [];
    && (forall u | u in was :: u in now)
    && (forall u | u in now && u !in was :: !HasId(was, u.id) && u.order == 0 && FirstNamed(more, u))
    && (forall u | u in more :: HasId(now, u.id))
  }

  lemma NamedLater(more: seq<Unit>, u: Unit)
    requires more != [] && more[0].id != u.id && FirstNamed(more[1..], u)
    ensures FirstNamed(more, u)
  {
    var i :| 0 <= i < |more| - 1 && more[1..][i].id == u.id && more[1..][i].fields == u.fields &&
             forall j | 0 <= j < i :: more[1..][j].id != u.id;
    assert more[i + 1] == more[1..][i];
    assert forall j | 0 < j < i + 1 :: more[j] == more[1..][j - 1];
  }

  lemma {:induction false} MergedIsNamed(units: seq<Unit>, more: seq<Unit>, u: Unit)
    requires DistinctIds(units) && u in Merged(units, more) && u !in units
    ensures !HasId(units, u.id) && u.order == 0 && FirstNamed(more, u)
    decreases |more|
  {
    var v, next := more[0], Added(units, more[0]);
    AddedUnits(units, v);
    if u in next {
      assert u == Row(v.id, 0, v.fields) && !HasId(units, v.id);
      assert more[0].id == u.id;
    } else {
      MergedIsNamed(next, more[1..], u);
      assert HasId(next, v.id);
      NamedLater(more, u);
    }
  }

  lemma MergedTaken(units: seq<Unit>, c: Incoming)
    requires DistinctIds(units)
    ensures UnitsTaken(if c.units.Some? then Merged(units, c.units.value) else units, units, c)
  {
    if c.units.Some? {
      var now := Merged(units, c.units.value);
      MergedUnits(units, c.units.value);
      forall u | u in now && u !in units
        ensures !HasId(units, u.id) && u.order == 0 && FirstNamed(c.units.value, u)
      {
        MergedIsNamed(units, c.units.value, u);
      }
      forall u | u in c.units.value ensures HasId(now, u.id) {
        assert HasId(c.units.value, u.id);
      }
    }
  }

  // ---- One system ----

  predicate SameFields(now: System, was: System) {
    && (was.rowId.Some? ==> now.rowId == was.rowId)
    && now.id == was.id && now.autoPopulate == was.autoPopulate && now.blacklists == was.blacklists
    && now.caption == was.caption && now.led == was.led && now.order == was.order
  }

  /** An untouched system; reading it back may have moved what is of equal order. */
  predicate Untouched(now: System, was: System) {
    && SameFields(now, was)
    && multiset(now.talkgroups) == multiset(was.talkgroups) && multiset(now.units) == multiset(was.units)
  }

  ghost predicate SystemTaken(now: System, was: System, c: Incoming, groupId: nat, tagId: nat) {
    && SameFields(now, was)
    && TalkgroupsTaken(now.talkgroups, was.talkgroups, c, groupId, tagId) && UnitsTaken(now.units, was.units, c)
  }

  ghost predicate SystemCreated(now: System, c: Incoming, groupId: nat, tagId: nat) {
    && now.id == c.system && !now.autoPopulate && now.blacklists == "" && now.led == None && now.order == 0
    && now.caption == (if c.systemLabel.Some? then c.systemLabel.value else "System " + Decimal(c.system))
    && TalkgroupsTaken(now.talkgroups, [], c, groupId, tagId) && UnitsTaken(now.units, [], c)
  }

  // ---- The systems ----

  ghost predicate HasSystem(list: seq<System>, sys: nat) {
    exists s | s in list :: s.id == sys
  }

  /** Only the call's own system is new or changed, and it holds what the call says. */
  ghost predicate TakenIn(now: seq<System>, was: seq<System>, c: Incoming, groupId: nat, tagId: nat) {
    && (forall s | s in was && s.id != c.system :: exists s' | s' in now :: Untouched(s', s))
    && (forall s' | s' in now && s'.id != c.system :: exists s | s in was :: Untouched(s', s))
    && HasSystem(now, c.system)
    && forall s' | s' in now && s'.id == c.system ::
         if HasSystem(was, c.system) then exists s | s in was && s.id == c.system ::
           SystemTaken(s', s, c, groupId, tagId)
         else SystemCreated(s', c, groupId, tagId)
  }

  lemma EnrichedTaken(s: System, c: Incoming, groupId: nat, tagId: nat)
    requires ChildrenDistinct(s)
    ensures SystemTaken(Enriched(s, c, groupId, tagId), s, c, groupId, tagId)
  {
    hide TalkgroupsTaken, UnitsTaken;
    EnrichedTalkgroups(s, c, groupId, tagId);
    MergedTaken(s.units, c);
  }

  lemma EnrichedCreates(c: Incoming, groupId: nat, tagId: nat)
    ensures SystemCreated(Enriched(NewSystem(c), c, groupId, tagId), c, groupId, tagId)
  {
    hide TalkgroupsTaken, UnitsTaken;
    EnrichedTalkgroups(NewSystem(c), c, groupId, tagId);
    MergedTaken([], c);
  }

  lemma OtherSystems(list: seq<System>, i: nat, e: System)
    requires ListFine(list) && i < |list| && e.id == list[i].id
    ensures forall s: System | s.id != e.id :: s in list[i := e] <==> s in list
    ensures forall s | s in list[i := e] && s.id == e.id :: s == e
    ensures e in list[i := e]
  {
    var now := list[i := e];
    assert now[i] == e;
    forall s: System | s.id != e.id ensures s in now <==> s in list {
      if s in list {
        var j :| 0 <= j < |list| && list[j] == s;
        assert now[j] == s;
      }
    }
  }

  /** Memory once the call has been taken in, before any saving. */
  lemma GrownTakesIn(list: seq<System>, c: Incoming, auto: bool, groupId: nat, tagId: nat)
    requires ListFine(list) && Populating(list, c, auto)
    ensures TakenIn(Grown(list, c, auto, groupId, tagId), list, c, groupId, tagId)
  {
    hide Enriched, SystemTaken, SystemCreated, Normal;
    var i := SystemAt(list, c.system);
    if i != -1 {
      var e := Enriched(list[i], c, groupId, tagId);
      assert list[i] in list;
      EnrichedTaken(list[i], c, groupId, tagId);
      EnrichedKeepsId(list[i], c, groupId, tagId);
      OtherSystems(list, i, e);
      assert Grown(list, c, auto, groupId, tagId) == list[i := e];
      forall s | s in list ensures Untouched(s, s) { }
    } else {
      var e := Enriched(NewSystem(c), c, groupId, tagId);
      NewSystemAt(list, c, auto);
      EnrichedCreates(c, groupId, tagId);
      EnrichedKeepsId(NewSystem(c), c, groupId, tagId);
      assert Grown(list, c, auto, groupId, tagId) == list + [e];
      forall s | s in list ensures Untouched(s, s) { }
    }
  }

  /** A call that fails on its group label leaves the systems as they were, but for one that it creates first. */
  lemma CreatedFirst(list: seq<System>, c: Incoming, auto: bool)
    ensures
      var now := WithSystem(list, c, auto);
      if !auto || HasSystem(list, c.system) then now == list
      else
        && |now| == |list| + 1 && list <= now
        && var s := now[|list|];
           && s.rowId == None && s.id == c.system && !s.autoPopulate && s.blacklists == "" && s.led == None &&
                s.order == 0
           && s.caption == (if c.systemLabel.Some? then c.systemLabel.value else "System " + Decimal(c.system))
           && s.talkgroups == [] && s.units == []
  {
    var i := SystemAt(list, c.system);
    if i != -1 { assert list[i] in list; }
  }

  lemma EnrichedKeepsId(s: System, c: Incoming, groupId: nat, tagId: nat)
    ensures Enriched(s, c, groupId, tagId).id == s.id
  {
  }

  lemma SameMembers<V>(a: seq<V>, b: seq<V>)
    requires multiset(a) == multiset(b)
    ensures forall x :: x in a <==> x in b
  {
    assert forall x :: (x in a <==> x in multiset(a)) && (x in b <==> x in multiset(b));
  }

  lemma SameTalkgroupsTaken(a: seq<Talkgroup>, b: seq<Talkgroup>, was: seq<Talkgroup>, c: Incoming, groupId: nat,
                            tagId: nat)
    requires multiset(a) == multiset(b) && TalkgroupsTaken(b, was, c, groupId, tagId)
    ensures TalkgroupsTaken(a, was, c, groupId, tagId)
  {
    hide IsRelabelled, IsCreated;
    SameMembers(a, b);
  }

  lemma SameUnitsTaken(a: seq<Unit>, b: seq<Unit>, was: seq<Unit>, c: Incoming)
    requires multiset(a) == multiset(b) && UnitsTaken(b, was, c)
    ensures UnitsTaken(a, was, c)
  {
    hide FirstNamed;
    SameMembers(a, b);
    forall u | u in was ensures u in a {
      assert u in b;
    }
  }

  lemma SameSystemTaken(o: System, s: System, was: System, c: Incoming, groupId: nat, tagId: nat)
    requires SameSystem(o, s)
    ensures SystemTaken(s, was, c, groupId, tagId) ==> SystemTaken(o, was, c, groupId, tagId)
    ensures SystemCreated(s, c, groupId, tagId) ==> SystemCreated(o, c, groupId, tagId)
    ensures Untouched(s, was) ==> Untouched(o, was)
  {
    hide TalkgroupsTaken, UnitsTaken;
    if SystemTaken(s, was, c, groupId, tagId) {
      SameTalkgroupsTaken(o.talkgroups, s.talkgroups, was.talkgroups, c, groupId, tagId);
      SameUnitsTaken(o.units, s.units, was.units, c);
    }
    if SystemCreated(s, c, groupId, tagId) {
      SameTalkgroupsTaken(o.talkgroups, s.talkgroups, [], c, groupId, tagId);
      SameUnitsTaken(o.units, s.units, [], c);
    }
  }

  /** The same after saving and reading back. */
  lemma ReloadedTakesIn(now: seq<System>, middle: seq<System>, was: seq<System>, c: Incoming, groupId: nat, tagId: nat)
    requires Reloaded(now, middle) && TakenIn(middle, was, c, groupId, tagId)
    ensures TakenIn(now, was, c, groupId, tagId)
  {
    hide Reloaded, SystemTaken, SystemCreated, Untouched, SameSystem;
    forall s' | s' in now
      ensures s'.id != c.system ==> exists s | s in was :: Untouched(s', s)
      ensures s'.id == c.system ==>
                if HasSystem(was, c.system) then
                  exists s | s in was && s.id == c.system :: SystemTaken(s', s, c, groupId, tagId)
                else SystemCreated(s', c, groupId, tagId)
    {
      var m := ReloadedIsListed(now, middle, s');
      if s'.id != c.system {
        var s :| s in was && Untouched(m, s);
        SameSystemTaken(s', m, s, c, groupId, tagId);
      } else if HasSystem(was, c.system) {
        var s :| s in was && s.id == c.system && SystemTaken(m, s, c, groupId, tagId);
        SameSystemTaken(s', m, s, c, groupId, tagId);
      } else {
        SameSystemTaken(s', m, m, c, groupId, tagId);
      }
    }
    forall s | s in was && s.id != c.system ensures exists s' | s' in now :: Untouched(s', s) {
      var m :| m in middle && Untouched(m, s);
      var s' := ListedIsReloaded(now, middle, m);
      SameSystemTaken(s', m, s, c, groupId, tagId);
    }
    var m :| m in middle && m.id == c.system;
    var s' := ListedIsReloaded(now, middle, m);
  }

  lemma ListedIsReloaded(now: seq<System>, middle: seq<System>, s: System) returns (o: System)
    requires Reloaded(now, middle) && s in middle
    ensures o in now && SameSystem(o, s) && o.id == s.id
  {
    hide SortedSystems, SortedRows, Ids;
    o :| o in now && SameSystem(o, s);
  }

  // ---- Which calls are taken in, refused and saved ----

  /** Commas separate the entries of a blacklist: put back between them they give the text. */
  function WithCommas(entries: seq<string>): string
    requires entries != []
  {
    if |entries| == 1 then entries[0] else entries[0] + "," + WithCommas(entries[1..])
  }

  lemma {:induction false} EntriesAreSeparated(s: string)
    ensures WithCommas(Entries(s)) == s && forall e | e in Entries(s) :: ',' !in e
  {
    if s != "" {
      EntriesAreSeparated(s[1..]);
      var rest := Entries(s[1..]);
      if s[0] == ',' {
        assert ([""] + rest)[1..] == rest;
      } else {
        var first := [s[0]] + rest[0];
        assert Entries(s)[1..] == rest[1..];
        assert s == [s[0]] + s[1..];
      }
    }
  }

  /** What the conditions of ingestion mean for a list with distinct ids. */
  lemma Conditions(list: seq<System>, c: Incoming, auto: bool)
    requires ListFine(list)
    ensures Populating(list, c, auto) <==> auto || exists s | s in list :: s.id == c.system && s.autoPopulate
    ensures LacksTalkgroup(list, c) <==> !exists s | s in list :: s.id == c.system && HasId(s.talkgroups, c.talkgroup)
    ensures Population.Blacklisted(list, c) <==>
              exists s | s in list :: s.id == c.system && Decimal(c.talkgroup) in Entries(s.blacklists)
    ensures Saves(list, c, auto) <==>
              Populating(list, c, auto) &&
              if c.units.Some? then
                exists u | u in c.units.value :: !exists s | s in list :: s.id == c.system && HasId(s.units, u.id)
              else LacksTalkgroup(list, c) || IsRenamed(list, c)
  {
    hide Normal, ChildrenDistinct, DistinctIds;
    var i := SystemAt(list, c.system);
    if i != -1 {
      assert list[i] in list;
    }
  }

  /** Its talkgroup has another label or name than the call gives, or no name and the call gives none. */
  ghost predicate IsRenamed(list: seq<System>, c: Incoming) {
    exists s | s in list && s.id == c.system ::
      var j := RowAt(s.talkgroups, c.talkgroup);
      j != -1 &&
      var f := s.talkgroups[j].fields;
      (c.talkgroupLabel.Some? && c.talkgroupLabel.value != f.caption) ||
      (if c.talkgroupName.Some? then c.talkgroupName.value != f.name else f.name == "")
  }
}
