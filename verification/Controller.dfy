/** The controller's configuration: lists in memory beside their tables, changed by every ingested call. */
module ControllerService {
  import opened Feed
  import opened Rows
  import opened Store
  import opened StoreRoundTrip
  import opened Population
  import opened Ingest
  import opened Intake
  import L = Labels

  /** Groups or tags. Reading groups skips empty labels, reading tags does not. */
  class LabelBook {
    var list: seq<L.Label>
    var table: L.LabelTable
    const skipEmpty: bool

    ghost predicate Valid()
      reads this
    {
      L.TableFine(table) && L.IsReading(list, table, skipEmpty)
    }

    constructor (stored: L.LabelTable, skipEmpty: bool)
      requires L.TableFine(stored)
      ensures Valid() && table == stored && this.skipEmpty == skipEmpty
    {
      this.skipEmpty := skipEmpty;
      table := stored;
      new;
      list := L.Read(table, skipEmpty);
    }

    method Reread()
      requires Valid()
      modifies this
      ensures Valid() && table == old(table)
    {
      list := L.Read(table, skipEmpty);
    }

    /** The id of the label, stored first if need be. It fails only for the empty label where reading skips it. */
    method Resolve(text: string) returns (id: Option<nat>)
      requires Valid()
      modifies this
      ensures Valid() && Grows(old(table), table)
      ensures id.None? <==> skipEmpty && text == ""
      ensures id.Some? ==> id.value in table.rows && table.rows[id.value] == text
      ensures (exists l | l in old(list) :: l.text == text) ==> list == old(list) && table == old(table)
      ensures !(exists l | l in old(list) :: l.text == text) ==>
                table == L.LabelTable(old(table).rows[old(table).next := text], old(table).next + 1) &&
                (id.Some? ==> id.value == old(table).next)
      ensures text != "" ==> L.KeepsOnce(old(table), table)
    {
      hide L.Written, L.FindText, L.KeepsOnce;
      var found := L.FindText(list, text);
      L.FoundText(list, text);
      if found.Some? {
        L.SameKeepsOnce(table);
        return found.value.id;
      }
      L.AddOne(list, table, skipEmpty, text);
      L.NotStored(list, table, skipEmpty, text);
      ghost var before, stored := list, table;
      list := list + [L.Label(None, text)];
      table := L.Write(list, table);
      list := L.Read(table, skipEmpty);
      L.FoundWhereStored(before, list, stored, skipEmpty, text);
      found := L.FindText(list, text);
      id := if found.Some? then found.value.id else None;
    }
  }

  datatype Outcome = Blacklisted | NoLabel | NoMatch | Matched

  class Controller {
    const autoPopulate: bool
    const groups: LabelBook
    const tags: LabelBook
    var systems: seq<System>
    var tables: Tables

    ghost predicate Valid()
      reads this, groups, tags
    {
      && groups != tags && groups.skipEmpty && !tags.skipEmpty && groups.Valid() && tags.Valid()
      && MemoryFine(systems, tables)
    }

    /** Memory and tables say the same. */
    ghost predicate Agrees()
      reads this
    {
      Store.IsReading(systems, tables)
    }

    constructor (autoPopulate: bool, groups: LabelBook, tags: LabelBook, stored: Tables)
      requires groups != tags && groups.skipEmpty && !tags.skipEmpty && groups.Valid() && tags.Valid() &&
                 TablesFine(stored)
      ensures Valid() && Agrees() && tables == stored
    {
      this.autoPopulate, this.groups, this.tags := autoPopulate, groups, tags;
      tables := stored;
      new;
      systems := Store.Read(tables);
      ReadListFine(systems, tables);
    }

    /** Write, then read: memory becomes a reading of tables that hold what it held. */
    method Save()
      requires Valid()
      modifies this
      ensures Valid() && Agrees() && Reloaded(systems, old(systems)) &&
                tables == Written(old(systems), old(tables)).tables
    {
      hide Store.IsReading, Written, Reloaded;
      ghost var list, t := systems, tables;
      CoveringWaits(list, t);
      WriteStoresExactly(list, t);
      var ok;
      tables, ok := Store.Write(systems, tables);
      systems := Store.Read(tables);
      WriteThenRead(list, t, systems);
      ReadListFine(systems, tables);
    }

    /** Memory becomes a reading of the tables, whatever it held. */
    method Reload()
      requires groups != tags && groups.skipEmpty && !tags.skipEmpty && groups.Valid() && tags.Valid() &&
                 TablesFine(tables)
      modifies this`systems, groups, tags
      ensures Valid() && Agrees()
      ensures groups.table == old(groups.table) && tags.table == old(tags.table)
    {
      hide Store.IsReading, L.IsReading;
      groups.Reread();
      tags.Reread();
      systems := Store.Read(tables);
      ReadListFine(systems, tables);
    }

    /** Labels and units of a call whose talkgroup is there. What merging the units reports overrides what
        was found before. */
    method Enrich(i: nat, c: Incoming, already: bool) returns (populated: bool)
      requires i < |systems| && RowAt(systems[i].talkgroups, c.talkgroup) != -1 && DistinctIds(systems[i].units)
      modifies this`systems
      ensures systems == old(systems)[i := WithUnits(Relabelled(old(systems)[i], c), c)]
      ensures
        var j := RowAt(old(systems)[i].talkgroups, c.talkgroup);
        IsRelabelled(systems[i].talkgroups[j], old(systems)[i].talkgroups[j], c)
      ensures populated == if c.units.Some? then AddsUnit(old(systems)[i].units, c.units.value)
                           else already || NotesLabels(old(systems)[i].talkgroups[
                                                         RowAt(old(systems)[i].talkgroups, c.talkgroup)], c)
    {
      populated := already;
      var j := RowAt(systems[i].talkgroups, c.talkgroup);
      var f := systems[i].talkgroups[j].fields;
      if c.talkgroupLabel.Some? && f.caption != c.talkgroupLabel.value {
        populated := true;
        f := f.(caption := c.talkgroupLabel.value);
      }
      if c.talkgroupName.Some? {
        if f.name != c.talkgroupName.value {
          populated := true;
          f := f.(name := c.talkgroupName.value);
        }
      } else if f.name == "" {
        populated := true;
        f := f.(name := f.caption);
      }
      var t := systems[i].talkgroups[j].(fields := f);
      assert t == RelabelledRow(systems[i].talkgroups[j], c);
      var s := systems[i].(talkgroups := systems[i].talkgroups[j := t]);
      if c.units.Some? {
        var units;
        units, populated := Merge(s.units, c.units.value);
        s := s.(units := units);
      }
      systems := systems[i := s];
    }

    /** The talkgroup of a call in its system, created under its group and tag if it is missing. */
    method AddTalkgroup(i: nat, c: Incoming) returns (ok: bool, groupId: nat, tagId: nat)
      requires i < |systems| && groups != tags && groups.skipEmpty && !tags.skipEmpty && groups.Valid() && tags.Valid()
      modifies this`systems, groups, tags
      ensures groups.Valid() && tags.Valid()
      ensures Grows(old(groups.table), groups.table) && Grows(old(tags.table), tags.table)
      ensures ok <==> RowAt(old(systems)[i].talkgroups, c.talkgroup) != -1 || c.groupLabel != Some("")
      ensures systems == if ok then old(systems)[i := WithTalkgroup(old(systems)[i], c, groupId, tagId)]
                else old(systems)
      ensures ok && RowAt(old(systems)[i].talkgroups, c.talkgroup) == -1 ==>
                groupId in groups.table.rows && groups.table.rows[groupId] == Or(c.groupLabel, "Unknown") &&
                tagId in tags.table.rows && tags.table.rows[tagId] == Or(c.tagLabel, "Untagged")
      ensures RowAt(old(systems)[i].talkgroups, c.talkgroup) != -1 ==>
                groups.table == old(groups.table) && tags.table == old(tags.table)
    {
      hide L.IsReading, L.TableFine;
      ok, groupId, tagId := true, 0, 0;
      if RowAt(systems[i].talkgroups, c.talkgroup) == -1 {
        var g := groups.Resolve(Or(c.groupLabel, "Unknown"));
        if g.None? {
          return false, 0, 0;
        }
        groupId := g.value;
        var t := tags.Resolve(Or(c.tagLabel, "Untagged"));
        tagId := t.value;
        systems := systems[i := WithTalkgroup(systems[i], c, groupId, tagId)];
      }
    }

    /** Taking the call in: the system if it is missing, its talkgroup, the labels and the units. */
    method Populate(c: Incoming) returns (populated: bool, ok: bool, groupId: nat, tagId: nat)
      requires Valid() && !Population.Blacklisted(systems, c)
      modifies this`systems, groups, tags
      ensures Valid()
      ensures Grows(old(groups.table), groups.table) && Grows(old(tags.table), tags.table)
      ensures ok <==> !(Populating(old(systems), c, autoPopulate) && LacksTalkgroup(old(systems), c) &&
                        c.groupLabel == Some(""))
      ensures ok ==> systems == Grown(old(systems), c, autoPopulate, groupId, tagId)
      ensures !ok ==> systems == WithSystem(old(systems), c, autoPopulate)
      ensures ok ==> populated == Saves(old(systems), c, autoPopulate)
      ensures ok && Populating(old(systems), c, autoPopulate) && LacksTalkgroup(old(systems), c) ==>
                groupId in groups.table.rows && groups.table.rows[groupId] == Or(c.groupLabel, "Unknown") &&
                tagId in tags.table.rows && tags.table.rows[tagId] == Or(c.tagLabel, "Untagged")
      ensures !(Populating(old(systems), c, autoPopulate) && LacksTalkgroup(old(systems), c)) ==>
                groups.table == old(groups.table) && tags.table == old(tags.table)
    {
      hide MemoryFine, IsBlacklisted, L.IsReading, L.TableFine, Relabelled, WithTalkgroup, WithUnits, AddsUnit,
           NotesLabels, Normal;
      ghost var before := systems;
      populated, ok, groupId, tagId := false, true, 0, 0;
      var i := SystemAt(systems, c.system);
      if autoPopulate && i == -1 {
        populated := true;
        systems := systems + [NewSystem(c)];
        i := |systems| - 1;
        WithSystemFine(before, tables, c, autoPopulate);
      }
      assert systems == WithSystem(before, c, autoPopulate);
      if autoPopulate || (i != -1 && systems[i].autoPopulate) {
        assert Populating(before, c, autoPopulate);
        SystemIsThere(before, c, autoPopulate);
        if SystemAt(before, c.system) == -1 {
          NewSystemAt(before, c, autoPopulate);
        }
        assert i == SystemAt(systems, c.system);
        MemberFine(systems, tables, i);
        ghost var s := systems[i];
        populated := populated || RowAt(systems[i].talkgroups, c.talkgroup) == -1;
        ok, groupId, tagId := AddTalkgroup(i, c);
        if !ok {
          return;
        }
        EnrichedStarts(s, c, groupId, tagId);
        GrownFine(before, tables, c, autoPopulate, groupId, tagId);
        populated := Enrich(i, c, populated);
        assert systems == Grown(before, c, autoPopulate, groupId, tagId);
      }
    }

    /** Blacklisted calls and calls with an empty new group label change no table; any other call leaves the
        systems it found, grown by what it brings, saved and read back or kept in memory only. Memory and tables
        that agreed agree again exactly when the call does not change the configuration while bringing units
        that are all known, and does not fail on its group label after adding its system. */
    method IngestCall(c: Incoming) returns (outcome: Outcome, groupId: nat, tagId: nat)
      requires Valid()
      modifies this, groups, tags
      ensures Valid()
      ensures Grows(old(groups.table), groups.table) && Grows(old(tags.table), tags.table)
      ensures RefersWell(systems, old(systems), groups.table, tags.table)
      ensures outcome == Blacklisted <==> Population.Blacklisted(old(systems), c)
      ensures outcome == Blacklisted ==> systems == old(systems) && tables == old(tables)
      ensures outcome == NoLabel <==>
                !Population.Blacklisted(old(systems), c) && Populating(old(systems), c, autoPopulate) &&
                                      LacksTalkgroup(old(systems), c) && c.groupLabel == Some("")
      ensures outcome == NoLabel ==> systems == WithSystem(old(systems), c, autoPopulate) && tables == old(tables)
      ensures outcome == NoMatch <==>
                !Population.Blacklisted(old(systems), c) && !Populating(old(systems), c, autoPopulate) &&
                                      LacksTalkgroup(old(systems), c)
      ensures outcome == NoMatch || outcome == Matched ==>
                var grown := Grown(old(systems), c, autoPopulate, groupId, tagId);
                if Saves(old(systems), c, autoPopulate)
                then Agrees() && Reloaded(systems, grown) && tables == Written(grown, old(tables)).tables
                else systems == grown && tables == old(tables)
      ensures outcome == Matched && Populating(old(systems), c, autoPopulate) && LacksTalkgroup(old(systems), c) ==>
                groupId in groups.table.rows && groups.table.rows[groupId] == Or(c.groupLabel, "Unknown") &&
                tagId in tags.table.rows && tags.table.rows[tagId] == Or(c.tagLabel, "Untagged")
      ensures outcome == Matched ==>
                if Populating(old(systems), c, autoPopulate) then TakenIn(systems, old(systems), c, groupId, tagId)
                else systems == old(systems)
      ensures old(Agrees()) ==>
                (Agrees() <==> if outcome == NoLabel then SystemAt(old(systems), c.system) != -1
                               else outcome == Blacklisted || !Loses(old(systems), c, autoPopulate))
    {
      hide MemoryFine, Store.IsReading, Reloaded, Written, Enriched, IsBlacklisted, TakenIn, RefersWell;
      ghost var before, t := systems, tables;
      if Store.IsReading(before, t) {
        NewSystemAgreement(before, t, c, autoPopulate);
      }
      groupId, tagId := 0, 0;
      var i := SystemAt(systems, c.system);
      if i != -1 && IsBlacklisted(systems[i].blacklists, c.talkgroup) {
        UnchangedRefersWell(before, groups.table, tags.table);
        return Blacklisted, 0, 0;
      }
      var matched := Populating(systems, c, autoPopulate) || !LacksTalkgroup(systems, c);
      var populated, ok;
      populated, ok, groupId, tagId := Populate(c);
      if !ok {
        NewSystemRefersWell(before, c, autoPopulate, groups.table, tags.table);
        return NoLabel, 0, 0;
      }
      GrownRefersWell(before, tables, c, autoPopulate, groupId, tagId, groups.table, tags.table);
      ghost var grown := systems;
      if Populating(before, c, autoPopulate) {
        TakenWhenGrown(before, t, c, autoPopulate, groupId, tagId);
      }
      if populated {
        Save();
        ReloadRefersWell(systems, grown, before, groups.table, tags.table);
        if Populating(before, c, autoPopulate) {
          ReloadedTakesIn(systems, grown, before, c, groupId, tagId);
        }
      }
      if Store.IsReading(before, t) {
        UnsavedLoses(before, t, c, autoPopulate, groupId, tagId);
      }
      outcome := if matched then Matched else NoMatch;
    }

    /** The ingest loop: whatever calls arrive, the invariant holds, groups and tags keep their ids, every talkgroup
        is an old one with its group and tag or refers to stored ones, and each call grows memory by what it brings.
        Memory and tables agree at the end if they agreed, or a call was saved, and no call since then spoiled it. */
    method IngestAll(calls: seq<Incoming>) returns (ghost trace: seq<seq<System>>)
      requires Valid()
      modifies this, groups, tags
      ensures Valid()
      ensures Grows(old(groups.table), groups.table) && Grows(old(tags.table), tags.table)
      ensures RefersWell(systems, old(systems), groups.table, tags.table)
      ensures |trace| == |calls| + 1 && trace[0] == old(systems) && trace[|calls|] == systems
      ensures forall i | 0 <= i < |calls| :: IsIngested(trace[i], calls[i], autoPopulate, trace[i + 1])
      ensures Undisturbed(trace, calls, autoPopulate, old(Agrees()), |calls|) ==> Agrees()
    {
      hide MemoryFine, RefersWell, Store.IsReading, IsIngested, Spoils, IsSaved;
      ghost var start, agreed := systems, Agrees();
      UnchangedRefersWell(start, groups.table, tags.table);
      trace := [systems];
      for i := 0 to |calls|
        invariant Valid()
        invariant Grows(old(groups.table), groups.table) && Grows(old(tags.table), tags.table)
        invariant RefersWell(systems, start, groups.table, tags.table)
        invariant |trace| == i + 1 && trace[0] == start && trace[i] == systems
        invariant forall j | 0 <= j < i :: IsIngested(trace[j], calls[j], autoPopulate, trace[j + 1])
        invariant Undisturbed(trace, calls, autoPopulate, agreed, i) ==> Agrees()
      {
        ghost var middle, g, t := systems, groups.table, tags.table;
        IngestNext(calls[i]);
        RefersWellTrans(systems, middle, start, g, t, groups.table, tags.table);
        UndisturbedOnPrefix(trace, systems, calls, autoPopulate, agreed, i);
        trace := trace + [systems];
      }
    }

    /** One call of the loop, by what it does to memory. */
    method IngestNext(c: Incoming)
      requires Valid()
      modifies this, groups, tags
      ensures Valid()
      ensures Grows(old(groups.table), groups.table) && Grows(old(tags.table), tags.table)
      ensures RefersWell(systems, old(systems), groups.table, tags.table)
      ensures IsIngested(old(systems), c, autoPopulate, systems)
      ensures IsSaved(old(systems), c, autoPopulate) ==> Agrees()
      ensures old(Agrees()) && !Spoils(old(systems), c, autoPopulate) ==> Agrees()
    {
      hide MemoryFine, RefersWell, Population.Blacklisted, Populating, LacksTalkgroup, Grown, Saves, Loses,
           Store.IsReading, Reloaded, Written, TakenIn;
      ghost var before := systems;
      var outcome, groupId, tagId := IngestCall(c);
      assert IngestedUnder(before, c, autoPopulate, groupId, tagId, systems);
    }
  }

  lemma TakenWhenGrown(list: seq<System>, t: Tables, c: Incoming, auto: bool, groupId: nat, tagId: nat)
    requires MemoryFine(list, t) && Populating(list, c, auto)
    ensures TakenIn(Grown(list, c, auto, groupId, tagId), list, c, groupId, tagId)
  {
    hide ListFine, Grown, TakenIn;
    GrownTakesIn(list, c, auto, groupId, tagId);
  }

  /** The call fails on the empty label of a group it would have to create. */
  predicate FailsOnLabel(list: seq<System>, c: Incoming, auto: bool) {
    !Population.Blacklisted(list, c) && Populating(list, c, auto) && LacksTalkgroup(list, c) && c.groupLabel == Some("")
  }

  predicate IsSaved(list: seq<System>, c: Incoming, auto: bool) {
    !Population.Blacklisted(list, c) && !FailsOnLabel(list, c, auto) && Saves(list, c, auto)
  }

  /** The call changes memory and is not saved: its change is lost, or it fails on its label after adding its system. */
  predicate Spoils(list: seq<System>, c: Incoming, auto: bool) {
    if FailsOnLabel(list, c, auto) then SystemAt(list, c.system) == -1
    else !Population.Blacklisted(list, c) && Loses(list, c, auto)
  }

  /** After the first n calls: one of them was saved, or memory and tables agreed at the start, and no later one spoiled
      it. */
  predicate Undisturbed(trace: seq<seq<System>>, calls: seq<Incoming>, auto: bool, agreed: bool, n: nat)
    requires n <= |calls| && n <= |trace|
  {
    if n == 0 then agreed
    else IsSaved(trace[n - 1], calls[n - 1], auto) ||
         (Undisturbed(trace, calls, auto, agreed, n - 1) && !Spoils(trace[n - 1], calls[n - 1], auto))
  }

  lemma {:induction false} UndisturbedOnPrefix(trace: seq<seq<System>>, list: seq<System>, calls: seq<Incoming>,
                                               auto: bool, agreed: bool, n: nat)
    requires n <= |calls| && n <= |trace|
    ensures Undisturbed(trace + [list], calls, auto, agreed, n) == Undisturbed(trace, calls, auto, agreed, n)
  {
    if n > 0 { UndisturbedOnPrefix(trace, list, calls, auto, agreed, n - 1); }
  }

  /** What memory holds after a call whose new talkgroup, if any, goes under this group and tag. */
  ghost predicate IngestedUnder(list: seq<System>, c: Incoming, auto: bool, groupId: nat, tagId: nat,
                                list': seq<System>)
  {
    if Population.Blacklisted(list, c) then list' == list
    else if FailsOnLabel(list, c, auto) then list' == WithSystem(list, c, auto)
    else
      && (Populating(list, c, auto) ==> TakenIn(list', list, c, groupId, tagId))
      && if Saves(list, c, auto) then Reloaded(list', Grown(list, c, auto, groupId, tagId))
         else list' == Grown(list, c, auto, groupId, tagId)
  }

  ghost predicate IsIngested(list: seq<System>, c: Incoming, auto: bool, list': seq<System>) {
    exists groupId: nat, tagId: nat :: IngestedUnder(list, c, auto, groupId, tagId, list')
  }
}
