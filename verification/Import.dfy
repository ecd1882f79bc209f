/** Importing talkgroups from Radio Reference straight into the tables. */
module Import {
  import opened Feed
  import opened Rows
  import opened Store
  import opened Population
  import opened Ingest
  import opened ControllerService
  import L = Labels

  datatype Entry = Entry(id: nat, alphaTag: string, description: string, tag: string, category: string, frequency: nat)

  function Category(e: Entry): string {
    if e.category == "" then "Unknown" else e.category
  }

  function TagOf(e: Entry): string {
    if e.tag == "" then "Untagged" else e.tag
  }

  function Caption(e: Entry): string {
    if e.alphaTag == "" then Decimal(e.id) else e.alphaTag
  }

  function NameOf(e: Entry): string {
    if e.description == "" then Caption(e) else e.description
  }

  /** The row shows the entry's fields under stored labels with the entry's texts; led and order are those of the
      row there was, if any. */
  predicate Shows(e: Entry, row: Talkgroup, was: Option<Talkgroup>, groups: L.LabelTable, tags: L.LabelTable) {
    && row.id == e.id
    && row.fields.frequency == Some(e.frequency) && row.fields.caption == Caption(e) && row.fields.name == NameOf(e)
    && row.fields.groupId in groups.rows && groups.rows[row.fields.groupId] == Category(e)
    && row.fields.tagId in tags.rows && tags.rows[row.fields.tagId] == TagOf(e)
    && row.fields.led == (if was.Some? then was.value.fields.led else None)
    && row.order == (if was.Some? then was.value.order else 0)
  }

  function At(t: Table<TalkgroupFields>, sys: nat, id: nat): Option<Talkgroup> {
    if (sys, id) in t then Some(t[(sys, id)]) else None
  }

  predicate IsLast(entries: seq<Entry>, i: nat)
    requires i < |entries|
  {
    entries[i].id != 0 && forall k | i < k < |entries| :: entries[k].id != entries[i].id
  }

  function ImportedIds(entries: seq<Entry>): set<nat> {
    set e | e in entries && e.id != 0 :: e.id
  }

  function CountNonzero(entries: seq<Entry>): nat {
    if entries == [] then 0
    else CountNonzero(entries[..|entries| - 1]) + if entries[|entries| - 1].id != 0 then 1 else 0
  }

  /** What an import of the entries into one system has made of the talkgroup table. */
  ghost predicate Imported(entries: seq<Entry>, sys: nat, t: Table<TalkgroupFields>, t': Table<TalkgroupFields>,
                           groups: L.LabelTable, tags: L.LabelTable) {
    && (forall i | 0 <= i < |entries| && IsLast(entries, i) ::
          (sys, entries[i].id) in t' &&
            Shows(entries[i], t'[(sys, entries[i].id)], At(t, sys, entries[i].id), groups, tags))
    && (forall k: (nat, nat) | k.0 != sys || k.1 !in ImportedIds(entries) ::
        (k in t' <==> k in t) && (k in t ==> t'[k] == t[k]))
  }

  /** Two imported rows with the same group, or tag, have the same text there. The other way round they share the id as
      soon as that one text is stored once, whatever repetitions there are among other labels. */
  lemma SameTextSameId(entries: seq<Entry>, i: nat, j: nat, sys: nat, t: Table<TalkgroupFields>,
                       t': Table<TalkgroupFields>, groups: L.LabelTable, tags: L.LabelTable)
    requires Imported(entries, sys, t, t', groups, tags)
    requires i < |entries| && j < |entries| && IsLast(entries, i) && IsLast(entries, j)
    ensures var e, e', row, row' :=
              entries[i], entries[j], t'[(sys, entries[i].id)].fields, t'[(sys, entries[j].id)].fields;
            && (row.groupId == row'.groupId ==> Category(e) == Category(e'))
            && (row.tagId == row'.tagId ==> TagOf(e) == TagOf(e'))
            && (Category(e) == Category(e') && L.StoredOnce(groups, Category(e)) ==> row.groupId == row'.groupId)
            && (TagOf(e) == TagOf(e') && L.StoredOnce(tags, TagOf(e)) ==> row.tagId == row'.tagId)
  {
  }

  /** What an imported row says: the entry's own texts, with the defaults for empty ones. */
  lemma ImportedTexts(entries: seq<Entry>, i: nat, sys: nat, t: Table<TalkgroupFields>, t': Table<TalkgroupFields>,
                      groups: L.LabelTable, tags: L.LabelTable)
    requires Imported(entries, sys, t, t', groups, tags) && i < |entries| && IsLast(entries, i)
    ensures
      var e := entries[i];
      (sys, e.id) in t' &&
      var f := t'[(sys, e.id)].fields;
      && f.caption == (if e.alphaTag != "" then e.alphaTag else Decimal(e.id))
      && f.name == (if e.description != "" then e.description else f.caption)
      && f.frequency == Some(e.frequency)
      && f.groupId in groups.rows && groups.rows[f.groupId] == (if e.category != "" then e.category else "Unknown")
      && f.tagId in tags.rows && tags.rows[f.tagId] == (if e.tag != "" then e.tag else "Untagged")
  {
  }

  lemma ShowsGrows(e: Entry, row: Talkgroup, was: Option<Talkgroup>, g: L.LabelTable, t: L.LabelTable,
                   g': L.LabelTable, t': L.LabelTable)
    requires Shows(e, row, was, g, t) && Grows(g, g') && Grows(t, t')
    ensures Shows(e, row, was, g', t')
  {
  }

  /** One more entry. */
  lemma ImportOne(done: seq<Entry>, e: Entry, sys: nat, t: Table<TalkgroupFields>, t1: Table<TalkgroupFields>,
                  t2: Table<TalkgroupFields>,
                  g: L.LabelTable, tg: L.LabelTable, g': L.LabelTable, tg': L.LabelTable)
    requires Imported(done, sys, t, t1, g, tg) && Grows(g, g') && Grows(tg, tg')
    requires if e.id == 0 then t2 == t1
             else
               (sys, e.id) in t2 && Shows(e, t2[(sys, e.id)], At(t, sys, e.id), g', tg') &&
               t2 == t1[(sys, e.id) := t2[(sys, e.id)]]
    ensures Imported(done + [e], sys, t, t2, g', tg')
  {
    var more := done + [e];
    assert forall x :: x in more <==> x in done || x == e;
    forall i | 0 <= i < |more| && IsLast(more, i)
      ensures (sys, more[i].id) in t2 && Shows(more[i], t2[(sys, more[i].id)], At(t, sys, more[i].id), g', tg')
    {
      if i < |done| {
        assert more[|done|] == e;
        assert forall k | 0 <= k < |done| :: more[k] == done[k];
        assert IsLast(done, i);
        ShowsGrows(done[i], t1[(sys, done[i].id)], At(t, sys, done[i].id), g, tg, g', tg');
      }
    }
    forall k: (nat, nat) | k.0 != sys || k.1 !in ImportedIds(more)
      ensures (k in t2 <==> k in t) && (k in t ==> t2[k] == t[k])
    {
      if k.0 == sys {
        assert k.1 !in ImportedIds(done);
        if e.id != 0 {
          assert e in more;
          assert k.1 != e.id;
        }
      }
    }
  }

  /** Before this entry the row has the led and order it had before the import, or an import's own. */
  lemma CurrentRow(done: seq<Entry>, id: nat, sys: nat, t: Table<TalkgroupFields>, t1: Table<TalkgroupFields>,
                   groups: L.LabelTable, tags: L.LabelTable)
    requires Imported(done, sys, t, t1, groups, tags) && id != 0
    ensures (sys, id) in t1 <==> (sys, id) in t || id in ImportedIds(done)
    ensures (sys, id) in t1 ==>
              var was := At(t, sys, id);
              && t1[(sys, id)].fields.led == (if was.Some? then was.value.fields.led else None)
              && t1[(sys, id)].order == (if was.Some? then was.value.order else 0)
  {
    if id in ImportedIds(done) {
      var i := LastOf(done, id);
    }
  }

  lemma {:induction false} LastOf(entries: seq<Entry>, id: nat) returns (i: nat)
    requires id in ImportedIds(entries)
    ensures i < |entries| && entries[i].id == id && IsLast(entries, i)
    decreases |entries|
  {
    var n := |entries| - 1;
    if entries[n].id == id {
      i := n;
    } else {
      var front := entries[..n];
      assert entries == front + [entries[n]];
      var e :| e in entries && e.id != 0 && e.id == id;
      assert e in front;
      i := LastOf(front, id);
    }
  }

  lemma AddedGrows(before: set<nat>, ids: set<nat>, id: nat)
    ensures |(ids + {id}) - before| == |ids - before| + (if id in before || id in ids then 0 else 1)
  {
    if id in before || id in ids {
      assert (ids + {id}) - before == ids - before;
    } else {
      assert (ids + {id}) - before == (ids - before) + {id};
    }
  }

  function StoredIds(t: Table<TalkgroupFields>, sys: nat): set<nat> {
    set k | k in t && k.0 == sys :: k.1
  }

  /** Insert or update one entry. */
  method ImportEntry(controller: Controller, sys: nat, e: Entry) returns (inserted: bool)
    requires controller.groups != controller.tags && controller.groups.skipEmpty && !controller.tags.skipEmpty
    requires controller.groups.Valid() && controller.tags.Valid() && TablesFine(controller.tables)
    modifies controller`tables, controller.groups, controller.tags
    ensures controller.groups.Valid() && controller.tags.Valid() && TablesFine(controller.tables)
    ensures Grows(old(controller.groups.table), controller.groups.table) &&
              Grows(old(controller.tags.table), controller.tags.table)
    ensures L.KeepsOnce(old(controller.groups.table), controller.groups.table)
    ensures L.KeepsOnce(old(controller.tags.table), controller.tags.table)
    ensures inserted <==> (sys, e.id) !in old(controller.tables.talkgroups)
    ensures (sys, e.id) in controller.tables.talkgroups
    ensures controller.tables == old(controller.tables).(talkgroups :=
              old(controller.tables.talkgroups)[(sys, e.id) := controller.tables.talkgroups[(sys, e.id)]])
    ensures Shows(e, controller.tables.talkgroups[(sys, e.id)], At(old(controller.tables.talkgroups), sys, e.id),
                  controller.groups.table, controller.tags.table)
  {
    hide L.IsReading, L.TableFine, L.KeepsOnce, Decimal;
    var groupId := controller.groups.Resolve(Category(e));
    var tagId := controller.tags.Resolve(TagOf(e));
    var k := (sys, e.id);
    var row;
    inserted := k !in controller.tables.talkgroups;
    if inserted {
      row := Row(e.id, 0, TalkgroupFields(Some(e.frequency), groupId.value, Caption(e), None, NameOf(e), tagId.value));
    } else {
      row := controller.tables.talkgroups[k];
      row := row.(fields := TalkgroupFields(Some(e.frequency), groupId.value, Caption(e), row.fields.led, NameOf(e),
                                            tagId.value));
    }
    controller.tables := controller.tables.(talkgroups := controller.tables.talkgroups[k := row]);
  }

  lemma SameShownPast(done: seq<Entry>, e: Entry, sys: nat, t: Table<TalkgroupFields>, t1: Table<TalkgroupFields>,
                      row: Talkgroup, g: L.LabelTable, tg: L.LabelTable, g': L.LabelTable, tg': L.LabelTable)
    requires Imported(done, sys, t, t1, g, tg) && e.id != 0 && Shows(e, row, At(t1, sys, e.id), g', tg')
    ensures Shows(e, row, At(t, sys, e.id), g', tg')
  {
    CurrentRow(done, e.id, sys, t, t1, g, tg);
  }

  /** One turn of the loop. */
  method TakeEntry(controller: Controller, sys: nat, e: Entry, ghost done: seq<Entry>, ghost t: Table<TalkgroupFields>)
    returns (added: nat, updated: nat)
    requires controller.groups != controller.tags && controller.groups.skipEmpty && !controller.tags.skipEmpty
    requires controller.groups.Valid() && controller.tags.Valid() && TablesFine(controller.tables)
    requires Imported(done, sys, t, controller.tables.talkgroups, controller.groups.table, controller.tags.table)
    modifies controller`tables, controller.groups, controller.tags
    ensures controller.groups.Valid() && controller.tags.Valid() && TablesFine(controller.tables)
    ensures Grows(old(controller.groups.table), controller.groups.table) &&
              Grows(old(controller.tags.table), controller.tags.table)
    ensures L.KeepsOnce(old(controller.groups.table), controller.groups.table)
    ensures L.KeepsOnce(old(controller.tags.table), controller.tags.table)
    ensures controller.tables == old(controller.tables).(talkgroups := controller.tables.talkgroups)
    ensures Imported(done + [e], sys, t, controller.tables.talkgroups, controller.groups.table, controller.tags.table)
    ensures added + updated == if e.id != 0 then 1 else 0
    ensures added == |ImportedIds(done + [e]) - StoredIds(t, sys)| - |ImportedIds(done) - StoredIds(t, sys)|
  {
    hide Imported, Shows, L.IsReading, L.TableFine, L.KeepsOnce, TablesFine, ImportedIds, Grows;
    added, updated := 0, 0;
    ghost var t1, g, tg := controller.tables.talkgroups, controller.groups.table, controller.tags.table;
    OneMoreId(done, e);
    GrowsNot(g);
    GrowsNot(tg);
    if e.id != 0 {
      CurrentRow(done, e.id, sys, t, t1, g, tg);
      AddedGrows(StoredIds(t, sys), ImportedIds(done), e.id);
      var inserted := ImportEntry(controller, sys, e);
      if inserted {
        added := 1;
      } else {
        updated := 1;
      }
      SameShownPast(done, e, sys, t, t1, controller.tables.talkgroups[(sys, e.id)], g, tg, controller.groups.table,
                    controller.tags.table);
    }
    ImportOne(done, e, sys, t, t1, controller.tables.talkgroups, g, tg, controller.groups.table, controller.tags.table);
  }

  lemma GrowsNot(g: L.LabelTable)
    ensures Grows(g, g) && L.KeepsOnce(g, g)
  {
    L.SameKeepsOnce(g);
  }

  lemma KeptOnceSince(g: L.LabelTable, g': L.LabelTable, g'': L.LabelTable)
    requires L.KeepsOnce(g, g') && L.KeepsOnce(g', g'') && Grows(g, g') && Grows(g', g'')
    ensures L.KeepsOnce(g, g'') && Grows(g, g'')
  {
  }

  /** The import loop: `added` counts the distinct non-zero ids the system did not have, and together with
      `updated` all non-zero entries; every imported row shows the last entry of its id. */
  method ImportTalkgroups(controller: Controller, sys: nat, entries: seq<Entry>) returns (added: nat, updated: nat)
    requires controller.Valid()
    modifies controller, controller.groups, controller.tags
    ensures controller.Valid() && controller.Agrees()
    ensures Grows(old(controller.groups.table), controller.groups.table) &&
              Grows(old(controller.tags.table), controller.tags.table)
    ensures Imported(entries, sys, old(controller.tables.talkgroups), controller.tables.talkgroups,
                     controller.groups.table, controller.tags.table)
    ensures controller.tables == old(controller.tables).(talkgroups := controller.tables.talkgroups)
    ensures added == |ImportedIds(entries) - StoredIds(old(controller.tables.talkgroups), sys)|
    ensures added + updated == CountNonzero(entries)
    ensures L.KeepsOnce(old(controller.groups.table), controller.groups.table)
    ensures L.KeepsOnce(old(controller.tags.table), controller.tags.table)
  {
    hide MemoryFine, Imported, Shows, L.IsReading, L.TableFine, L.KeepsOnce, Store.IsReading, TablesFine, ImportedIds,
         Grows, StoredIds;
    MemoryTables(controller.systems, controller.tables);
    added, updated := 0, 0;
    ghost var t := controller.tables.talkgroups;
    ghost var before, g0, tg0 := StoredIds(t, sys), controller.groups.table, controller.tags.table;
    GrowsNot(g0);
    GrowsNot(tg0);
    ImportedNothing(sys, t, controller.groups.table, controller.tags.table);
    assert entries[..0] == [];
    for i := 0 to |entries|
      invariant controller.groups.Valid() && controller.tags.Valid() && TablesFine(controller.tables)
      invariant Grows(old(controller.groups.table), controller.groups.table) &&
                  Grows(old(controller.tags.table), controller.tags.table)
      invariant controller.tables == old(controller.tables).(talkgroups := controller.tables.talkgroups)
      invariant Imported(entries[..i], sys, t, controller.tables.talkgroups, controller.groups.table,
                         controller.tags.table)
      invariant L.KeepsOnce(old(controller.groups.table), controller.groups.table)
      invariant L.KeepsOnce(old(controller.tags.table), controller.tags.table)
      invariant added == |ImportedIds(entries[..i]) - before|
      invariant added + updated == CountNonzero(entries[..i])
    {
      assert entries[..i + 1] == entries[..i] + [entries[i]] && entries[..i + 1][..i] == entries[..i];
      ghost var g, tg := controller.groups.table, controller.tags.table;
      var more, again := TakeEntry(controller, sys, entries[i], entries[..i], t);
      KeptOnceSince(g0, g, controller.groups.table);
      KeptOnceSince(tg0, tg, controller.tags.table);
      added, updated := added + more, updated + again;
    }
    assert entries[..|entries|] == entries;
    controller.Reload();
  }

  lemma OneMoreId(done: seq<Entry>, e: Entry)
    ensures ImportedIds(done + [e]) == if e.id == 0 then ImportedIds(done) else ImportedIds(done) + {e.id}
  {
  }

  lemma ImportedNothing(sys: nat, t: Table<TalkgroupFields>, groups: L.LabelTable, tags: L.LabelTable)
    ensures Imported([], sys, t, t, groups, tags) && ImportedIds([]) == {}
  {
  }
}
