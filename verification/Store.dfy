/** The configured systems with their talkgroups and units: written to three tables by deleting what is gone
    and upserting the rest, and read back. */
module Store {
  import opened Feed
  import opened Rows

  datatype TalkgroupFields = TalkgroupFields(frequency: Option<nat>, groupId: nat, caption: string, led: Option<string>,
                                             name: string, tagId: nat)

  /** The unit's only other field is its label. */
  type UnitFields = string

  type Talkgroup = Row<TalkgroupFields>
  type Unit = Row<UnitFields>

  /** A system not yet stored has no row id. */
  datatype System = System(
    rowId: Option<nat>, id: nat, autoPopulate: bool, blacklists: string, caption: string, led: Option<string>,
    order: nat, talkgroups: seq<Talkgroup>, units: seq<Unit>)

  datatype SystemRow = SystemRow(id: nat, autoPopulate: bool, blacklists: string, caption: string, led: Option<string>,
                                 order: nat)

  datatype Tables = Tables(systems: map<nat, SystemRow>, next: nat, talkgroups: Table<TalkgroupFields>,
                           units: Table<UnitFields>)

  // ---- Encoding of single fields ----

  function WithoutBrackets(s: string): string {
    if s == "" then "" else (if s[0] == '[' || s[0] == ']' then "" else [s[0]]) + WithoutBrackets(s[1..])
  }

  function Bracketed(blacklists: string): string {
    if |blacklists| > 0 then "[" + blacklists + "]" else "[]"
  }

  lemma {:induction false} WithoutBracketsConcat(a: string, b: string)
    ensures WithoutBrackets(a + b) == WithoutBrackets(a) + WithoutBrackets(b)
  {
    if a == "" {
      assert a + b == b;
    } else {
      assert (a + b)[1..] == a[1..] + b;
      WithoutBracketsConcat(a[1..], b);
    }
  }

  lemma {:induction false} NothingToStrip(s: string)
    ensures WithoutBrackets(s) == s <==> '[' !in s && ']' !in s
    ensures |WithoutBrackets(s)| <= |s|
  {
    if s != "" {
      assert s == [s[0]] + s[1..];
      NothingToStrip(s[1..]);
    }
  }

  /** Stored blacklists come back unchanged exactly when they hold no bracket. */
  lemma BlacklistsRoundTrip(blacklists: string)
    ensures WithoutBrackets(Bracketed(blacklists)) == blacklists <==> '[' !in blacklists && ']' !in blacklists
  {
    NothingToStrip(blacklists);
    BracketsGoAgain(blacklists);
    if blacklists == "" {
      BracketsGoAgain("");
      assert Bracketed("") == "[" + "" + "]";
    }
  }

  lemma BracketsGoAgain(s: string)
    ensures WithoutBrackets("[" + s + "]") == WithoutBrackets(s)
  {
    assert ("[" + s + "]")[1..] == s + "]";
    WithoutBracketsConcat(s, "]");
    assert "]"[1..] == "";
  }

  /** An empty led, and a zero frequency, are read as absent. */
  function ReadText(led: Option<string>): Option<string> {
    if led.Some? && led.value == "" then None else led
  }

  function ReadTalkgroup(f: TalkgroupFields): TalkgroupFields {
    f.(frequency := if f.frequency == Some(0) then None else f.frequency, led := ReadText(f.led))
  }

  function ReadUnit(f: UnitFields): UnitFields {
    f
  }

  function Encoded(s: System): SystemRow {
    SystemRow(s.id, s.autoPopulate, Bracketed(s.blacklists), s.caption, s.led, s.order)
  }

  /** Fields that survive being stored. */
  predicate Normal(s: System) {
    && '[' !in s.blacklists && ']' !in s.blacklists
    && s.led != Some("")
    && (forall t | t in s.talkgroups :: t.fields.frequency != Some(0) && t.fields.led != Some(""))
  }

  /** Reading turns a zero frequency and an empty led into none, leaves every other one alone, and never touches group,
      tag, label or name. */
  lemma ReadingFields(f: TalkgroupFields)
    ensures
      var g := ReadTalkgroup(f);
      && (g == f <==> f.frequency != Some(0) && f.led != Some(""))
      && (f.frequency == Some(0) ==> g.frequency == None) && (f.frequency != Some(0) ==> g.frequency == f.frequency)
      && (f.led == Some("") ==> g.led == None) && (f.led != Some("") ==> g.led == f.led)
      && g.groupId == f.groupId && g.tagId == f.tagId && g.caption == f.caption && g.name == f.name
  {
  }

  // ---- Well-formed lists and tables ----

  predicate UniqueSystems(t: Tables) {
    forall r, r' | r in t.systems && r' in t.systems && r != r' :: t.systems[r].id != t.systems[r'].id
  }

  predicate TablesFine(t: Tables) {
    && t.next > 0
    && (forall r | r in t.systems :: 0 < r < t.next)
    && UniqueSystems(t)
    && (forall k | k in t.talkgroups :: t.talkgroups[k].id == k.1)
    && (forall k | k in t.units :: t.units[k].id == k.1)
  }

  ghost predicate ChildrenDistinct(s: System) {
    DistinctIds(s.talkgroups) && DistinctIds(s.units)
  }

  /** System ids distinct, stored row ids distinct and positive, talkgroup and unit ids distinct per system. */
  ghost predicate ListFine(list: seq<System>) {
    && (forall i, j | 0 <= i < j < |list| :: list[i].id != list[j].id)
    && (forall i, j | 0 <= i < j < |list| :: list[i].rowId.Some? && list[j].rowId.Some? ==>
        list[i].rowId != list[j].rowId)
    && (forall s | s in list :: (s.rowId.Some? ==> s.rowId.value > 0) && ChildrenDistinct(s) && Normal(s))
  }

  predicate Unstored(list: seq<System>) {
    exists s | s in list :: s.rowId.None?
  }

  predicate Lists(list: seq<System>, rowId: nat, id: nat) {
    exists s | s in list :: s.rowId == Some(rowId) && s.id == id
  }

  /** Every stored system is listed under its row id and id. */
  predicate CoversTable(list: seq<System>, t: Tables) {
    forall r | r in t.systems :: Lists(list, r, t.systems[r].id)
  }

  // ---- Writing ----

  /** A stored row whose row id and id no listed system has goes, and its talkgroups and units with it, unless
      some listed system has no row id: then nothing is deleted. */
  function Gone(list: seq<System>, t: Tables): set<nat> {
    set r | r in t.systems && !Unstored(list) && !Lists(list, r, t.systems[r].id)
  }

  function GoneIds(list: seq<System>, t: Tables): set<nat> {
    set r | r in Gone(list, t) :: t.systems[r].id
  }

  function Pruned(list: seq<System>, t: Tables): Tables {
    var gone := GoneIds(list, t);
    Tables(map r | r in t.systems && r !in Gone(list, t) :: t.systems[r], t.next,
           map k | k in t.talkgroups && k.0 !in gone :: t.talkgroups[k],
           map k | k in t.units && k.0 !in gone :: t.units[k])
  }

  /** The row a system is stored in: its own, or the next free one. */
  function Target(s: System, t: Tables): nat {
    if s.rowId.Some? then s.rowId.value else t.next
  }

  /** The unique index on the system id refuses an id another row has. */
  predicate Conflicts(s: System, t: Tables) {
    exists r | r in t.systems :: r != Target(s, t) && t.systems[r].id == s.id
  }

  function WithRow(s: System, t: Tables): Tables {
    var r := Target(s, t);
    t.(systems := t.systems[r := Encoded(s)], next := if r < t.next then t.next else r + 1)
  }

  ghost function Saved(s: System, t: Tables): Tables {
    var t1 := WithRow(s, t);
    t1.(talkgroups := RowsWritten(s.talkgroups, s.id, t1.talkgroups), units := RowsWritten(s.units, s.id, t1.units))
  }

  datatype Outcome = Outcome(tables: Tables, ok: bool)

  /** The loop stops at the first refused system; what was written before stays. */
  ghost function SavedAll(list: seq<System>, t: Tables): Outcome {
    if list == [] then Outcome(t, true)
    else if Conflicts(list[0], t) then Outcome(t, false)
    else SavedAll(list[1..], Saved(list[0], t))
  }

  ghost function Written(list: seq<System>, t: Tables): Outcome {
    SavedAll(list, Pruned(list, t))
  }

  // ---- Reading ----

  ghost predicate IsSystemReading(o: System, t: Tables) {
    && o.rowId.Some? && o.rowId.value in t.systems
    && var row := t.systems[o.rowId.value];
       && o.id == row.id && o.autoPopulate == row.autoPopulate && o.caption == row.caption && o.order == row.order
       && o.blacklists == WithoutBrackets(row.blacklists) && o.led == ReadText(row.led)
       && IsRowReading(o.talkgroups, o.id, t.talkgroups, ReadTalkgroup)
       && IsRowReading(o.units, o.id, t.units, ReadUnit)
  }

  /** Of a read system every talkgroup is a stored row, with its group, tag, label, name and order, its positive
      frequency and its led that is not empty; every unit is a stored row as it stands. */
  lemma ReadRowsFields(o: System, t: Tables)
    requires IsSystemReading(o, t)
    ensures forall r | r in o.talkgroups ::
              (o.id, r.id) in t.talkgroups &&
              var was, f := t.talkgroups[(o.id, r.id)], r.fields;
              && f.groupId == was.fields.groupId && f.tagId == was.fields.tagId
              && f.caption == was.fields.caption && f.name == was.fields.name && r.order == was.order
              && f.frequency == (if was.fields.frequency == Some(0) then None else was.fields.frequency)
              && f.led == (if was.fields.led == Some("") then None else was.fields.led)
    ensures forall u | u in o.units :: (o.id, u.id) in t.units && t.units[(o.id, u.id)] == u
  {
    forall r | r in o.talkgroups ensures (o.id, r.id) in t.talkgroups {
      ReadingFields(t.talkgroups[(o.id, r.id)].fields);
    }
    forall u | u in o.units ensures (o.id, u.id) in t.units && t.units[(o.id, u.id)] == u {
    }
  }

  predicate SortedSystems(list: seq<System>) {
    forall i, j | 0 <= i < j < |list| :: list[i].order <= list[j].order
  }

  predicate DistinctRows(list: seq<System>) {
    forall i, j | 0 <= i < j < |list| :: list[i].rowId != list[j].rowId
  }

  /** What reading the tables may return: every stored system once, sorted by order. */
  ghost predicate IsReading(list: seq<System>, t: Tables) {
    && SortedSystems(list) && DistinctRows(list)
    && (forall o | o in list :: IsSystemReading(o, t))
    && (forall r | r in t.systems :: exists o | o in list :: o.rowId == Some(r))
  }

  // ---- The methods ----

  method MustRemove(list: seq<System>, rowId: nat, id: nat) returns (remove: bool)
    ensures remove <==> !Unstored(list) && !Lists(list, rowId, id)
  {
    remove := true;
    for i := 0 to |list|
      invariant remove
      invariant forall s | s in list[..i] :: s.rowId.Some? && !(s.rowId == Some(rowId) && s.id == id)
    {
      if list[i].rowId.None? || (list[i].rowId == Some(rowId) && list[i].id == id) {
        return false;
      }
    }
    assert list[..|list|] == list;
  }

  method Prune(list: seq<System>, t: Tables) returns (t': Tables)
    ensures t' == Pruned(list, t)
  {
    var rowIds: set<nat>, systemIds: set<nat> := {}, {};
    var rest := t.systems.Keys;
    while rest != {}
      invariant rest <= t.systems.Keys
      invariant rowIds == Gone(list, t) - rest
      invariant systemIds == set r | r in rowIds && r in t.systems :: t.systems[r].id
      decreases rest
    {
      var r :| r in rest;
      var remove := MustRemove(list, r, t.systems[r].id);
      if remove {
        rowIds := rowIds + {r};
        systemIds := systemIds + {t.systems[r].id};
      }
      rest := rest - {r};
    }
    assert systemIds == GoneIds(list, t);
    t' := Tables(map r | r in t.systems && r !in rowIds :: t.systems[r], t.next,
                 map k | k in t.talkgroups && k.0 !in systemIds :: t.talkgroups[k],
                 map k | k in t.units && k.0 !in systemIds :: t.units[k]);
  }

  method Write(list: seq<System>, t: Tables) returns (t': Tables, ok: bool)
    ensures Outcome(t', ok) == Written(list, t)
  {
    t' := Prune(list, t);
    ok := true;
    for i := 0 to |list|
      invariant ok
      invariant SavedAll(list[i..], t') == Written(list, t)
    {
      assert list[i..][1..] == list[i + 1..];
      var s := list[i];
      if Conflicts(s, t') {
        return t', false;
      }
      t' := WithRow(s, t');
      var talkgroups := WriteRows(s.talkgroups, s.id, t'.talkgroups);
      t' := t'.(talkgroups := talkgroups);
      var units := WriteRows(s.units, s.id, t'.units);
      t' := t'.(units := units);
    }
  }

  lemma SystemInserted(list: seq<System>, i: nat, s: System)
    requires SortedSystems(list) && i <= |list| && (i > 0 ==> list[i - 1].order <= s.order)
    requires forall j | i <= j < |list| :: s.order <= list[j].order
    ensures SortedSystems(InsertedAt(list, i, s))
  {
  }

  lemma RowInserted(list: seq<System>, i: nat, s: System)
    requires DistinctRows(list) && i <= |list| && forall o | o in list :: o.rowId != s.rowId
    ensures DistinctRows(InsertedAt(list, i, s))
  {
  }

  /** The system goes into its place in a list sorted by order. */
  method InsertByOrder(list: seq<System>, s: System) returns (out: seq<System>)
    requires SortedSystems(list) && DistinctRows(list) && forall o | o in list :: o.rowId != s.rowId
    ensures SortedSystems(out) && DistinctRows(out)
    ensures forall o :: o in out <==> o in list || o == s
  {
    var i := |list|;
    while i > 0 && s.order < list[i - 1].order
      invariant 0 <= i <= |list|
      invariant forall j | i <= j < |list| :: s.order <= list[j].order
    {
      i := i - 1;
    }
    hide DistinctRows, InsertedAt;
    out := InsertedAt(list, i, s);
    InsertedMembers(list, i, s);
    SystemInserted(list, i, s);
    RowInserted(list, i, s);
  }

  method ReadSystem(r: nat, t: Tables) returns (o: System)
    requires TablesFine(t) && r in t.systems
    ensures IsSystemReading(o, t) && o.rowId == Some(r)
  {
    var row := t.systems[r];
    var talkgroups := ReadRows(row.id, t.talkgroups, ReadTalkgroup);
    var units := ReadRows(row.id, t.units, ReadUnit);
    o := System(Some(r), row.id, row.autoPopulate, WithoutBrackets(row.blacklists), row.caption, ReadText(row.led),
                row.order, talkgroups, units);
  }

  method Read(t: Tables) returns (list: seq<System>)
    requires TablesFine(t)
    ensures IsReading(list, t)
  {
    hide IsSystemReading;
    list := [];
    var rest := t.systems.Keys;
    while rest != {}
      invariant rest <= t.systems.Keys
      invariant SortedSystems(list) && DistinctRows(list)
      invariant forall o | o in list :: IsSystemReading(o, t) && o.rowId.Some? && o.rowId.value !in rest
      invariant forall r | r in t.systems && r !in rest :: exists o | o in list :: o.rowId == Some(r)
      decreases rest
    {
      var r :| r in rest;
      rest := rest - {r};
      var o := ReadSystem(r, t);
      list := InsertByOrder(list, o);
    }
  }
}
