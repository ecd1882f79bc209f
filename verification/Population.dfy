/** What an incoming call adds to the configured systems when they populate themselves. */
module Population {
  import opened Feed
  import opened Rows
  import opened Store

  /** The part of a received call that population reads. */
  datatype Incoming = Incoming(
    system: nat, talkgroup: nat, systemLabel: Option<string>, groupLabel: Option<string>, tagLabel: Option<string>,
    talkgroupLabel: Option<string>, talkgroupName: Option<string>, units: Option<seq<Unit>>)

  function Decimal(n: nat): string {
    if n < 10 then [('0' as int + n) as char] else Decimal(n / 10) + [('0' as int + n % 10) as char]
  }

  function Or<T>(o: Option<T>, default: T): T {
    if o.Some? then o.value else default
  }

  // ---- Lookup ----

  function SystemAt(list: seq<System>, id: nat): (i: int)
    ensures i == -1 ==> forall s | s in list :: s.id != id
    ensures i != -1 ==> 0 <= i < |list| && list[i].id == id
  {
    if list == [] then -1
    else if list[0].id == id then 0
    else
      var i := SystemAt(list[1..], id);
      if i == -1 then -1 else i + 1
  }

  function RowAt<V>(list: seq<Row<V>>, id: nat): (i: int)
    ensures i == -1 <==> !HasId(list, id)
    ensures i != -1 ==> 0 <= i < |list| && list[i].id == id
  {
    if list == [] then -1
    else if list[0].id == id then assert list[0] in list; 0
    else
      var i := RowAt(list[1..], id);
      assert list == [list[0]] + list[1..];
      if i == -1 then -1 else i + 1
  }

  /** The comma-separated entries are compared as text with the decimal id. */
  function Entries(s: string): (e: seq<string>)
    ensures |e| > 0
  {
    if s == "" then [""]
    else
      var rest := Entries(s[1..]);
      if s[0] == ',' then [""] + rest else [[s[0]] + rest[0]] + rest[1..]
  }

  predicate IsBlacklisted(blacklists: string, id: nat) {
    Decimal(id) in Entries(blacklists)
  }

  // ---- Units ----

  function Added(units: seq<Unit>, u: Unit): seq<Unit> {
    if RowAt(units, u.id) != -1 then units else units + [Row(u.id, 0, u.fields)]
  }

  function Merged(units: seq<Unit>, more: seq<Unit>): seq<Unit>
    decreases |more|
  {
    if more == [] then units else Merged(Added(units, more[0]), more[1..])
  }

  predicate AddsUnit(units: seq<Unit>, more: seq<Unit>) {
    exists u | u in more :: RowAt(units, u.id) == -1
  }

  lemma AddedUnits(units: seq<Unit>, u: Unit)
    requires DistinctIds(units)
    ensures DistinctIds(Added(units, u))
    ensures forall id :: HasId(Added(units, u), id) <==> HasId(units, id) || id == u.id
    ensures units <= Added(units, u)
  {
  }

  /** Merging keeps the known units in front, adds each unknown id once, and changes the list exactly when
      some incoming unit is unknown. */
  lemma {:induction false} MergedUnits(units: seq<Unit>, more: seq<Unit>)
    requires DistinctIds(units)
    ensures DistinctIds(Merged(units, more))
    ensures forall id :: HasId(Merged(units, more), id) <==> HasId(units, id) || HasId(more, id)
    ensures units <= Merged(units, more)
    ensures Merged(units, more) != units <==> AddsUnit(units, more)
    decreases |more|
  {
    if more != [] {
      assert more == [more[0]] + more[1..];
      AddedUnits(units, more[0]);
      MergedUnits(Added(units, more[0]), more[1..]);
      if RowAt(units, more[0].id) != -1 {
        assert Added(units, more[0]) == units;
      } else {
        assert more[0] in more;
        assert |Added(units, more[0])| > |units|;
      }
    }
  }

  method Merge(units: seq<Unit>, more: seq<Unit>) returns (units': seq<Unit>, merged: bool)
    requires DistinctIds(units)
    ensures units' == Merged(units, more)
    ensures merged <==> AddsUnit(units, more)
  {
    units', merged := units, false;
    for i := 0 to |more|
      invariant DistinctIds(units')
      invariant Merged(units', more[i..]) == Merged(units, more)
      invariant units <= units' && (merged <==> units' != units)
    {
      assert more[i..][1..] == more[i + 1..];
      AddedUnits(units', more[i]);
      if RowAt(units', more[i].id) == -1 {
        units' := units' + [Row(more[i].id, 0, more[i].fields)];
        merged := true;
      }
    }
    MergedUnits(units, more);
  }

  // ---- One system ----

  function NewTalkgroup(c: Incoming, groupId: nat, tagId: nat): Talkgroup {
    Row(c.talkgroup, 0, TalkgroupFields(None, groupId, Decimal(c.talkgroup), None, "", tagId))
  }

  function WithTalkgroup(s: System, c: Incoming, groupId: nat, tagId: nat): System {
    if RowAt(s.talkgroups, c.talkgroup) != -1 then s
    else s.(talkgroups := s.talkgroups + [NewTalkgroup(c, groupId, tagId)])
  }

  function RelabelledRow(t: Talkgroup, c: Incoming): Talkgroup {
    var caption := Or(c.talkgroupLabel, t.fields.caption);
    var name := if c.talkgroupName.Some? then c.talkgroupName.value
                else if t.fields.name == "" then caption
                else t.fields.name;
    t.(fields := t.fields.(caption := caption, name := name))
  }

  function Relabelled(s: System, c: Incoming): System {
    var i := RowAt(s.talkgroups, c.talkgroup);
    if i == -1 then s else s.(talkgroups := s.talkgroups[i := RelabelledRow(s.talkgroups[i], c)])
  }

  function WithUnits(s: System, c: Incoming): System {
    if c.units.Some? then s.(units := Merged(s.units, c.units.value)) else s
  }

  function Enriched(s: System, c: Incoming, groupId: nat, tagId: nat): System {
    WithUnits(Relabelled(WithTalkgroup(s, c, groupId, tagId), c), c)
  }

  lemma AppendedRows<V>(list: seq<Row<V>>, r: Row<V>)
    requires DistinctIds(list) && !HasId(list, r.id)
    ensures DistinctIds(list + [r])
    ensures forall id :: HasId(list + [r], id) <==> HasId(list, id) || id == r.id
  {
  }

  lemma WithTalkgroupFine(s: System, c: Incoming, groupId: nat, tagId: nat)
    requires ChildrenDistinct(s) && Normal(s)
    ensures
      var a := WithTalkgroup(s, c, groupId, tagId);
      && ChildrenDistinct(a) && Normal(a) && HasId(a.talkgroups, c.talkgroup)
      && (a == s || (!HasId(s.talkgroups, c.talkgroup) &&
                     a == s.(talkgroups := s.talkgroups + [NewTalkgroup(c, groupId, tagId)])))
  {
    if RowAt(s.talkgroups, c.talkgroup) == -1 {
      AppendedRows(s.talkgroups, NewTalkgroup(c, groupId, tagId));
    }
  }

  /** Relabelling changes captions and names only. */
  lemma RelabelledFine(s: System, c: Incoming)
    requires ChildrenDistinct(s) && Normal(s)
    ensures
      var b := Relabelled(s, c);
      && ChildrenDistinct(b) && Normal(b)
      && b == s.(talkgroups := b.talkgroups) && |b.talkgroups| == |s.talkgroups|
      && forall j | 0 <= j < |s.talkgroups| ::
           var t, t0 := b.talkgroups[j], s.talkgroups[j];
           t.id == t0.id && t.fields.groupId == t0.fields.groupId && t.fields.tagId == t0.fields.tagId
  {
    var i := RowAt(s.talkgroups, c.talkgroup);
    var b := Relabelled(s, c);
    if i != -1 {
      assert s.talkgroups[i] in s.talkgroups;
      forall j | 0 <= j < |b.talkgroups| ensures ReadTalkgroup(b.talkgroups[j].fields) == b.talkgroups[j].fields {
        assert s.talkgroups[j] in s.talkgroups;
      }
    }
  }

  /** A talkgroup of the call under the given group and tag that was not there before, or an old one with its own. */
  ghost predicate Descends(t: Talkgroup, old': seq<Talkgroup>, id: nat, groupId: nat, tagId: nat) {
    || (t.fields.groupId == groupId && t.fields.tagId == tagId && t.id == id && !HasId(old', id))
    || exists t0 | t0 in old' ::
         t0.id == t.id && t0.fields.groupId == t.fields.groupId && t0.fields.tagId == t.fields.tagId
  }

  lemma AllDescend(s: System, c: Incoming, groupId: nat, tagId: nat)
    requires ChildrenDistinct(s) && Normal(s)
    ensures
      var b := Relabelled(WithTalkgroup(s, c, groupId, tagId), c);
      && HasId(b.talkgroups, c.talkgroup)
      && forall t | t in b.talkgroups :: Descends(t, s.talkgroups, c.talkgroup, groupId, tagId)
  {
    var a := WithTalkgroup(s, c, groupId, tagId);
    WithTalkgroupFine(s, c, groupId, tagId);
    RelabelledFine(a, c);
    var b := Relabelled(a, c);
    hide WithTalkgroup, Relabelled, Normal, ChildrenDistinct;
    var i :| 0 <= i < |a.talkgroups| && a.talkgroups[i].id == c.talkgroup;
    assert b.talkgroups[i] in b.talkgroups;
    forall j | 0 <= j < |b.talkgroups| ensures Descends(b.talkgroups[j], s.talkgroups, c.talkgroup, groupId, tagId) {
      if j < |s.talkgroups| {
        assert a.talkgroups[j] == s.talkgroups[j] && s.talkgroups[j] in s.talkgroups;
      }
    }
  }

  lemma EnrichedFine(s: System, c: Incoming, groupId: nat, tagId: nat)
    requires ChildrenDistinct(s) && Normal(s)
    ensures
      var e := Enriched(s, c, groupId, tagId);
      && ChildrenDistinct(e) && Normal(e)
      && e == s.(talkgroups := e.talkgroups, units := e.units)
      && HasId(e.talkgroups, c.talkgroup)
      && forall t | t in e.talkgroups :: Descends(t, s.talkgroups, c.talkgroup, groupId, tagId)
  {
    hide HasId, Descends, Relabelled, DistinctIds;
    WithTalkgroupFine(s, c, groupId, tagId);
    RelabelledFine(WithTalkgroup(s, c, groupId, tagId), c);
    AllDescend(s, c, groupId, tagId);
    if c.units.Some? {
      MergedUnits(s.units, c.units.value);
    }
  }

  lemma EnrichedStarts(s: System, c: Incoming, groupId: nat, tagId: nat)
    requires ChildrenDistinct(s)
    ensures
      var a := WithTalkgroup(s, c, groupId, tagId);
      && RowAt(a.talkgroups, c.talkgroup) != -1 && a.units == s.units && DistinctIds(a.units)
      && (RowAt(s.talkgroups, c.talkgroup) != -1 ==> a == s)
  {
  }

  // ---- The list ----

  function NewSystem(c: Incoming): System {
    System(None, c.system, false, "", Or(c.systemLabel, "System " + Decimal(c.system)), None, 0, [], [])
  }

  function WithSystem(list: seq<System>, c: Incoming, auto: bool): seq<System> {
    if auto && SystemAt(list, c.system) == -1 then list + [NewSystem(c)] else list
  }

  /** Population happens for every system when the server populates, else for systems that populate themselves. */
  predicate Populating(list: seq<System>, c: Incoming, auto: bool) {
    auto || (SystemAt(list, c.system) != -1 && list[SystemAt(list, c.system)].autoPopulate)
  }

  predicate Blacklisted(list: seq<System>, c: Incoming) {
    SystemAt(list, c.system) != -1 && IsBlacklisted(list[SystemAt(list, c.system)].blacklists, c.talkgroup)
  }

  predicate LacksTalkgroup(list: seq<System>, c: Incoming) {
    SystemAt(list, c.system) == -1 || RowAt(list[SystemAt(list, c.system)].talkgroups, c.talkgroup) == -1
  }

  lemma SystemIsThere(list: seq<System>, c: Incoming, auto: bool)
    requires Populating(list, c, auto)
    ensures SystemAt(WithSystem(list, c, auto), c.system) != -1
  {
  }

  lemma NewSystemAt(list: seq<System>, c: Incoming, auto: bool)
    requires auto && SystemAt(list, c.system) == -1
    ensures SystemAt(WithSystem(list, c, auto), c.system) == |list|
  {
  }

  /** The systems in memory once the call has been taken in. */
  function Grown(list: seq<System>, c: Incoming, auto: bool, groupId: nat, tagId: nat): seq<System> {
    if !Populating(list, c, auto) then list
    else
      SystemIsThere(list, c, auto);
      var l := WithSystem(list, c, auto);
      var i := SystemAt(l, c.system);
      l[i := Enriched(l[i], c, groupId, tagId)]
  }

  /** Some incoming unit is unknown to the call's system. */
  predicate BringsUnit(list: seq<System>, c: Incoming) {
    var i := SystemAt(list, c.system);
    c.units.Some? && AddsUnit(if i == -1 then [] else list[i].units, c.units.value)
  }

  /** The source notes a new label or name; a missing name counts even when the label that replaces it is empty. */
  predicate NotesLabels(t: Talkgroup, c: Incoming) {
    (c.talkgroupLabel.Some? && t.fields.caption != c.talkgroupLabel.value) ||
    (if c.talkgroupName.Some? then t.fields.name != c.talkgroupName.value else t.fields.name == "")
  }

  predicate Relabels(list: seq<System>, c: Incoming) {
    !LacksTalkgroup(list, c) &&
    var s := list[SystemAt(list, c.system)];
    NotesLabels(s.talkgroups[RowAt(s.talkgroups, c.talkgroup)], c)
  }

  /** The call gives its talkgroup another label or name. */
  predicate Renames(list: seq<System>, c: Incoming) {
    !LacksTalkgroup(list, c) &&
    var s := list[SystemAt(list, c.system)];
    var t := s.talkgroups[RowAt(s.talkgroups, c.talkgroup)];
    RelabelledRow(t, c) != t
  }

  /** Whether the source decides to save: the result of merging units overrides everything found before it. */
  predicate Saves(list: seq<System>, c: Incoming, auto: bool) {
    Populating(list, c, auto) &&
    if c.units.Some? then BringsUnit(list, c) else LacksTalkgroup(list, c) || Relabels(list, c)
  }

  /** The call changes the configuration, but its units bring nothing new: the change is not saved. */
  predicate Loses(list: seq<System>, c: Incoming, auto: bool) {
    Populating(list, c, auto) && c.units.Some? && !BringsUnit(list, c) && (LacksTalkgroup(list, c) || Renames(list, c))
  }

  lemma GrownChanges(list: seq<System>, c: Incoming, auto: bool, groupId: nat, tagId: nat)
    requires ListFine(list)
    ensures Grown(list, c, auto, groupId, tagId) != list <==>
              Populating(list, c, auto) && (LacksTalkgroup(list, c) || Renames(list, c) || BringsUnit(list, c))
    ensures Renames(list, c) ==> Relabels(list, c)
  {
    if Populating(list, c, auto) {
      SystemIsThere(list, c, auto);
      var i := SystemAt(list, c.system);
      if i != -1 {
        var s := list[i];
        assert s in list;
        if c.units.Some? { MergedUnits(s.units, c.units.value); }
        var e := Enriched(s, c, groupId, tagId);
        var j := RowAt(s.talkgroups, c.talkgroup);
        if j != -1 {
          assert e.talkgroups[j] == RelabelledRow(s.talkgroups[j], c);
          assert !Renames(list, c) ==> e.talkgroups == s.talkgroups;
        }
        assert Grown(list, c, auto, groupId, tagId)[i] == e;
      }
    }
  }
}
