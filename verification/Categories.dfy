/** Group and tag categories of the select panel: toggling scans the configured systems, while the
    status shown is computed from the server's label index. */
module Categories {
  import opened Feed

  datatype Kind = Group | Tag
  datatype Status = Off | On | Partial
  datatype Category = Category(name: string, status: Status, kind: Kind)

  datatype TalkgroupConfig = TalkgroupConfig(id: nat, group: string, tag: string)
  datatype SystemConfig = SystemConfig(id: nat, talkgroups: seq<TalkgroupConfig>)

  /** label -> system -> talkgroups carrying that label */
  type Index = map<string, map<nat, seq<nat>>>

  datatype Config = Config(systems: seq<SystemConfig>, groups: Index, tags: Index, tagsToggle: bool, goesLive: bool)

  function LabelOf(kind: Kind, tg: TalkgroupConfig): string {
    match kind
    case Group => tg.group
    case Tag => tg.tag
  }

  /** Some configured entry of (sys, tg) carries the label. */
  predicate Carries(systems: seq<SystemConfig>, kind: Kind, name: string, sys: nat, tg: nat) {
    exists s | s in systems :: s.id == sys && exists t | t in s.talkgroups :: t.id == tg && LabelOf(kind, t) == name
  }

  predicate Covers(m: FeedMap, systems: seq<SystemConfig>) {
    forall s | s in systems :: forall t | t in s.talkgroups :: s.id in m && t.id in m[s.id]
  }

  /** The live map with every talkgroup carrying the label set to one flag. */
  function Toggled(systems: seq<SystemConfig>, kind: Kind, name: string, flag: bool, m: FeedMap): FeedMap {
    map s | s in m :: map t | t in m[s] :: if Carries(systems, kind, name, s, t) then flag else m[s][t]
  }

  // ---- Status, from the index ----

  predicate AllOff(entry: map<nat, seq<nat>>, m: FeedMap) {
    forall s | s in entry :: forall t | t in entry[s] :: s in m && !Flag(m, s, t)
  }

  predicate AllOn(entry: map<nat, seq<nat>>, m: FeedMap) {
    forall s | s in entry :: forall t | t in entry[s] :: s in m && Flag(m, s, t)
  }

  function StatusOf(entry: map<nat, seq<nat>>, m: FeedMap): Status {
    if AllOff(entry, m) then Off else if AllOn(entry, m) then On else Partial
  }

  function Statuses(index: Index, m: FeedMap): map<string, Status> {
    map l | l in index :: StatusOf(index[l], m)
  }

  // ---- When reading the flags throws ----

  /** The system is in the map and the talkgroup is not: reading its flag throws. Of an unknown system no flag is
      read. */
  predicate Missing(m: FeedMap, sys: nat, tg: nat) {
    sys in m && tg !in m[sys]
  }

  /** Every talkgroup listed before position j of system s has the flag, so a scan for that flag gets there. */
  predicate Reached(entry: map<nat, seq<nat>>, m: FeedMap, flag: bool, s: nat, j: nat) {
    forall s' | s' in entry && s' <= s ::
      forall j' | 0 <= j' < |entry[s']| && (s' < s || j' < j) ::
        Known(m, s', entry[s'][j']) && m[s'][entry[s'][j']] == flag
  }

  predicate ThrowsAt(entry: map<nat, seq<nat>>, m: FeedMap, s: nat, j: nat) {
    s in entry && j < |entry[s]| && Missing(m, s, entry[s][j]) &&
      (Reached(entry, m, false, s, j) || Reached(entry, m, true, s, j))
  }

  /** One of the two scans of an entry, for all off and for all on, reaches a missing talkgroup. */
  predicate EntryThrows(entry: map<nat, seq<nat>>, m: FeedMap) {
    exists s | s in entry :: exists j | 0 <= j < |entry[s]| :: ThrowsAt(entry, m, s, j)
  }

  predicate IndexThrows(index: Index, m: FeedMap) {
    exists l | l in index :: EntryThrows(index[l], m)
  }

  /** The index lists a talkgroup that the map lacks in a system it has. */
  predicate Lacks(index: Index, m: FeedMap) {
    exists l | l in index :: exists s | s in index[l] :: exists t | t in index[l][s] :: Missing(m, s, t)
  }

  lemma NothingLackedNothingThrown(index: Index, m: FeedMap)
    requires !Lacks(index, m)
    ensures !IndexThrows(index, m)
  {
    forall l, s, j | l in index && s in index[l] && 0 <= j < |index[l][s]| ensures !ThrowsAt(index[l], m, s, j) {
      assert index[l][s][j] in index[l][s];
    }
  }

  predicate SystemLacks(entry: map<nat, seq<nat>>, m: FeedMap, s: nat) {
    s in entry && exists t | t in entry[s] :: Missing(m, s, t)
  }

  lemma {:induction false} FirstLacking(entry: map<nat, seq<nat>>, m: FeedMap, s: nat) returns (first: nat)
    requires SystemLacks(entry, m, s)
    ensures SystemLacks(entry, m, first) && forall s': nat | s' < first :: !SystemLacks(entry, m, s')
    decreases s
  {
    if s': nat :| s' < s && SystemLacks(entry, m, s') {
      first := FirstLacking(entry, m, s');
    } else {
      first := s;
    }
  }

  lemma {:induction false} FirstMissing(row: seq<nat>, m: FeedMap, s: nat, n: nat) returns (j: nat)
    requires n < |row| && Missing(m, s, row[n])
    ensures j < |row| && Missing(m, s, row[j]) && forall j' | 0 <= j' < j :: !Missing(m, s, row[j'])
    decreases n
  {
    if n': nat :| n' < n && Missing(m, s, row[n']) {
      j := FirstMissing(row, m, s, n');
    } else {
      j := n;
    }
  }

  /** Unless a scan throws, an entry said to be all off or all on has every one of its talkgroups in the map, so the
      status is the one the scans find. */
  lemma StatusIsRead(entry: map<nat, seq<nat>>, m: FeedMap)
    requires !EntryThrows(entry, m) && (AllOff(entry, m) || AllOn(entry, m))
    ensures forall s | s in entry :: forall t | t in entry[s] :: Known(m, s, t)
  {
    if s: nat :| SystemLacks(entry, m, s) {
      var first := FirstLacking(entry, m, s);
      var n :| 0 <= n < |entry[first]| && Missing(m, first, entry[first][n]);
      var j := FirstMissing(entry[first], m, first, n);
      var on := !AllOff(entry, m);
      forall s', j' | s' in entry && s' <= first && 0 <= j' < |entry[s']| && (s' < first || j' < j)
        ensures Known(m, s', entry[s'][j']) && m[s'][entry[s'][j']] == on
      {
        assert entry[s'][j'] in entry[s'];
        assert !SystemLacks(entry, m, s') || s' == first;
      }
      assert Reached(entry, m, on, first, j);
      assert ThrowsAt(entry, m, first, j);
    } else {
      forall s, t | s in entry && t in entry[s] ensures Known(m, s, t) {
        assert !SystemLacks(entry, m, s);
      }
    }
  }

  // ---- The index the server builds ----

  predicate NoDuplicates(s: seq<nat>) {
    forall i, j | 0 <= i < j < |s| :: s[i] != s[j]
  }

  /** No empty entries, no repeated talkgroup, nothing that does not carry the label. */
  predicate Sound(index: Index, systems: seq<SystemConfig>, kind: Kind) {
    forall l | l in index ::
      index[l] != map[] &&
      forall s | s in index[l] ::
        index[l][s] != [] && NoDuplicates(index[l][s]) &&
        forall t | t in index[l][s] :: Carries(systems, kind, l, s, t)
  }

  predicate Listed(index: Index, name: string, sys: nat, tg: nat) {
    name in index && sys in index[name] && tg in index[name][sys]
  }

  predicate Complete(index: Index, systems: seq<SystemConfig>, kind: Kind) {
    forall s | s in systems :: forall t | t in s.talkgroups :: Listed(index, LabelOf(kind, t), s.id, t.id)
  }

  predicate Exact(index: Index, systems: seq<SystemConfig>, kind: Kind) {
    Sound(index, systems, kind) && Complete(index, systems, kind)
  }

  lemma ListedIffCarries(index: Index, systems: seq<SystemConfig>, kind: Kind, name: string, sys: nat, tg: nat)
    requires Exact(index, systems, kind)
    ensures Listed(index, name, sys, tg) <==> Carries(systems, kind, name, sys, tg)
  {
  }

  predicate DistinctTalkgroups(systems: seq<SystemConfig>) {
    forall s, s', t, t' | s in systems && s' in systems && s.id == s'.id && t in s.talkgroups && t' in s'.talkgroups
      && t.id == t'.id :: t == t'
  }

  /** The lists of one kind partition the configured talkgroups: no talkgroup is listed under two labels. */
  lemma IndexPartitions(index: Index, systems: seq<SystemConfig>, kind: Kind, sys: nat, tg: nat, l: string, l': string)
    requires Exact(index, systems, kind) && DistinctTalkgroups(systems)
    requires Listed(index, l, sys, tg) && Listed(index, l', sys, tg)
    ensures l == l'
  {
  }

  // ---- Toggling ----

  lemma ToggledFlags(systems: seq<SystemConfig>, kind: Kind, name: string, flag: bool, m: FeedMap, s: nat, t: nat)
    requires Covers(m, systems)
    ensures SameKeys(Toggled(systems, kind, name, flag, m), m)
    ensures Flag(Toggled(systems, kind, name, flag, m), s, t) ==
            if Carries(systems, kind, name, s, t) then flag else Flag(m, s, t)
  {
  }

  lemma EntryIsCovered(index: Index, systems: seq<SystemConfig>, kind: Kind, name: string, m: FeedMap, s: nat, t: nat)
    requires Exact(index, systems, kind) && Covers(m, systems) && Listed(index, name, s, t)
    ensures s in m && t in m[s]
  {
  }

  /** After a toggle the recomputed status is Off if it was On, and On if it was Off or Partial: never Partial. */
  lemma ToggleSettlesStatus(index: Index, systems: seq<SystemConfig>, kind: Kind, name: string, m: FeedMap)
    requires Exact(index, systems, kind) && Covers(m, systems) && name in index
    ensures
      var was := StatusOf(index[name], m);
      StatusOf(index[name], Toggled(systems, kind, name, was != On, m)) == if was == On then Off else On
  {
    var was := StatusOf(index[name], m);
    var m' := Toggled(systems, kind, name, was != On, m);
    forall s, t | s in index[name] && t in index[name][s]
      ensures s in m' && Flag(m', s, t) == (was != On)
    {
      assert Listed(index, name, s, t);
      EntryIsCovered(index, systems, kind, name, m, s, t);
      ToggledFlags(systems, kind, name, was != On, m, s, t);
    }
    var s :| s in index[name];
    assert index[name][s][0] in index[name][s];
  }

  /** With one entry per talkgroup, the toggle of a label leaves the status of every other label of its kind alone. */
  lemma ToggleKeepsOtherStatus(index: Index, systems: seq<SystemConfig>, kind: Kind, name: string, other: string,
                               flag: bool, m: FeedMap)
    requires Exact(index, systems, kind) && Covers(m, systems) && DistinctTalkgroups(systems)
    requires other in index && other != name
    ensures StatusOf(index[other], Toggled(systems, kind, name, flag, m)) == StatusOf(index[other], m)
  {
    var m' := Toggled(systems, kind, name, flag, m);
    forall s, t | s in index[other] && t in index[other][s]
      ensures (s in m' <==> s in m) && Flag(m', s, t) == Flag(m, s, t)
    {
      assert Listed(index, other, s, t);
      ToggledFlags(systems, kind, name, flag, m, s, t);
      if Carries(systems, kind, name, s, t) {
        ListedIffCarries(index, systems, kind, name, s, t);
        IndexPartitions(index, systems, kind, s, t, name, other);
      }
    }
  }

  // ---- The scan of a toggle ----

  /** Where a scan of the configured systems got to: it stops with an exception at an unknown system, or at a talkgroup
      that it should set and the map lacks. */
  datatype Scan = Scan(live: FeedMap, stopped: bool)

  function ScanTalkgroups(sys: nat, tgs: seq<TalkgroupConfig>, kind: Kind, name: string, flag: bool, m: FeedMap): Scan {
    if tgs == [] then Scan(m, false)
    else if sys !in m || (LabelOf(kind, tgs[0]) == name && tgs[0].id !in m[sys]) then Scan(m, true)
    else
      ScanTalkgroups(sys, tgs[1..], kind, name, flag,
                     if LabelOf(kind, tgs[0]) == name then Set(m, sys, tgs[0].id, flag) else m)
  }

  function ScanSystems(systems: seq<SystemConfig>, kind: Kind, name: string, flag: bool, m: FeedMap): Scan {
    if systems == [] then Scan(m, false)
    else
      var r := ScanTalkgroups(systems[0].id, systems[0].talkgroups, kind, name, flag, m);
      if r.stopped then r else ScanSystems(systems[1..], kind, name, flag, r.live)
  }

  lemma ScanStep(sys: nat, tgs: seq<TalkgroupConfig>, kind: Kind, name: string, flag: bool, m: FeedMap)
    ensures
      ScanTalkgroups(sys, tgs, kind, name, flag, m) ==
      if tgs == [] then Scan(m, false)
      else if sys !in m || (LabelOf(kind, tgs[0]) == name && tgs[0].id !in m[sys]) then Scan(m, true)
      else if LabelOf(kind, tgs[0]) == name then
        ScanTalkgroups(sys, tgs[1..], kind, name, flag, Set(m, sys, tgs[0].id, flag))
      else ScanTalkgroups(sys, tgs[1..], kind, name, flag, m)
  {
  }

  lemma ScanSystemStep(systems: seq<SystemConfig>, kind: Kind, name: string, flag: bool, m: FeedMap)
    ensures
      ScanSystems(systems, kind, name, flag, m) ==
      if systems == [] then Scan(m, false)
      else
        var r := ScanTalkgroups(systems[0].id, systems[0].talkgroups, kind, name, flag, m);
        if r.stopped then r else ScanSystems(systems[1..], kind, name, flag, r.live)
  {
  }

  /** Every configured talkgroup has its system in the map, and is itself there if it carries the label. */
  predicate Settable(systems: seq<SystemConfig>, kind: Kind, name: string, m: FeedMap) {
    forall s | s in systems :: forall t | t in s.talkgroups ::
      s.id in m && (LabelOf(kind, t) == name ==> t.id in m[s.id])
  }

  lemma SettableKeys(systems: seq<SystemConfig>, kind: Kind, name: string, m: FeedMap, m': FeedMap)
    requires SameKeys(m, m')
    ensures Settable(systems, kind, name, m) <==> Settable(systems, kind, name, m')
  {
  }

  lemma {:induction false} ScanRow(sys: nat, tgs: seq<TalkgroupConfig>, kind: Kind, name: string, flag: bool,
                                   m: FeedMap)
    ensures
      var r, row := ScanTalkgroups(sys, tgs, kind, name, flag, m), [SystemConfig(sys, tgs)];
      && SameKeys(r.live, m)
      && (r.stopped <==> !Settable(row, kind, name, m))
      && (!r.stopped ==> r.live == Toggled(row, kind, name, flag, m))
  {
    var row := [SystemConfig(sys, tgs)];
    if tgs == [] {
      ToggledNothing(row, kind, name, flag, m);
    } else {
      var t, rest := tgs[0], [SystemConfig(sys, tgs[1..])];
      assert t in tgs && row[0] in row;
      if sys in m && (LabelOf(kind, t) == name ==> t.id in m[sys]) {
        var m1 := if LabelOf(kind, t) == name then Set(m, sys, t.id, flag) else m;
        assert SameKeys(m1, m);
        ScanRow(sys, tgs[1..], kind, name, flag, m1);
        SettableRow(sys, tgs, kind, name, m, m1);
        ToggledRow(sys, tgs, kind, name, flag, m);
      }
    }
  }

  lemma ToggledNothing(row: seq<SystemConfig>, kind: Kind, name: string, flag: bool, m: FeedMap)
    requires forall s | s in row :: s.talkgroups == []
    ensures Toggled(row, kind, name, flag, m) == m
  {
    forall s | s in m ensures Toggled(row, kind, name, flag, m)[s] == m[s] {
    }
  }

  lemma SettableRow(sys: nat, tgs: seq<TalkgroupConfig>, kind: Kind, name: string, m: FeedMap, m1: FeedMap)
    requires tgs != [] && sys in m && (LabelOf(kind, tgs[0]) == name ==> tgs[0].id in m[sys]) && SameKeys(m1, m)
    ensures Settable([SystemConfig(sys, tgs)], kind, name, m) <==>
              Settable([SystemConfig(sys, tgs[1..])], kind, name, m1)
  {
    var a, b := SystemConfig(sys, tgs), SystemConfig(sys, tgs[1..]);
    assert forall t | t in tgs :: t == tgs[0] || t in tgs[1..];
    assert a in [a] && b in [b];
  }

  lemma ToggledRow(sys: nat, tgs: seq<TalkgroupConfig>, kind: Kind, name: string, flag: bool, m: FeedMap)
    requires tgs != [] && sys in m && (LabelOf(kind, tgs[0]) == name ==> tgs[0].id in m[sys])
    ensures
      var m1 := if LabelOf(kind, tgs[0]) == name then Set(m, sys, tgs[0].id, flag) else m;
      Toggled([SystemConfig(sys, tgs[1..])], kind, name, flag, m1) ==
        Toggled([SystemConfig(sys, tgs)], kind, name, flag, m)
  {
    var a, b := [SystemConfig(sys, tgs)], [SystemConfig(sys, tgs[1..])];
    var m1 := if LabelOf(kind, tgs[0]) == name then Set(m, sys, tgs[0].id, flag) else m;
    forall s, t
      ensures Carries(a, kind, name, s, t) <==>
                Carries(b, kind, name, s, t) || (s == sys && t == tgs[0].id && LabelOf(kind, tgs[0]) == name)
    {
      CarriesRow(sys, tgs, kind, name, s, t);
    }
    hide Carries;
    SameMaps(Toggled(b, kind, name, flag, m1), Toggled(a, kind, name, flag, m));
  }

  lemma SameMaps(a: FeedMap, b: FeedMap)
    requires SameKeys(a, b) && forall s, t | s in a && t in a[s] :: a[s][t] == b[s][t]
    ensures a == b
  {
    forall s | s in a ensures a[s] == b[s] {
    }
  }

  lemma CarriesRow(sys: nat, tgs: seq<TalkgroupConfig>, kind: Kind, name: string, s: nat, t: nat)
    requires tgs != []
    ensures
      Carries([SystemConfig(sys, tgs)], kind, name, s, t) <==>
      Carries([SystemConfig(sys, tgs[1..])], kind, name, s, t) ||
        (s == sys && t == tgs[0].id && LabelOf(kind, tgs[0]) == name)
  {
    var a, b := SystemConfig(sys, tgs), SystemConfig(sys, tgs[1..]);
    assert a in [a] && b in [b];
    assert forall u :: u in tgs <==> u == tgs[0] || u in tgs[1..];
  }

  lemma ToggledSplits(a: SystemConfig, rest: seq<SystemConfig>, kind: Kind, name: string, flag: bool, m: FeedMap)
    ensures Toggled(rest, kind, name, flag, Toggled([a], kind, name, flag, m)) ==
              Toggled([a] + rest, kind, name, flag, m)
  {
    forall s, t
      ensures Carries([a] + rest, kind, name, s, t) <==>
                Carries([a], kind, name, s, t) || Carries(rest, kind, name, s, t)
    {
      assert forall x :: x in [a] + rest <==> x in [a] || x in rest;
    }
    hide Carries;
    SameMaps(Toggled(rest, kind, name, flag, Toggled([a], kind, name, flag, m)),
             Toggled([a] + rest, kind, name, flag, m));
  }

  /** For every map: the scan keeps its keys, it stops exactly when some talkgroup cannot be set, and otherwise it has
      set exactly the talkgroups that carry the label. */
  lemma {:induction false} ScanIsToggle(systems: seq<SystemConfig>, kind: Kind, name: string, flag: bool, m: FeedMap)
    ensures
      var r := ScanSystems(systems, kind, name, flag, m);
      && SameKeys(r.live, m)
      && (r.stopped <==> !Settable(systems, kind, name, m))
      && (!r.stopped ==> r.live == Toggled(systems, kind, name, flag, m))
  {
    if systems == [] {
      ToggledNothing([], kind, name, flag, m);
    } else {
      var a, rest := systems[0], systems[1..];
      assert systems == [a] + rest && a == SystemConfig(a.id, a.talkgroups);
      ScanRow(a.id, a.talkgroups, kind, name, flag, m);
      var m1 := ScanTalkgroups(a.id, a.talkgroups, kind, name, flag, m).live;
      ScanIsToggle(rest, kind, name, flag, m1);
      hide Settable, Toggled;
      SettableKeys(rest, kind, name, m, m1);
      SettableSplits(a, rest, kind, name, m);
      ToggledSplits(a, rest, kind, name, flag, m);
    }
  }

  lemma SettableSplits(a: SystemConfig, rest: seq<SystemConfig>, kind: Kind, name: string, m: FeedMap)
    ensures Settable([a] + rest, kind, name, m) <==> Settable([a], kind, name, m) && Settable(rest, kind, name, m)
  {
    assert forall x :: x in [a] + rest <==> x in [a] || x in rest;
    assert forall t | t in a.talkgroups :: a in [a];
  }

  lemma CoveredIsSettable(systems: seq<SystemConfig>, kind: Kind, name: string, m: FeedMap)
    requires Covers(m, systems)
    ensures Settable(systems, kind, name, m)
  {
  }

  // ---- A new configuration ----

  /** The status `find` meets first for a label: group categories precede tag categories of the same label. */
  function FindStatus(groups: map<string, Status>, tags: map<string, Status>, name: string): Option<Status> {
    if name in groups then Some(groups[name]) else if name in tags then Some(tags[name]) else None
  }

  function DefaultFlag(groups: map<string, Status>, tags: map<string, Status>, tg: TalkgroupConfig): bool {
    !(FindStatus(groups, tags, tg.group) == Some(Off) || FindStatus(groups, tags, tg.tag) == Some(Off))
  }

  function RebuildTalkgroups(talkgroups: seq<TalkgroupConfig>, prior: map<nat, bool>,
                             groups: map<string, Status>, tags: map<string, Status>, acc: map<nat, bool>)
    : (r: map<nat, bool>)
    ensures r.Keys == acc.Keys + set t | t in talkgroups :: t.id
    ensures forall t | t in r && t in prior && (t in acc ==> acc[t] == prior[t]) :: r[t] == prior[t]
  {
    if talkgroups == [] then acc
    else
      var t := talkgroups[0];
      var flag := if t.id in prior then prior[t.id] else DefaultFlag(groups, tags, t);
      assert talkgroups == [t] + talkgroups[1..];
      RebuildTalkgroups(talkgroups[1..], prior, groups, tags, acc[t.id := flag])
  }

  function RebuildMap(systems: seq<SystemConfig>, prior: FeedMap,
                      groups: map<string, Status>, tags: map<string, Status>, acc: FeedMap): (r: FeedMap)
    decreases |systems|
  {
    if systems == [] then acc
    else
      RebuildMap(systems[1..], prior, groups, tags,
                 acc[systems[0].id := RebuiltRow(systems[0], prior, groups, tags, acc)])
  }

  predicate Keeps(r: FeedMap, prior: FeedMap) {
    forall s | s in r && s in prior :: forall t | t in r[s] && t in prior[s] :: r[s][t] == prior[s][t]
  }

  predicate NamesSystem(systems: seq<SystemConfig>, sys: nat) {
    exists c | c in systems :: c.id == sys
  }

  predicate NamesTalkgroup(systems: seq<SystemConfig>, sys: nat, tg: nat) {
    exists c | c in systems :: c.id == sys && exists u | u in c.talkgroups :: u.id == tg
  }

  predicate Within(r: FeedMap, systems: seq<SystemConfig>) {
    forall s | s in r :: NamesSystem(systems, s) && forall t | t in r[s] :: NamesTalkgroup(systems, s, t)
  }

  function RebuiltRow(s: SystemConfig, prior: FeedMap, groups: map<string, Status>, tags: map<string, Status>,
                      acc: FeedMap): map<nat, bool>
  {
    RebuildTalkgroups(s.talkgroups, if s.id in prior then prior[s.id] else map[], groups, tags,
                      if s.id in acc then acc[s.id] else map[])
  }

  lemma RebuildOne(done: seq<SystemConfig>, s: SystemConfig, prior: FeedMap,
                   groups: map<string, Status>, tags: map<string, Status>, acc: FeedMap)
    requires Covers(acc, done) && Keeps(acc, prior) && Within(acc, done)
    ensures
      var next := acc[s.id := RebuiltRow(s, prior, groups, tags, acc)];
      Covers(next, done + [s]) && Keeps(next, prior) && Within(next, done + [s])
  {
  }

  lemma {:induction false} RebuildFrom(done: seq<SystemConfig>, todo: seq<SystemConfig>, prior: FeedMap,
                                       groups: map<string, Status>, tags: map<string, Status>, acc: FeedMap)
    requires Covers(acc, done) && Keeps(acc, prior) && Within(acc, done)
    ensures
      var r := RebuildMap(todo, prior, groups, tags, acc);
      Covers(r, done + todo) && Keeps(r, prior) && Within(r, done + todo)
    decreases |todo|
  {
    if todo == [] {
      assert done + todo == done;
    } else {
      RebuildOne(done, todo[0], prior, groups, tags, acc);
      RebuildFrom(done + [todo[0]], todo[1..], prior, groups, tags,
                  acc[todo[0].id := RebuiltRow(todo[0], prior, groups, tags, acc)]);
      assert done + [todo[0]] + todo[1..] == done + todo;
    }
  }

  /** A configuration message leaves the live map covering exactly the configured talkgroups and every
      talkgroup it already knew with its flag. */
  lemma RebuildCoversConfig(systems: seq<SystemConfig>, prior: FeedMap, groups: map<string, Status>,
                            tags: map<string, Status>)
    ensures
      var r := RebuildMap(systems, prior, groups, tags, map[]);
      Covers(r, systems) && Keeps(r, prior) && Within(r, systems)
  {
    RebuildFrom([], systems, prior, groups, tags, map[]);
    assert [] + systems == systems;
  }

  // ---- Flags of talkgroups new to the live map ----

  /** The category shown under this name is off; a group hides a tag of the same name. */
  predicate ShownOff(groups: map<string, Status>, tags: map<string, Status>, name: string) {
    if name in groups then groups[name] == Off else name in tags && tags[name] == Off
  }

  /** A new talkgroup starts active unless its group or its tag is shown as off. */
  predicate StartsAs(groups: map<string, Status>, tags: map<string, Status>, t: TalkgroupConfig, flag: bool) {
    flag == !(ShownOff(groups, tags, t.group) || ShownOff(groups, tags, t.tag))
  }

  predicate StartsByEntry(systems: seq<SystemConfig>, groups: map<string, Status>, tags: map<string, Status>, sys: nat,
                          tg: nat, flag: bool)
  {
    exists c | c in systems :: c.id == sys && exists t | t in c.talkgroups ::
      t.id == tg && StartsAs(groups, tags, t, flag)
  }

  predicate Defaults(r: FeedMap, prior: FeedMap, systems: seq<SystemConfig>, groups: map<string, Status>,
                     tags: map<string, Status>)
  {
    forall s | s in r :: forall t | t in r[s] && !Known(prior, s, t) ::
      StartsByEntry(systems, groups, tags, s, t, r[s][t])
  }

  lemma {:induction false} RowDefaults(talkgroups: seq<TalkgroupConfig>, prior: map<nat, bool>,
                                       groups: map<string, Status>, tags: map<string, Status>, acc: map<nat, bool>)
    ensures
      var r := RebuildTalkgroups(talkgroups, prior, groups, tags, acc);
      forall t | t in r && t !in prior ::
        (t in acc && r[t] == acc[t]) || exists u | u in talkgroups :: u.id == t && StartsAs(groups, tags, u, r[t])
  {
    if talkgroups != [] {
      var t := talkgroups[0];
      var flag := if t.id in prior then prior[t.id] else DefaultFlag(groups, tags, t);
      assert t.id !in prior ==> StartsAs(groups, tags, t, flag);
      RowDefaults(talkgroups[1..], prior, groups, tags, acc[t.id := flag]);
      assert talkgroups == [t] + talkgroups[1..];
    }
  }

  lemma SystemDefaults(done: seq<SystemConfig>, s: SystemConfig, prior: FeedMap,
                       groups: map<string, Status>, tags: map<string, Status>, acc: FeedMap)
    requires Defaults(acc, prior, done, groups, tags)
    ensures Defaults(acc[s.id := RebuiltRow(s, prior, groups, tags, acc)], prior, done + [s], groups, tags)
  {
    hide StartsAs, RebuildTalkgroups;
    RowDefaults(s.talkgroups, if s.id in prior then prior[s.id] else map[], groups, tags,
                if s.id in acc then acc[s.id] else map[]);
    var next := acc[s.id := RebuiltRow(s, prior, groups, tags, acc)];
    forall sys, t | sys in next && t in next[sys] && !Known(prior, sys, t)
      ensures StartsByEntry(done + [s], groups, tags, sys, t, next[sys][t])
    {
      if sys == s.id && !(sys in acc && t in acc[sys] && next[sys][t] == acc[sys][t]) {
        assert s in done + [s];
      } else {
        assert StartsByEntry(done, groups, tags, sys, t, acc[sys][t]);
      }
    }
  }

  lemma {:induction false} DefaultsFrom(done: seq<SystemConfig>, todo: seq<SystemConfig>, prior: FeedMap,
                                        groups: map<string, Status>, tags: map<string, Status>, acc: FeedMap)
    requires Defaults(acc, prior, done, groups, tags)
    ensures Defaults(RebuildMap(todo, prior, groups, tags, acc), prior, done + todo, groups, tags)
    decreases |todo|
  {
    hide Defaults, RebuiltRow;
    if todo == [] {
      assert done + todo == done;
    } else {
      var next := acc[todo[0].id := RebuiltRow(todo[0], prior, groups, tags, acc)];
      SystemDefaults(done, todo[0], prior, groups, tags, acc);
      DefaultsFrom(done + [todo[0]], todo[1..], prior, groups, tags, next);
      assert done + [todo[0]] + todo[1..] == done + todo;
    }
  }

  /** After a configuration message a talkgroup the live map did not know is active exactly unless its group or its tag
      was shown as off. */
  lemma RebuildDefaults(systems: seq<SystemConfig>, prior: FeedMap, groups: map<string, Status>,
                        tags: map<string, Status>, c: SystemConfig, t: TalkgroupConfig)
    requires DistinctTalkgroups(systems) && c in systems && t in c.talkgroups && !Known(prior, c.id, t.id)
    ensures
      var r := RebuildMap(systems, prior, groups, tags, map[]);
      Known(r, c.id, t.id) && StartsAs(groups, tags, t, r[c.id][t.id])
  {
    hide StartsAs, StartsByEntry, RebuildMap, DistinctTalkgroups;
    RebuildCoversConfig(systems, prior, groups, tags);
    DefaultsFrom([], systems, prior, groups, tags, map[]);
    assert [] + systems == systems;
    OneEntry(systems, groups, tags, c, t, RebuildMap(systems, prior, groups, tags, map[])[c.id][t.id]);
  }

  lemma OneEntry(systems: seq<SystemConfig>, groups: map<string, Status>, tags: map<string, Status>, c: SystemConfig,
                 t: TalkgroupConfig, flag: bool)
    requires DistinctTalkgroups(systems) && c in systems && t in c.talkgroups
    requires StartsByEntry(systems, groups, tags, c.id, t.id, flag)
    ensures StartsAs(groups, tags, t, flag)
  {
    hide StartsAs;
  }

  /** What the shown status says, talkgroup by talkgroup. */
  lemma StatusMeans(entry: map<nat, seq<nat>>, m: FeedMap)
    ensures
      var off := forall s | s in entry :: forall t | t in entry[s] :: s in m && (t in m[s] ==> !m[s][t]);
      var on := forall s | s in entry :: forall t | t in entry[s] :: s in m && t in m[s] && m[s][t];
      && (StatusOf(entry, m) == Off <==> off)
      && (StatusOf(entry, m) == On <==> on && !off)
      && (StatusOf(entry, m) == Partial <==> !on && !off)
  {
  }
}
