/** Two answers to "may this client see this talkgroup": the access test made for every call, and the scoped
    list of systems sent to the client. */
module Scope {
  import opened Feed
  import opened Rows
  import opened Store
  import opened Population
  import L = Labels
  import C = Categories

  /** A JSON number; negative ones are not modelled. */
  type Num = r: real | r >= 0.0

  /** None stands for a JSON value of another type. */
  datatype TalkgroupScope = Every | OtherText | Chosen(ids: seq<Option<Num>>) | NoScope
  datatype Item = NotAnObject | Item(id: Option<Num>, talkgroups: TalkgroupScope)
  datatype Scopes = Unset | Text(text: string) | Items(items: seq<Item>)

  // ---- The access test ----

  predicate Chooses(s: TalkgroupScope, tg: nat) {
    s.Every? || (s.Chosen? && Some(tg as real) in s.ids)
  }

  predicate GrantedBy(items: seq<Item>, sys: nat, tg: nat) {
    exists i | i in items :: i.Item? && i.id == Some(sys as real) && Chooses(i.talkgroups, tg)
  }

  predicate Grants(scopes: Scopes, sys: nat, tg: nat) {
    match scopes
    case Unset => false
    case Text(t) => t == "*"
    case Items(items) => GrantedBy(items, sys, tg)
  }

  method HasAccess(scopes: Scopes, sys: nat, tg: nat) returns (ok: bool)
    ensures ok == Grants(scopes, sys, tg)
  {
    match scopes {
      case Unset => return false;
      case Text(t) => return t == "*";
      case Items(items) =>
        for i := 0 to |items|
          invariant !GrantedBy(items[..i], sys, tg)
        {
          assert items[..i + 1] == items[..i] + [items[i]];
          if items[i].Item? && items[i].id == Some(sys as real) {
            match items[i].talkgroups {
              case Every => return true;
              case Chosen(ids) =>
                for j := 0 to |ids|
                  invariant Some(tg as real) !in ids[..j]
                {
                  if ids[j] == Some(tg as real) {
                    return true;
                  }
                }
                assert ids[..|ids|] == ids;
              case _ =>
            }
          }
        }
        assert items[..|items|] == items;
        return false;
    }
  }

  // ---- The systems a client is shown, before labels are resolved ----

  /** Numbers are truncated to ids. */
  function RawTalkgroup(s: System, id: Option<Num>): seq<Talkgroup> {
    var i := if id.Some? then RowAt(s.talkgroups, id.value.Floor) else -1;
    if i == -1 then [] else [s.talkgroups[i]]
  }

  function RawTalkgroups(s: System, ids: seq<Option<Num>>): seq<Talkgroup> {
    if ids == [] then [] else RawTalkgroup(s, ids[0]) + RawTalkgroups(s, ids[1..])
  }

  function RawOf(list: seq<System>, item: Item): seq<System> {
    if item.NotAnObject? || item.id.None? then []
    else
      var i := SystemAt(list, item.id.value.Floor);
      if i == -1 then []
      else
        match item.talkgroups
        case Every => [list[i]]
        case Chosen(ids) => [list[i].(talkgroups := RawTalkgroups(list[i], ids))]
        case _ => []
  }

  function RawItems(list: seq<System>, items: seq<Item>): seq<System> {
    if items == [] then [] else RawOf(list, items[0]) + RawItems(list, items[1..])
  }

  /** `access` is None for a client without an access of its own. */
  function Raw(list: seq<System>, access: Option<Scopes>): seq<System> {
    match access
    case None => list
    case Some(Unset) => list
    case Some(Text(t)) => if t == "*" then list else []
    case Some(Items(items)) => RawItems(list, items)
  }

  method ChooseTalkgroups(s: System, ids: seq<Option<Num>>) returns (out: seq<Talkgroup>)
    ensures out == RawTalkgroups(s, ids)
  {
    hide RawTalkgroup;
    out := [];
    for i := 0 to |ids|
      invariant out + RawTalkgroups(s, ids[i..]) == RawTalkgroups(s, ids)
    {
      assert ids[i..][1..] == ids[i + 1..];
      var next := ChooseTalkgroup(s, ids[i]);
      assert out + (next + RawTalkgroups(s, ids[i + 1..])) == (out + next) + RawTalkgroups(s, ids[i + 1..]);
      out := out + next;
    }
    assert ids[|ids|..] == [];
  }

  method ChooseTalkgroup(s: System, id: Option<Num>) returns (out: seq<Talkgroup>)
    ensures out == RawTalkgroup(s, id)
  {
    if id.None? {
      return [];
    }
    var j := RowAt(s.talkgroups, id.value.Floor);
    if j == -1 {
      return [];
    }
    out := [s.talkgroups[j]];
  }

  method ChooseSystem(list: seq<System>, item: Item) returns (out: seq<System>)
    ensures out == RawOf(list, item)
  {
    if item.NotAnObject? || item.id.None? {
      return [];
    }
    var j := SystemAt(list, item.id.value.Floor);
    if j == -1 {
      return [];
    }
    match item.talkgroups {
      case Every => out := [list[j]];
      case Chosen(ids) =>
        var talkgroups := ChooseTalkgroups(list[j], ids);
        out := [list[j].(talkgroups := talkgroups)];
      case _ => out := [];
    }
  }

  method RawSystems(list: seq<System>, access: Option<Scopes>) returns (raw: seq<System>)
    ensures raw == Raw(list, access)
  {
    hide RawOf;
    match access {
      case None => return list;
      case Some(Unset) => return list;
      case Some(Text(t)) => return if t == "*" then list else [];
      case Some(Items(items)) =>
        raw := [];
        for i := 0 to |items|
          invariant raw + RawItems(list, items[i..]) == RawItems(list, items)
        {
          assert items[i..][1..] == items[i + 1..];
          var next := ChooseSystem(list, items[i]);
          assert raw + (next + RawItems(list, items[i + 1..])) == (raw + next) + RawItems(list, items[i + 1..]);
          raw := raw + next;
        }
        assert items[|items|..] == [];
    }
  }

  // ---- Resolving labels ----

  datatype ScopedTalkgroup = ScopedTalkgroup(
    id: nat, group: string, tag: string, caption: string, name: string, order: nat, frequency: Option<nat>,
    led: Option<string>)

  datatype ScopedSystem = ScopedSystem(
    id: nat, caption: string, order: nat, led: Option<string>, talkgroups: seq<ScopedTalkgroup>, units: seq<Unit>)

  predicate Resolvable(t: Talkgroup, groups: seq<L.Label>, tags: seq<L.Label>) {
    L.FindId(groups, t.fields.groupId).Some? && L.FindId(tags, t.fields.tagId).Some?
  }

  function Resolved(t: Talkgroup, groups: seq<L.Label>, tags: seq<L.Label>): ScopedTalkgroup
    requires Resolvable(t, groups, tags)
  {
    ScopedTalkgroup(t.id, L.FindId(groups, t.fields.groupId).value.text, L.FindId(tags, t.fields.tagId).value.text,
                    t.fields.caption, t.fields.name, t.order, t.fields.frequency, t.fields.led)
  }

  /** The shown talkgroup is a resolvable one with its own fields; only the order may have been renumbered. */
  predicate IsShown(o: ScopedTalkgroup, t: Talkgroup, groups: seq<L.Label>, tags: seq<L.Label>) {
    Resolvable(t, groups, tags) && o == Resolved(t, groups, tags).(order := o.order)
  }

  predicate ComesFrom(o: ScopedTalkgroup, from: seq<Talkgroup>, groups: seq<L.Label>, tags: seq<L.Label>) {
    exists t | t in from :: IsShown(o, t, groups, tags)
  }

  predicate GoesTo(t: Talkgroup, out: seq<ScopedTalkgroup>, groups: seq<L.Label>, tags: seq<L.Label>) {
    exists o | o in out :: IsShown(o, t, groups, tags)
  }

  function Count(from: seq<Talkgroup>, groups: seq<L.Label>, tags: seq<L.Label>): nat {
    if from == [] then 0 else (if Resolvable(from[0], groups, tags) then 1 else 0) + Count(from[1..], groups, tags)
  }

  lemma {:induction false} CountSplit(a: seq<Talkgroup>, b: seq<Talkgroup>, groups: seq<L.Label>, tags: seq<L.Label>)
    ensures Count(a + b, groups, tags) == Count(a, groups, tags) + Count(b, groups, tags)
  {
    if a == [] {
      assert a + b == b;
    } else {
      assert (a + b)[1..] == a[1..] + b;
      CountSplit(a[1..], b, groups, tags);
    }
  }

  /** What becomes of one raw system's talkgroups: the resolvable ones, as often as they are listed, and no other. */
  predicate Shows(out: seq<ScopedTalkgroup>, from: seq<Talkgroup>, groups: seq<L.Label>, tags: seq<L.Label>) {
    && |out| == Count(from, groups, tags)
    && (forall o | o in out :: ComesFrom(o, from, groups, tags))
    && (forall t | t in from && Resolvable(t, groups, tags) :: GoesTo(t, out, groups, tags))
  }

  predicate SortedTalkgroups(s: seq<ScopedTalkgroup>) {
    forall i, j | 0 <= i < j < |s| :: s[i].order <= s[j].order
  }

  predicate SortedScoped(s: seq<ScopedSystem>) {
    forall i, j | 0 <= i < j < |s| :: s[i].order <= s[j].order
  }

  /** Text order of labels, character by character. */
  predicate TextLess(a: string, b: string) {
    b != "" && (a == "" || a[0] < b[0] || (a[0] == b[0] && TextLess(a[1..], b[1..])))
  }

  lemma {:induction false} TextOrder(a: string, b: string, c: string)
    ensures !TextLess(a, b) && !TextLess(b, c) ==> !TextLess(a, c)
    ensures !(TextLess(a, b) && TextLess(b, a))
    decreases |a| + |b| + |c|
  {
    if a != "" && b != "" && c != "" {
      TextOrder(a[1..], b[1..], c[1..]);
    } else if a != "" && b != "" {
      TextOrder(a[1..], b[1..], c);
    }
  }

  /** At the first place where the texts differ the smaller one has the smaller character, or has ended. */
  predicate FirstDifference(a: string, b: string, n: nat) {
    n <= |a| && n < |b| && a[..n] == b[..n] && (n == |a| || a[n] < b[n])
  }

  lemma DifferenceShifts(a: string, b: string, n: nat)
    requires a != "" && b != "" && a[0] == b[0]
    ensures FirstDifference(a[1..], b[1..], n) <==> FirstDifference(a, b, n + 1)
    ensures !FirstDifference(a, b, 0)
  {
    if n < |a| && n < |b| {
      assert a[..n + 1] == [a[0]] + a[1..][..n] && b[..n + 1] == [b[0]] + b[1..][..n];
      assert a[..n + 1][1..] == a[1..][..n] && b[..n + 1][1..] == b[1..][..n];
    }
  }

  lemma DifferenceAtOnce(a: string, b: string, n: nat)
    requires a != "" && b != "" && a[0] != b[0]
    ensures FirstDifference(a, b, n) <==> n == 0 && a[0] < b[0]
  {
    if n > 0 && n <= |a| && n < |b| {
      assert a[..n][0] != b[..n][0];
    }
  }

  lemma {:induction false} TextLessMeans(a: string, b: string)
    ensures TextLess(a, b) <==> exists n: nat :: FirstDifference(a, b, n)
  {
    if a == "" || b == "" {
      assert a == "" && b != "" ==> FirstDifference(a, b, 0);
    } else if a[0] == b[0] {
      TextLessMeans(a[1..], b[1..]);
      forall n: nat { DifferenceShifts(a, b, n); }
      if n: nat :| FirstDifference(a, b, n) {
        assert FirstDifference(a[1..], b[1..], n - 1);
      }
    } else {
      forall n: nat { DifferenceAtOnce(a, b, n); }
      assert FirstDifference(a, b, 0) <==> a[0] < b[0];
    }
  }

  predicate SortedCaptions(s: seq<Talkgroup>) {
    forall i, j | 0 <= i < j < |s| :: !TextLess(s[j].fields.caption, s[i].fields.caption)
  }

  method SortByCaption(from: seq<Talkgroup>) returns (out: seq<Talkgroup>)
    ensures SortedCaptions(out) && multiset(out) == multiset(from)
  {
    out := [];
    for i := 0 to |from|
      invariant SortedCaptions(out) && multiset(out) == multiset(from[..i])
    {
      var t := from[i];
      var k := |out|;
      while k > 0 && TextLess(t.fields.caption, out[k - 1].fields.caption)
        invariant 0 <= k <= |out|
        invariant forall j | k <= j < |out| :: TextLess(t.fields.caption, out[j].fields.caption)
      {
        k := k - 1;
      }
      CaptionInserted(out, k, t);
      InsertedCounts(out, k, t);
      assert from[..i + 1] == from[..i] + [t];
      out := InsertedAt(out, k, t);
    }
    assert from[..|from|] == from;
  }

  lemma CaptionInserted(s: seq<Talkgroup>, k: nat, t: Talkgroup)
    requires SortedCaptions(s) && k <= |s|
    requires k > 0 ==> !TextLess(t.fields.caption, s[k - 1].fields.caption)
    requires forall j | k <= j < |s| :: TextLess(t.fields.caption, s[j].fields.caption)
    ensures SortedCaptions(InsertedAt(s, k, t))
  {
    var out := InsertedAt(s, k, t);
    forall i, j | 0 <= i < j < |out| ensures !TextLess(out[j].fields.caption, out[i].fields.caption) {
      if j == k {
        TextOrder(t.fields.caption, s[k - 1].fields.caption, s[i].fields.caption);
      } else if i == k {
        TextOrder(t.fields.caption, s[j - 1].fields.caption, t.fields.caption);
      }
    }
  }

  /** The last place of a talkgroup in a list. */
  function LastAt(s: seq<Talkgroup>, t: Talkgroup): (r: nat)
    requires t in s
    ensures r < |s| && s[r] == t && t !in s[r + 1..]
  {
    var n := |s| - 1;
    if s[n] == t then n
    else
      assert s == s[..n] + [s[n]];
      var r := LastAt(s[..n], t);
      assert s[r + 1..] == s[..n][r + 1..] + [s[n]];
      r
  }

  /** The loop numbers shared objects: one that is listed twice keeps the number of its last place. */
  function Numbered(s: seq<Talkgroup>): (r: seq<Talkgroup>)
    ensures |r| == |s| && forall i | 0 <= i < |s| :: r[i].fields == s[i].fields
  {
    seq(|s|, i requires 0 <= i < |s| => s[i].(order := LastAt(s, s[i]) + 1))
  }

  method ResolveTalkgroups(from: seq<Talkgroup>, groups: seq<L.Label>, tags: seq<L.Label>)
    returns (out: seq<ScopedTalkgroup>)
    ensures forall o :: o in out <==> exists t | t in from ::
              Resolvable(t, groups, tags) && o == Resolved(t, groups, tags)
    ensures SortedTalkgroups(out) && |out| == Count(from, groups, tags)
  {
    out := [];
    for i := 0 to |from|
      invariant |out| == Count(from[..i], groups, tags)
      invariant forall o :: o in out <==> exists t | t in from[..i] ::
                  Resolvable(t, groups, tags) && o == Resolved(t, groups, tags)
      invariant SortedTalkgroups(out)
    {
      assert from[..i + 1] == from[..i] + [from[i]];
      CountSplit(from[..i], [from[i]], groups, tags);
      if L.FindId(groups, from[i].fields.groupId).None? {
        continue;
      }
      if L.FindId(tags, from[i].fields.tagId).None? {
        continue;
      }
      out := InsertTalkgroup(out, Resolved(from[i], groups, tags));
    }
    assert from[..|from|] == from;
  }

  lemma TalkgroupInserted(s: seq<ScopedTalkgroup>, k: nat, t: ScopedTalkgroup)
    requires SortedTalkgroups(s) && k <= |s| && (k > 0 ==> s[k - 1].order <= t.order)
    requires forall j | k <= j < |s| :: t.order <= s[j].order
    ensures SortedTalkgroups(InsertedAt(s, k, t))
  {
  }

  method InsertTalkgroup(s: seq<ScopedTalkgroup>, t: ScopedTalkgroup) returns (out: seq<ScopedTalkgroup>)
    requires SortedTalkgroups(s)
    ensures SortedTalkgroups(out) && |out| == |s| + 1 && forall x :: x in out <==> x in s || x == t
  {
    var k := |s|;
    while k > 0 && t.order < s[k - 1].order
      invariant 0 <= k <= |s|
      invariant forall j | k <= j < |s| :: t.order <= s[j].order
    {
      k := k - 1;
    }
    hide InsertedAt;
    TalkgroupInserted(s, k, t);
    InsertedMembers(s, k, t);
    out := InsertedAt(s, k, t);
  }

  lemma PlainShows(out: seq<ScopedTalkgroup>, from: seq<Talkgroup>, groups: seq<L.Label>, tags: seq<L.Label>)
    requires forall o :: o in out <==> exists t | t in from ::
               Resolvable(t, groups, tags) && o == Resolved(t, groups, tags)
    requires |out| == Count(from, groups, tags)
    ensures Shows(out, from, groups, tags)
  {
    forall t | t in from && Resolvable(t, groups, tags) ensures GoesTo(t, out, groups, tags) {
      assert IsShown(Resolved(t, groups, tags), t, groups, tags);
    }
    forall o | o in out ensures ComesFrom(o, from, groups, tags) {
      var t :| t in from && Resolvable(t, groups, tags) && o == Resolved(t, groups, tags);
      assert IsShown(o, t, groups, tags);
    }
  }

  method ScopeTalkgroups(from: seq<Talkgroup>, groups: seq<L.Label>, tags: seq<L.Label>, sortTalkgroups: bool)
    returns (out: seq<ScopedTalkgroup>)
    ensures Shows(out, from, groups, tags) && SortedTalkgroups(out)
    ensures sortTalkgroups ==> ByLabel(out, from, groups, tags)
  {
    hide Shows, SortedTalkgroups;
    if sortTalkgroups {
      var sorted := SortByCaption(from);
      out := ResolveTalkgroups(Numbered(sorted), groups, tags);
      NumberedShows(out, sorted, groups, tags);
      SameMembersShow(out, sorted, from, groups, tags);
    } else {
      out := ResolveTalkgroups(from, groups, tags);
      PlainShows(out, from, groups, tags);
    }
  }

  /** Each order is the place of a talkgroup in a list, the last one if it is listed twice. */
  predicate Ranked(out: seq<ScopedTalkgroup>, sorted: seq<Talkgroup>, groups: seq<L.Label>, tags: seq<L.Label>) {
    forall o | o in out :: 1 <= o.order <= |sorted| && IsShown(o, sorted[o.order - 1], groups, tags) &&
                           sorted[o.order - 1] !in sorted[o.order..]
  }

  /** The talkgroups, renumbered from 1 in the order of their labels. */
  ghost predicate ByLabel(out: seq<ScopedTalkgroup>, from: seq<Talkgroup>, groups: seq<L.Label>, tags: seq<L.Label>) {
    exists sorted: seq<Talkgroup> ::
      SortedCaptions(sorted) && multiset(sorted) == multiset(from) && Ranked(out, sorted, groups, tags)
  }

  lemma NumberedShows(out: seq<ScopedTalkgroup>, sorted: seq<Talkgroup>, groups: seq<L.Label>, tags: seq<L.Label>)
    requires forall o :: o in out <==>
                         exists t | t in Numbered(sorted) ::
                           Resolvable(t, groups, tags) && o == Resolved(t, groups, tags)
    requires |out| == Count(Numbered(sorted), groups, tags)
    ensures Shows(out, sorted, groups, tags) && Ranked(out, sorted, groups, tags)
  {
    hide Numbered, Resolved, Resolvable, IsShown, Count;
    NumberedCount(sorted, Numbered(sorted), groups, tags);
    forall o | o in out
      ensures ComesFrom(o, sorted, groups, tags)
      ensures 1 <= o.order <= |sorted| && IsShown(o, sorted[o.order - 1], groups, tags)
      ensures sorted[o.order - 1] !in sorted[o.order..]
    {
      var n :| n in Numbered(sorted) && Resolvable(n, groups, tags) && o == Resolved(n, groups, tags);
      var i :| 0 <= i < |sorted| && Numbered(sorted)[i] == n;
      ShownNumbered(sorted, i, groups, tags);
    }
    forall t | t in sorted && Resolvable(t, groups, tags) ensures GoesTo(t, out, groups, tags) {
      var i :| 0 <= i < |sorted| && sorted[i] == t;
      SameResolvable(sorted, i, groups, tags);
      assert Numbered(sorted)[i] in Numbered(sorted);
      ShownNumbered(sorted, i, groups, tags);
    }
  }

  lemma SameResolvable(s: seq<Talkgroup>, i: nat, groups: seq<L.Label>, tags: seq<L.Label>)
    requires i < |s|
    ensures Resolvable(Numbered(s)[i], groups, tags) == Resolvable(s[i], groups, tags)
  {
  }

  lemma ShownNumbered(s: seq<Talkgroup>, i: nat, groups: seq<L.Label>, tags: seq<L.Label>)
    requires i < |s| && Resolvable(Numbered(s)[i], groups, tags)
    ensures IsShown(Resolved(Numbered(s)[i], groups, tags), s[i], groups, tags)
    ensures var o := Resolved(Numbered(s)[i], groups, tags).order;
            1 <= o <= |s| && s[o - 1] == s[i] && s[o - 1] !in s[o..]
  {
  }

  lemma {:induction false} NumberedCount(s: seq<Talkgroup>, s': seq<Talkgroup>, groups: seq<L.Label>,
                                         tags: seq<L.Label>)
    requires |s| == |s'| && forall i | 0 <= i < |s| :: s'[i].fields == s[i].fields
    ensures Count(s, groups, tags) == Count(s', groups, tags)
  {
    if s != [] { NumberedCount(s[1..], s'[1..], groups, tags); }
  }

  lemma SameMembers<T>(a: seq<T>, b: seq<T>)
    requires multiset(a) == multiset(b)
    ensures |a| == |b| && forall t :: t in a <==> t in b
  {
    assert |multiset(a)| == |a| && |multiset(b)| == |b|;
    assert forall t :: (t in a <==> t in multiset(a)) && (t in b <==> t in multiset(b));
  }

  lemma TakenOut<T>(s: seq<T>, k: nat)
    requires k < |s|
    ensures multiset(s[..k] + s[k + 1..]) == multiset(s) - multiset{s[k]}
  {
    assert s == s[..k] + [s[k]] + s[k + 1..];
  }

  lemma CountWithout(s: seq<Talkgroup>, k: nat, groups: seq<L.Label>, tags: seq<L.Label>)
    requires k < |s|
    ensures Count(s, groups, tags) == Count(s[..k] + s[k + 1..], groups, tags) + Count([s[k]], groups, tags)
  {
    assert s == s[..k] + ([s[k]] + s[k + 1..]);
    CountSplit(s[..k], s[k + 1..], groups, tags);
    CountSplit([s[k]], s[k + 1..], groups, tags);
    CountSplit(s[..k], [s[k]] + s[k + 1..], groups, tags);
  }

  lemma SameRest<T>(a: seq<T>, b: seq<T>, k: nat)
    requires multiset(a) == multiset(b) && a != [] && k < |b| && b[k] == a[0]
    ensures multiset(a[1..]) == multiset(b[..k] + b[k + 1..])
  {
    TakenOut(a, 0);
    TakenOut(b, k);
    assert a[..0] + a[1..] == a[1..];
  }

  lemma {:induction false} SameMembersCount(a: seq<Talkgroup>, b: seq<Talkgroup>, groups: seq<L.Label>,
                                            tags: seq<L.Label>)
    requires multiset(a) == multiset(b)
    ensures Count(a, groups, tags) == Count(b, groups, tags)
  {
    hide Count;
    SameMembers(a, b);
    if a == [] {
      assert a == b;
    } else {
      assert a[0] in b;
      var k :| 0 <= k < |b| && b[k] == a[0];
      SameRest(a, b, k);
      SameMembersCount(a[1..], b[..k] + b[k + 1..], groups, tags);
      CountWithout(a, 0, groups, tags);
      CountWithout(b, k, groups, tags);
      assert a[..0] + a[1..] == a[1..];
    }
  }

  lemma SameMembersShow(out: seq<ScopedTalkgroup>, sorted: seq<Talkgroup>, from: seq<Talkgroup>, groups: seq<L.Label>,
                        tags: seq<L.Label>)
    requires Shows(out, sorted, groups, tags) && multiset(sorted) == multiset(from)
    ensures Shows(out, from, groups, tags)
  {
    SameMembersCount(sorted, from, groups, tags);
    SameMembers(sorted, from);
    forall o | o in out ensures ComesFrom(o, from, groups, tags) {
      var t :| t in sorted && IsShown(o, t, groups, tags);
    }
  }

  /** Renumbered talkgroups stand in the order of their labels. */
  lemma LabelsInOrder(out: seq<ScopedTalkgroup>, from: seq<Talkgroup>, groups: seq<L.Label>, tags: seq<L.Label>)
    requires ByLabel(out, from, groups, tags) && SortedTalkgroups(out)
    ensures forall i, j | 0 <= i < j < |out| :: !TextLess(out[j].caption, out[i].caption)
  {
    var sorted: seq<Talkgroup> :| SortedCaptions(sorted) && multiset(sorted) == multiset(from) &&
      Ranked(out, sorted, groups, tags);
    forall i, j | 0 <= i < j < |out| ensures !TextLess(out[j].caption, out[i].caption) {
      assert out[i] in out && out[j] in out;
      TextOrder(out[i].caption, out[j].caption, out[i].caption);
    }
  }

  /** With distinct talkgroups that all resolve, the numbers are exactly 1 to n, each used once. */
  lemma NumbersOnceEach(out: seq<ScopedTalkgroup>, from: seq<Talkgroup>, groups: seq<L.Label>, tags: seq<L.Label>,
                        n: nat)
    requires ByLabel(out, from, groups, tags) && Shows(out, from, groups, tags) && 1 <= n <= |from|
    requires forall t, t' | t in from && t' in from && t.id == t'.id :: t == t'
    requires forall t | t in from :: multiset(from)[t] == 1 && Resolvable(t, groups, tags)
    ensures |out| == |from| && exists o | o in out :: o.order == n
  {
    hide Count, Resolvable, Resolved, Ranked, GoesTo, ComesFrom, SortedCaptions;
    AllCount(from, groups, tags);
    var sorted: seq<Talkgroup> :|
      SortedCaptions(sorted) && multiset(sorted) == multiset(from) && Ranked(out, sorted, groups, tags);
    SameMembers(sorted, from);
    assert sorted[n - 1] in sorted && GoesTo(sorted[n - 1], out, groups, tags);
    RankedOnceEach(out, sorted, groups, tags, n);
  }

  lemma RankedOnceEach(out: seq<ScopedTalkgroup>, sorted: seq<Talkgroup>, groups: seq<L.Label>, tags: seq<L.Label>,
                       n: nat)
    requires Ranked(out, sorted, groups, tags) && 1 <= n <= |sorted| && GoesTo(sorted[n - 1], out, groups, tags)
    requires forall t, t' | t in sorted && t' in sorted && t.id == t'.id :: t == t'
    requires forall t | t in sorted :: multiset(sorted)[t] == 1
    ensures exists o | o in out :: o.order == n
  {
    var o :| o in out && IsShown(o, sorted[n - 1], groups, tags);
    assert sorted[o.order - 1].id == o.id == sorted[n - 1].id;
    if o.order != n { TwicePlaced(sorted, o.order - 1, n - 1); }
  }

  lemma TwicePlaced<T>(s: seq<T>, i: nat, j: nat)
    requires i < |s| && j < |s| && i != j && s[i] == s[j]
    ensures multiset(s)[s[i]] >= 2
  {
    var a, b := if i < j then i else j, if i < j then j else i;
    assert s == (s[..a] + [s[a]] + s[a + 1..b]) + ([s[b]] + s[b + 1..]);
  }

  lemma {:induction false} AllCount(s: seq<Talkgroup>, groups: seq<L.Label>, tags: seq<L.Label>)
    requires forall t | t in s :: Resolvable(t, groups, tags)
    ensures Count(s, groups, tags) == |s|
  {
    if s != [] { AllCount(s[1..], groups, tags); }
  }

  // ---- The scoped list ----

  ghost predicate ShowsSystem(o: ScopedSystem, s: System, groups: seq<L.Label>, tags: seq<L.Label>) {
    && o.id == s.id && o.caption == s.caption && o.order == s.order && o.led == s.led && o.units == s.units
    && Shows(o.talkgroups, s.talkgroups, groups, tags) && SortedTalkgroups(o.talkgroups)
  }

  ghost predicate SystemComesFrom(o: ScopedSystem, raw: seq<System>, groups: seq<L.Label>, tags: seq<L.Label>) {
    exists s | s in raw :: ShowsSystem(o, s, groups, tags)
  }

  ghost predicate SystemGoesTo(s: System, out: seq<ScopedSystem>, groups: seq<L.Label>, tags: seq<L.Label>) {
    exists o | o in out :: ShowsSystem(o, s, groups, tags)
  }

  ghost predicate ShowsAll(out: seq<ScopedSystem>, raw: seq<System>, groups: seq<L.Label>, tags: seq<L.Label>) {
    && SortedScoped(out)
    && (forall o | o in out :: SystemComesFrom(o, raw, groups, tags))
    && (forall s | s in raw :: SystemGoesTo(s, out, groups, tags))
  }

  ghost predicate SystemByLabel(o: ScopedSystem, s: System, groups: seq<L.Label>, tags: seq<L.Label>) {
    ShowsSystem(o, s, groups, tags) && ByLabel(o.talkgroups, s.talkgroups, groups, tags)
  }

  /** Every shown system has its talkgroups renumbered in the order of their labels. */
  ghost predicate AllByLabel(out: seq<ScopedSystem>, raw: seq<System>, groups: seq<L.Label>, tags: seq<L.Label>) {
    && (forall o | o in out :: exists s | s in raw :: SystemByLabel(o, s, groups, tags))
    && (forall s | s in raw :: exists o | o in out :: SystemByLabel(o, s, groups, tags))
  }

  method InsertSystem(s: seq<ScopedSystem>, t: ScopedSystem) returns (out: seq<ScopedSystem>)
    requires SortedScoped(s)
    ensures SortedScoped(out) && |out| == |s| + 1 && forall x :: x in out <==> x in s || x == t
  {
    var k := |s|;
    while k > 0 && t.order < s[k - 1].order
      invariant 0 <= k <= |s|
      invariant forall j | k <= j < |s| :: t.order <= s[j].order
    {
      k := k - 1;
    }
    hide InsertedAt;
    SystemShownAt(s, k, t);
    InsertedMembers(s, k, t);
    out := InsertedAt(s, k, t);
  }

  lemma SystemShownAt(s: seq<ScopedSystem>, k: nat, t: ScopedSystem)
    requires SortedScoped(s) && k <= |s| && (k > 0 ==> s[k - 1].order <= t.order)
    requires forall j | k <= j < |s| :: t.order <= s[j].order
    ensures SortedScoped(InsertedAt(s, k, t))
  {
  }

  method GetScopedSystems(list: seq<System>, access: Option<Scopes>, groups: seq<L.Label>, tags: seq<L.Label>,
                          sortTalkgroups: bool)
    returns (out: seq<ScopedSystem>)
    ensures ShowsAll(out, Raw(list, access), groups, tags) && |out| == |Raw(list, access)|
    ensures sortTalkgroups ==> AllByLabel(out, Raw(list, access), groups, tags)
  {
    hide ShowsAll, ShowsSystem, SystemByLabel, Raw;
    var raw := RawSystems(list, access);
    out := [];
    ShowsNothing(groups, tags);
    for i := 0 to |raw|
      invariant SortedScoped(out) && ShowsAll(out, raw[..i], groups, tags) && |out| == i
      invariant sortTalkgroups ==> AllByLabel(out, raw[..i], groups, tags)
    {
      assert raw[..i + 1] == raw[..i] + [raw[i]];
      var o := ScopeSystem(raw[i], groups, tags, sortTalkgroups);
      var next := InsertSystem(out, o);
      ShowsOneMore(out, next, raw[..i], o, raw[i], groups, tags);
      if sortTalkgroups { ByLabelOneMore(out, next, raw[..i], o, raw[i], groups, tags); }
      out := next;
    }
    assert raw[..|raw|] == raw;
  }

  lemma ShowsNothing(groups: seq<L.Label>, tags: seq<L.Label>)
    ensures ShowsAll([], [], groups, tags)
  {
  }

  lemma ShowsOneMore(out: seq<ScopedSystem>, next: seq<ScopedSystem>, raw: seq<System>, o: ScopedSystem, s: System,
                     groups: seq<L.Label>, tags: seq<L.Label>)
    requires ShowsAll(out, raw, groups, tags) && ShowsSystem(o, s, groups, tags)
    requires SortedScoped(next) && forall x :: x in next <==> x in out || x == o
    ensures ShowsAll(next, raw + [s], groups, tags)
  {
  }

  lemma ByLabelOneMore(out: seq<ScopedSystem>, next: seq<ScopedSystem>, raw: seq<System>, o: ScopedSystem, s: System,
                       groups: seq<L.Label>, tags: seq<L.Label>)
    requires AllByLabel(out, raw, groups, tags) && SystemByLabel(o, s, groups, tags)
    requires forall x :: x in next <==> x in out || x == o
    ensures AllByLabel(next, raw + [s], groups, tags)
  {
    hide SystemByLabel;
  }

  method ScopeSystem(s: System, groups: seq<L.Label>, tags: seq<L.Label>, sortTalkgroups: bool)
    returns (o: ScopedSystem)
    ensures ShowsSystem(o, s, groups, tags) && (sortTalkgroups ==> SystemByLabel(o, s, groups, tags))
  {
    hide Shows, SortedTalkgroups, ByLabel;
    var talkgroups := ScopeTalkgroups(s.talkgroups, groups, tags, sortTalkgroups);
    o := ScopedSystem(s.id, s.caption, s.order, s.led, talkgroups, s.units);
  }
}
