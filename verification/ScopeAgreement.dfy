/** The scoped list shows a talkgroup exactly when the access test lets its calls through. */
module ScopeAgreement {
  import opened Feed
  import opened Rows
  import opened Store
  import opened Population
  import opened Scope
  import L = Labels
  import C = Categories
  import LabelIndex

  ghost predicate ListDistinct(list: seq<System>) {
    (forall s, s' | s in list && s' in list && s.id == s'.id :: s == s') &&
    (forall s | s in list :: forall t, t' | t in s.talkgroups && t' in s.talkgroups && t.id == t'.id :: t == t')
  }

  /** Any list that ingestion keeps in memory is distinct in this sense. */
  lemma FineIsDistinct(list: seq<System>)
    requires ListFine(list)
    ensures ListDistinct(list)
  {
  }

  ghost predicate Offers(s: System, tg: nat, groups: seq<L.Label>, tags: seq<L.Label>) {
    exists t | t in s.talkgroups :: t.id == tg && Resolvable(t, groups, tags)
  }

  /** Some listed system of that id has the talkgroup, and its group and tag resolve. */
  ghost predicate Has(list: seq<System>, sys: nat, tg: nat, groups: seq<L.Label>, tags: seq<L.Label>) {
    exists s | s in list :: s.id == sys && Offers(s, tg, groups, tags)
  }

  predicate Appears(out: seq<ScopedSystem>, sys: nat, tg: nat) {
    exists o | o in out :: o.id == sys && exists t | t in o.talkgroups :: t.id == tg
  }

  lemma SourceOf(o: ScopedTalkgroup, from: seq<Talkgroup>, groups: seq<L.Label>, tags: seq<L.Label>)
    returns (t: Talkgroup)
    requires ComesFrom(o, from, groups, tags)
    ensures t in from && IsShown(o, t, groups, tags)
  {
    t :| t in from && IsShown(o, t, groups, tags);
  }

  lemma SystemSourceOf(o: ScopedSystem, raw: seq<System>, groups: seq<L.Label>, tags: seq<L.Label>) returns (s: System)
    requires SystemComesFrom(o, raw, groups, tags)
    ensures s in raw && ShowsSystem(o, s, groups, tags)
  {
    hide ShowsSystem;
    s :| s in raw && ShowsSystem(o, s, groups, tags);
  }

  lemma AppearsIffHas(out: seq<ScopedSystem>, raw: seq<System>, sys: nat, tg: nat, groups: seq<L.Label>,
                      tags: seq<L.Label>)
    requires ShowsAll(out, raw, groups, tags)
    ensures Appears(out, sys, tg) <==> Has(raw, sys, tg, groups, tags)
  {
  }

  // ---- Grants by truncated numbers, which is what the scoped list follows ----

  predicate Picks(s: TalkgroupScope, tg: nat) {
    s.Every? || (s.Chosen? && exists y | y in s.ids :: y.Some? && y.value.Floor == tg)
  }

  predicate Admits(item: Item, sys: nat, tg: nat) {
    item.Item? && item.id.Some? && item.id.value.Floor == sys && Picks(item.talkgroups, tg)
  }

  lemma {:induction false} ChosenOffers(s: System, ids: seq<Option<Num>>, tg: nat, groups: seq<L.Label>,
                                        tags: seq<L.Label>)
    requires forall t, t' | t in s.talkgroups && t' in s.talkgroups && t.id == t'.id :: t == t'
    ensures (exists t | t in RawTalkgroups(s, ids) :: t.id == tg && Resolvable(t, groups, tags)) <==>
            (exists y | y in ids :: y.Some? && y.value.Floor == tg) && Offers(s, tg, groups, tags)
  {
    if ids != [] {
      assert ids == [ids[0]] + ids[1..];
      ChosenOffers(s, ids[1..], tg, groups, tags);
      var a, b := RawTalkgroup(s, ids[0]), RawTalkgroups(s, ids[1..]);
      assert RawTalkgroups(s, ids) == a + b;
      assert forall t :: t in a + b <==> t in a || t in b;
      if ids[0].Some? && RowAt(s.talkgroups, ids[0].value.Floor) != -1 {
        assert a == [s.talkgroups[RowAt(s.talkgroups, ids[0].value.Floor)]] && a[0] in s.talkgroups && a[0] in a;
      }
    }
  }

  lemma OneItem(list: seq<System>, item: Item, sys: nat, tg: nat, groups: seq<L.Label>, tags: seq<L.Label>)
    requires ListDistinct(list)
    ensures Has(RawOf(list, item), sys, tg, groups, tags) <==> Admits(item, sys, tg) && Has(list, sys, tg, groups, tags)
  {
    var raw := RawOf(list, item);
    if item.Item? && item.id.Some? {
      var i := SystemAt(list, item.id.value.Floor);
      if i != -1 {
        var s := list[i];
        assert s in list;
        match item.talkgroups {
          case Every =>
            assert raw[0] in raw;
          case Chosen(ids) =>
            ChosenOffers(s, ids, tg, groups, tags);
            assert raw[0] in raw;
          case _ =>
        }
      }
    }
  }

  lemma {:induction false} ItemsAdmit(list: seq<System>, items: seq<Item>, sys: nat, tg: nat, groups: seq<L.Label>,
                                      tags: seq<L.Label>)
    requires ListDistinct(list)
    ensures Has(RawItems(list, items), sys, tg, groups, tags) <==>
            (exists i | i in items :: Admits(i, sys, tg)) && Has(list, sys, tg, groups, tags)
  {
    hide ListDistinct, Offers, Admits, RawOf;
    if items != [] {
      assert items == [items[0]] + items[1..];
      OneItem(list, items[0], sys, tg, groups, tags);
      ItemsAdmit(list, items[1..], sys, tg, groups, tags);
      var a, b := RawOf(list, items[0]), RawItems(list, items[1..]);
      assert forall s :: s in a + b <==> s in a || s in b;
    }
  }

  // ---- Agreement ----

  predicate WholeScope(s: TalkgroupScope) {
    s.Chosen? ==> forall y | y in s.ids && y.Some? :: y.value == y.value.Floor as real
  }

  predicate WholeItem(item: Item) {
    item.Item? ==> (item.id.Some? ==> item.id.value == item.id.value.Floor as real) && WholeScope(item.talkgroups)
  }

  /** Every number in the scopes is an integer. */
  predicate Whole(scopes: Scopes) {
    scopes.Items? ==> forall i | i in scopes.items :: WholeItem(i)
  }

  lemma WholeItemGrants(item: Item, sys: nat, tg: nat)
    requires WholeItem(item)
    ensures Admits(item, sys, tg) <==> item.Item? && item.id == Some(sys as real) && Chooses(item.talkgroups, tg)
  {
  }

  /** For scopes that are set and hold integers, a talkgroup is shown exactly when it is configured, its group and
      tag resolve, and calls on it are let through, sorted or not. */
  lemma ScopesAgree(list: seq<System>, scopes: Scopes, groups: seq<L.Label>, tags: seq<L.Label>, out: seq<ScopedSystem>,
                    sys: nat, tg: nat)
    requires ListDistinct(list) && !scopes.Unset? && Whole(scopes)
    requires ShowsAll(out, Raw(list, Some(scopes)), groups, tags)
    ensures Appears(out, sys, tg) <==> Has(list, sys, tg, groups, tags) && Grants(scopes, sys, tg)
  {
    hide ShowsAll, ListDistinct, Appears, Has, Admits;
    AppearsIffHas(out, Raw(list, Some(scopes)), sys, tg, groups, tags);
    match scopes {
      case Text(t) => NothingListed(sys, tg, groups, tags);
      case Items(items) =>
        ItemsAdmit(list, items, sys, tg, groups, tags);
        forall i | i in items { WholeItemGrants(i, sys, tg); }
    }
  }

  lemma NothingListed(sys: nat, tg: nat, groups: seq<L.Label>, tags: seq<L.Label>)
    ensures !Has([], sys, tg, groups, tags)
  {
  }

  /** Whatever the numbers, the scoped list never hides a talkgroup whose calls are let through. */
  lemma GrantedIsShown(list: seq<System>, scopes: Scopes, groups: seq<L.Label>, tags: seq<L.Label>,
                       out: seq<ScopedSystem>, sys: nat, tg: nat)
    requires ListDistinct(list) && ShowsAll(out, Raw(list, Some(scopes)), groups, tags)
    requires Has(list, sys, tg, groups, tags) && Grants(scopes, sys, tg)
    ensures Appears(out, sys, tg)
  {
    hide ShowsAll, ListDistinct, Appears, Has;
    AppearsIffHas(out, Raw(list, Some(scopes)), sys, tg, groups, tags);
    if scopes.Items? {
      ItemsAdmit(list, scopes.items, sys, tg, groups, tags);
      var i :| i in scopes.items && i.Item? && i.id == Some(sys as real) && Chooses(i.talkgroups, tg);
      assert (sys as real).Floor == sys && (tg as real).Floor == tg;
      assert Admits(i, sys, tg);
    }
  }

  /** A client without an access of its own is shown everything configured. */
  lemma NoAccessShowsAll(list: seq<System>, groups: seq<L.Label>, tags: seq<L.Label>, out: seq<ScopedSystem>, sys: nat,
                         tg: nat)
    requires ShowsAll(out, Raw(list, None), groups, tags)
    ensures Appears(out, sys, tg) <==> Has(list, sys, tg, groups, tags)
    ensures forall s | s in list :: exists o | o in out :: o.id == s.id && o.units == s.units
  {
    AppearsIffHas(out, list, sys, tg, groups, tags);
    forall s | s in list ensures exists o | o in out :: o.id == s.id && o.units == s.units {
      assert SystemGoesTo(s, out, groups, tags);
    }
  }

  /** Scopes that are not set show everything configured and let nothing through. */
  lemma UnsetDisagrees(list: seq<System>, groups: seq<L.Label>, tags: seq<L.Label>, out: seq<ScopedSystem>, sys: nat,
                       tg: nat)
    requires ShowsAll(out, Raw(list, Some(Unset)), groups, tags)
    ensures Appears(out, sys, tg) <==> Has(list, sys, tg, groups, tags)
    ensures !Grants(Unset, sys, tg)
  {
  }

  /** A fractional system number shows the system of its integer part, whose calls are refused. */
  lemma FractionalSystemDisagrees(list: seq<System>, x: Num, talkgroups: TalkgroupScope, groups: seq<L.Label>,
                                  tags: seq<L.Label>, out: seq<ScopedSystem>, tg: nat)
    requires ListDistinct(list) && x != x.Floor as real
    requires ShowsAll(out, Raw(list, Some(Items([Item(Some(x), talkgroups)]))), groups, tags)
    requires Has(list, x.Floor, tg, groups, tags) && Picks(talkgroups, tg)
    ensures Appears(out, x.Floor, tg) && !Grants(Items([Item(Some(x), talkgroups)]), x.Floor, tg)
  {
    hide ShowsAll, ListDistinct, Appears, Has;
    var items := [Item(Some(x), talkgroups)];
    AppearsIffHas(out, Raw(list, Some(Items(items))), x.Floor, tg, groups, tags);
    ItemsAdmit(list, items, x.Floor, tg, groups, tags);
    assert items[0] in items && Admits(items[0], x.Floor, tg);
  }

  ghost predicate Agreement(out: seq<ScopedSystem>, list: seq<System>, scopes: Scopes, groups: seq<L.Label>,
                            tags: seq<L.Label>)
  {
    forall sys: nat, tg: nat :: Appears(out, sys, tg) <==> Has(list, sys, tg, groups, tags) && Grants(scopes, sys, tg)
  }

  /** A scope for one configured system agrees with the access test on every talkgroup exactly when its number is
      whole. */
  lemma OneSystemAgreesIff(list: seq<System>, x: Num, groups: seq<L.Label>, tags: seq<L.Label>, out: seq<ScopedSystem>,
                           tg: nat)
    requires ListDistinct(list) && Has(list, x.Floor, tg, groups, tags)
    requires ShowsAll(out, Raw(list, Some(Items([Item(Some(x), Every)]))), groups, tags)
    ensures Agreement(out, list, Items([Item(Some(x), Every)]), groups, tags) <==> x == x.Floor as real
  {
    var scopes := Items([Item(Some(x), Every)]);
    hide ShowsAll, ListDistinct, Appears, Has, Grants;
    if x == x.Floor as real {
      forall s: nat, t: nat ensures Appears(out, s, t) <==> Has(list, s, t, groups, tags) && Grants(scopes, s, t) {
        ScopesAgree(list, scopes, groups, tags, out, s, t);
      }
    } else {
      FractionalSystemDisagrees(list, x, Every, groups, tags, out, tg);
    }
  }

  /** Rounding does no harm: every configured talkgroup that truncated numbers pick is granted. */
  ghost predicate PicksAreGranted(list: seq<System>, items: seq<Item>, groups: seq<L.Label>, tags: seq<L.Label>) {
    forall i, sys: nat, tg: nat | i in items && Admits(i, sys, tg) && Has(list, sys, tg, groups, tags) ::
      GrantedBy(items, sys, tg)
  }

  /** Any list of items agrees with the access test exactly when what its truncated numbers pick is granted, by the same
      item or another. */
  lemma ItemsAgreeIff(list: seq<System>, items: seq<Item>, groups: seq<L.Label>, tags: seq<L.Label>,
                      out: seq<ScopedSystem>)
    requires ListDistinct(list) && ShowsAll(out, Raw(list, Some(Items(items))), groups, tags)
    ensures Agreement(out, list, Items(items), groups, tags) <==> PicksAreGranted(list, items, groups, tags)
  {
    hide ShowsAll, ListDistinct, Appears, Has, GrantedBy, Admits;
    forall sys: nat, tg: nat
      ensures Appears(out, sys, tg) <==>
                (exists i | i in items :: Admits(i, sys, tg)) && Has(list, sys, tg, groups, tags)
      ensures GrantedBy(items, sys, tg) && Has(list, sys, tg, groups, tags) ==> Appears(out, sys, tg)
    {
      AppearsIffHas(out, Raw(list, Some(Items(items))), sys, tg, groups, tags);
      ItemsAdmit(list, items, sys, tg, groups, tags);
      if GrantedBy(items, sys, tg) && Has(list, sys, tg, groups, tags) {
        GrantedIsShown(list, Items(items), groups, tags, out, sys, tg);
      }
    }
  }

  // ---- The index of a scoped list ----

  function Configs(out: seq<ScopedSystem>): seq<C.SystemConfig> {
    seq(|out|, i requires 0 <= i < |out| => C.SystemConfig(out[i].id,
      seq(|out[i].talkgroups|, j requires 0 <= j < |out[i].talkgroups| =>
        C.TalkgroupConfig(out[i].talkgroups[j].id, out[i].talkgroups[j].group, out[i].talkgroups[j].tag))))
  }

  /** Every label in a scoped list is a known one, so the index built from it is exact. */
  lemma ScopedLabelsKnown(out: seq<ScopedSystem>, raw: seq<System>, groups: seq<L.Label>, tags: seq<L.Label>)
    requires ShowsAll(out, raw, groups, tags)
    ensures forall c | c in Configs(out) :: forall t | t in c.talkgroups ::
              L.FindText(groups, t.group).Some? && L.FindText(tags, t.tag).Some?
  {
    hide ShowsAll;
    forall c, t | c in Configs(out) && t in c.talkgroups
      ensures L.FindText(groups, t.group).Some? && L.FindText(tags, t.tag).Some?
    {
      var i :| 0 <= i < |out| && Configs(out)[i] == c;
      var j :| 0 <= j < |c.talkgroups| && c.talkgroups[j] == t;
      ScopedLabelKnown(out[i], j, raw, out, groups, tags);
    }
  }

  lemma ScopedLabelKnown(o: ScopedSystem, j: nat, raw: seq<System>, out: seq<ScopedSystem>, groups: seq<L.Label>,
                         tags: seq<L.Label>)
    requires ShowsAll(out, raw, groups, tags) && o in out && j < |o.talkgroups|
    ensures L.FindText(groups, o.talkgroups[j].group).Some? && L.FindText(tags, o.talkgroups[j].tag).Some?
  {
    hide SystemComesFrom, SystemGoesTo, SortedScoped, SortedTalkgroups, ComesFrom, GoesTo;
    var s := SystemSourceOf(o, raw, groups, tags);
    var x := o.talkgroups[j];
    var t := SourceOf(x, s.talkgroups, groups, tags);
    L.FoundId(groups, t.fields.groupId);
    L.FoundText(groups, x.group);
    L.FoundId(tags, t.fields.tagId);
    L.FoundText(tags, x.tag);
  }

  // ---- One talkgroup, one pair of labels ----

  predicate Part(r: System, s: System) {
    r.id == s.id && forall t | t in r.talkgroups :: t in s.talkgroups
  }

  lemma {:induction false} ChosenWithin(s: System, ids: seq<Option<Num>>)
    ensures forall t | t in RawTalkgroups(s, ids) :: t in s.talkgroups
  {
    if ids != [] {
      ChosenWithin(s, ids[1..]);
    }
  }

  lemma {:induction false} ItemsWithin(list: seq<System>, items: seq<Item>)
    ensures forall r | r in RawItems(list, items) :: exists s | s in list :: Part(r, s)
  {
    if items != [] {
      ItemsWithin(list, items[1..]);
      forall r | r in RawOf(list, items[0]) ensures exists s | s in list :: Part(r, s) {
        var i := SystemAt(list, items[0].id.value.Floor);
        if items[0].talkgroups.Chosen? { ChosenWithin(list[i], items[0].talkgroups.ids); }
        assert list[i] in list && Part(r, list[i]);
      }
    }
  }

  lemma RawWithin(list: seq<System>, access: Option<Scopes>)
    ensures forall r | r in Raw(list, access) :: exists s | s in list :: Part(r, s)
  {
    if access.Some? && access.value.Items? {
      ItemsWithin(list, access.value.items);
    } else {
      forall r | r in Raw(list, access) ensures exists s | s in list :: Part(r, s) {
        assert Part(r, r);
      }
    }
  }

  /** The configured talkgroup behind one entry of a scoped list. */
  lemma Behind(list: seq<System>, raw: seq<System>, out: seq<ScopedSystem>, c: C.SystemConfig, u: C.TalkgroupConfig,
               groups: seq<L.Label>, tags: seq<L.Label>) returns (s: System, t: Talkgroup)
    requires ShowsAll(out, raw, groups, tags) && c in Configs(out) && u in c.talkgroups
    requires forall r | r in raw :: exists s | s in list :: Part(r, s)
    ensures s in list && t in s.talkgroups && s.id == c.id && t.id == u.id
    ensures Resolvable(t, groups, tags) && u.group == Resolved(t, groups, tags).group &&
              u.tag == Resolved(t, groups, tags).tag
  {
    hide SystemComesFrom, SystemGoesTo, SortedScoped, SortedTalkgroups, ComesFrom, GoesTo;
    var i :| 0 <= i < |out| && Configs(out)[i] == c;
    var j :| 0 <= j < |c.talkgroups| && c.talkgroups[j] == u;
    var o := out[i];
    assert o in out && o.talkgroups[j] in o.talkgroups;
    var r := SystemSourceOf(o, raw, groups, tags);
    t := SourceOf(o.talkgroups[j], r.talkgroups, groups, tags);
    s :| s in list && Part(r, s);
  }

  lemma ScopedDistinct(list: seq<System>, access: Option<Scopes>, out: seq<ScopedSystem>, groups: seq<L.Label>,
                       tags: seq<L.Label>)
    requires ListDistinct(list) && ShowsAll(out, Raw(list, access), groups, tags)
    ensures C.DistinctTalkgroups(Configs(out))
  {
    hide ShowsAll, Raw;
    RawWithin(list, access);
    var cs := Configs(out);
    forall c, c', u, u' | c in cs && c' in cs && c.id == c'.id && u in c.talkgroups && u' in c'.talkgroups &&
      u.id == u'.id
      ensures u == u'
    {
      var s, t := Behind(list, Raw(list, access), out, c, u, groups, tags);
      var s', t' := Behind(list, Raw(list, access), out, c', u', groups, tags);
    }
  }

  /** What a client is sent: its systems, and indexes of them by group and by tag that are exact. With distinct
      ids no talkgroup is in two lists of one kind. */
  method SendConfig(list: seq<System>, access: Option<Scopes>, groups: seq<L.Label>, tags: seq<L.Label>,
                    sortTalkgroups: bool)
    returns (scoped: seq<ScopedSystem>, groupIndex: C.Index, tagIndex: C.Index)
    ensures ShowsAll(scoped, Raw(list, access), groups, tags)
    ensures sortTalkgroups ==> AllByLabel(scoped, Raw(list, access), groups, tags)
    ensures C.Exact(groupIndex, Configs(scoped), C.Group) && C.Exact(tagIndex, Configs(scoped), C.Tag)
    ensures ListDistinct(list) ==> C.DistinctTalkgroups(Configs(scoped))
  {
    hide ShowsAll, AllByLabel, C.Exact, Raw, ListDistinct, C.DistinctTalkgroups, Configs;
    scoped := GetScopedSystems(list, access, groups, tags, sortTalkgroups);
    ScopedLabelsKnown(scoped, Raw(list, access), groups, tags);
    groupIndex := LabelIndex.BuildIndex(Configs(scoped), C.Group, groups);
    tagIndex := LabelIndex.BuildIndex(Configs(scoped), C.Tag, tags);
    if ListDistinct(list) {
      ScopedDistinct(list, access, scoped, groups, tags);
    }
  }
}
