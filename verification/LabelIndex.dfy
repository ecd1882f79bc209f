/** The index of scoped talkgroups by group or tag label that the server sends with the configuration. */
module LabelIndex {
  import opened Feed
  import opened Categories
  import L = Labels

  predicate KnownLabel(labels: seq<L.Label>, text: string) {
    L.FindText(labels, text).Some?
  }

  /** Every configured talkgroup whose label is known is listed under it. */
  predicate CompleteFor(index: Index, systems: seq<SystemConfig>, kind: Kind, labels: seq<L.Label>) {
    forall s | s in systems :: forall t | t in s.talkgroups ::
      KnownLabel(labels, LabelOf(kind, t)) ==> Listed(index, LabelOf(kind, t), s.id, t.id)
  }

  predicate AllKnown(systems: seq<SystemConfig>, kind: Kind, labels: seq<L.Label>) {
    forall s | s in systems :: forall t | t in s.talkgroups :: KnownLabel(labels, LabelOf(kind, t))
  }

  /** Some entry of the list is the id: the source's scan with its `found` flag. */
  method Contains(ids: seq<nat>, id: nat) returns (found: bool)
    ensures found <==> id in ids
  {
    found := false;
    for i := 0 to |ids|
      invariant !found && id !in ids[..i]
    {
      if ids[i] == id {
        return true;
      }
    }
    assert ids[..|ids|] == ids;
  }

  function Entry(index: Index, text: string, sys: nat): seq<nat> {
    if text in index && sys in index[text] then index[text][sys] else []
  }

  function WithEntry(index: Index, text: string, sys: nat, ids: seq<nat>): Index {
    var row: map<nat, seq<nat>> := (if text in index then index[text] else map[])[sys := ids];
    index[text := row]
  }

  /** The index lists the talkgroup under its label. */
  method AddTo(index: Index, text: string, sys: nat, id: nat) returns (index': Index)
    ensures index' == (if id in Entry(index, text, sys) then index
                       else WithEntry(index, text, sys, Entry(index, text, sys) + [id]))
  {
    var ids := [];
    if text in index && sys in index[text] {
      ids := index[text][sys];
    }
    var found := Contains(ids, id);
    index' := index;
    if !found {
      index' := WithEntry(index, text, sys, ids + [id]);
    }
  }

  lemma SoundGrows(index: Index, done: seq<SystemConfig>, s: SystemConfig, j: nat, kind: Kind)
    requires j < |s.talkgroups|
    requires Sound(index, done + [s.(talkgroups := s.talkgroups[..j])], kind)
    ensures Sound(index, done + [s.(talkgroups := s.talkgroups[..j + 1])], kind)
  {
  }

  lemma NewEntrySound(index: Index, systems: seq<SystemConfig>, kind: Kind, text: string, sys: nat, id: nat)
    requires Sound(index, systems, kind) && Carries(systems, kind, text, sys, id) && id !in Entry(index, text, sys)
    ensures Sound(WithEntry(index, text, sys, Entry(index, text, sys) + [id]), systems, kind)
  {
    hide Carries;
    var ids := Entry(index, text, sys) + [id];
    assert NoDuplicates(ids);
    assert sys in WithEntry(index, text, sys, ids)[text];
  }

  lemma ListedStays(index: Index, text: string, sys: nat, id: nat, l: string, s: nat, t: nat)
    requires Listed(index, l, s, t)
    ensures Listed(WithEntry(index, text, sys, Entry(index, text, sys) + [id]), l, s, t)
  {
  }

  lemma CompleteGrows(index: Index, index': Index, done: seq<SystemConfig>, s: SystemConfig, j: nat, kind: Kind,
                      labels: seq<L.Label>)
    requires j < |s.talkgroups|
    requires CompleteFor(index, done + [s.(talkgroups := s.talkgroups[..j])], kind, labels)
    requires forall l, sys, t | Listed(index, l, sys, t) :: Listed(index', l, sys, t)
    requires KnownLabel(labels, LabelOf(kind, s.talkgroups[j])) ==>
               Listed(index', LabelOf(kind, s.talkgroups[j]), s.id, s.talkgroups[j].id)
    ensures CompleteFor(index', done + [s.(talkgroups := s.talkgroups[..j + 1])], kind, labels)
  {
  }

  lemma TalkgroupCarries(done: seq<SystemConfig>, s: SystemConfig, j: nat, kind: Kind)
    requires j < |s.talkgroups|
    ensures Carries(done + [s.(talkgroups := s.talkgroups[..j + 1])], kind, LabelOf(kind, s.talkgroups[j]), s.id,
                    s.talkgroups[j].id)
  {
  }

  method AddTalkgroup(index: Index, done: seq<SystemConfig>, s: SystemConfig, j: nat, kind: Kind, labels: seq<L.Label>)
    returns (index': Index)
    requires j < |s.talkgroups|
    requires Sound(index, done + [s.(talkgroups := s.talkgroups[..j])], kind)
    requires CompleteFor(index, done + [s.(talkgroups := s.talkgroups[..j])], kind, labels)
    ensures Sound(index', done + [s.(talkgroups := s.talkgroups[..j + 1])], kind)
    ensures CompleteFor(index', done + [s.(talkgroups := s.talkgroups[..j + 1])], kind, labels)
  {
    hide Carries, CompleteFor, Sound;
    var t := s.talkgroups[j];
    var found := L.FindText(labels, LabelOf(kind, t));
    L.FoundText(labels, LabelOf(kind, t));
    SoundGrows(index, done, s, j, kind);
    TalkgroupCarries(done, s, j, kind);
    index' := index;
    if found.Some? {
      var text := found.value.text;
      index' := AddTo(index, text, s.id, t.id);
      if t.id !in Entry(index, text, s.id) {
        NewEntrySound(index, done + [s.(talkgroups := s.talkgroups[..j + 1])], kind, text, s.id, t.id);
        forall l, sys, u | Listed(index, l, sys, u) ensures Listed(index', l, sys, u) {
          ListedStays(index, text, s.id, t.id, l, sys, u);
        }
      }
    }
    CompleteGrows(index, index', done, s, j, kind, labels);
  }

  /** GetGroupsMap and GetTagsMap: sound for all systems, and exact when every label is known. */
  method BuildIndex(systems: seq<SystemConfig>, kind: Kind, labels: seq<L.Label>) returns (index: Index)
    ensures Sound(index, systems, kind)
    ensures CompleteFor(index, systems, kind, labels)
    ensures AllKnown(systems, kind, labels) ==> Exact(index, systems, kind)
  {
    hide Sound, CompleteFor;
    index := map[];
    StartIndex(systems, kind, labels);
    for i := 0 to |systems|
      invariant Sound(index, systems[..i], kind) && CompleteFor(index, systems[..i], kind, labels)
    {
      var s := systems[i];
      EnterSystem(index, systems[..i], s, kind, labels);
      assert s.talkgroups[..0] == [];
      for j := 0 to |s.talkgroups|
        invariant Sound(index, systems[..i] + [s.(talkgroups := s.talkgroups[..j])], kind)
        invariant CompleteFor(index, systems[..i] + [s.(talkgroups := s.talkgroups[..j])], kind, labels)
      {
        index := AddTalkgroup(index, systems[..i], s, j, kind, labels);
      }
      assert s.(talkgroups := s.talkgroups[..|s.talkgroups|]) == s;
      assert systems[..i] + [s] == systems[..i + 1];
    }
    assert systems[..|systems|] == systems;
    CompleteWhenKnown(index, systems, kind, labels);
  }

  lemma StartIndex(systems: seq<SystemConfig>, kind: Kind, labels: seq<L.Label>)
    ensures Sound(map[], systems[..0], kind) && CompleteFor(map[], systems[..0], kind, labels)
  {
  }

  lemma EnterSystem(index: Index, done: seq<SystemConfig>, s: SystemConfig, kind: Kind, labels: seq<L.Label>)
    requires Sound(index, done, kind) && CompleteFor(index, done, kind, labels)
    ensures Sound(index, done + [s.(talkgroups := [])], kind) &&
              CompleteFor(index, done + [s.(talkgroups := [])], kind, labels)
  {
  }

  lemma CompleteWhenKnown(index: Index, systems: seq<SystemConfig>, kind: Kind, labels: seq<L.Label>)
    requires Sound(index, systems, kind) && CompleteFor(index, systems, kind, labels)
    ensures AllKnown(systems, kind, labels) ==> Exact(index, systems, kind)
  {
  }
}
