/** Importing selected talkgroups into the configuration: missing groups and tags are added with new ids, and every
    talkgroup gets the ids of its own category and tag. */
module ImportConfig {
  import opened Feed
  import opened ImportTree
  import Mask

  /** A group or a tag of the configuration; one that has not been saved may have no id yet. */
  datatype Label = Label(id: Option<nat>, text: string)

  datatype Entry = Entry(
    id: nat, caption: string, name: string, order: nat, groupId: Option<nat>, tagId: Option<nat>,
    frequency: Option<nat>)

  /** The boxes ticked in the dialog. */
  datatype Options = Options(noEncrypted: bool, noTelemetry: bool, removeSpaces: bool, upperCase: bool)

  /** The runtime's own text operations: case mappings, and what counts as white space. */
  datatype Runtime = Runtime(lower: string -> string, upper: string -> string, isSpace: char -> bool)

  ghost predicate IdsDistinct(s: seq<Label>) {
    forall i, j | 0 <= i < j < |s| && s[i].id.Some? :: s[i].id != s[j].id
  }

  function Find(s: seq<Label>, text: string): (at: int)
    ensures at == -1 ==> forall g | g in s :: g.text != text
    ensures at != -1 ==> 0 <= at < |s| && s[at].text == text && forall i | 0 <= i < at :: s[i].text != text
  {
    if s == [] then -1
    else if s[0].text == text then 0
    else
      var i := Find(s[1..], text);
      if i == -1 then -1 else i + 1
  }

  function IdFor(s: seq<Label>, text: string): Option<nat> {
    var at := Find(s, text);
    if at == -1 then None else s[at].id
  }

  /** The next id: one more than the largest, and at least 1. */
  method NextId(s: seq<Label>) returns (id: nat)
    ensures id >= 1 && forall g | g in s && g.id.Some? :: g.id.value < id
  {
    id := 1;
    for i := 0 to |s|
      invariant id >= 1 && forall j | 0 <= j < i && s[j].id.Some? :: s[j].id.value < id
    {
      if s[i].id.Some? && s[i].id.value >= id {
        id := s[i].id.value + 1;
      }
    }
  }

  /** The list after labels were added: the old entries first, then only new texts that were asked for, each once. */
  ghost predicate Extends(s: seq<Label>, s': seq<Label>, texts: seq<string>) {
    && s <= s'
    && (forall i | |s| <= i < |s'| :: s'[i].id.Some? && s'[i].text in texts && Find(s'[..i], s'[i].text) == -1)
    && (forall t | t in texts :: Find(s', t) != -1)
    && (IdsDistinct(s) ==> IdsDistinct(s'))
  }

  method AddLabel(s: seq<Label>, text: string, ghost texts: seq<string>, ghost old': seq<Label>)
    returns (s': seq<Label>)
    requires Extends(old', s, texts)
    ensures Extends(old', s', texts + [text])
  {
    s' := s;
    if Find(s, text) == -1 {
      var id := NextId(s);
      s' := s + [Label(Some(id), text)];
      LabelAdded(old', s, Label(Some(id), text), texts);
    } else {
      assert forall t | t in texts + [text] :: t in texts || t == text;
    }
  }

  lemma {:induction false} FindKept(s: seq<Label>, more: seq<Label>, text: string)
    requires Find(s, text) != -1
    ensures Find(s + more, text) == Find(s, text)
  {
    var at := Find(s, text);
    var at' := Find(s + more, text);
    assert (s + more)[at] in s + more;
    assert forall i | 0 <= i < at :: (s + more)[i] == s[i];
  }

  lemma LabelAdded(old': seq<Label>, s: seq<Label>, l: Label, texts: seq<string>)
    requires Extends(old', s, texts) && Find(s, l.text) == -1
    requires l.id.Some? && forall g | g in s && g.id.Some? :: g.id.value < l.id.value
    ensures Extends(old', s + [l], texts + [l.text])
  {
    var s' := s + [l];
    forall t | t in texts + [l.text] ensures Find(s', t) != -1 {
      assert s'[|s|] in s';
      if t in texts {
        FindKept(s, [l], t);
      }
    }
    forall i | |old'| <= i < |s'|
      ensures s'[i].id.Some? && s'[i].text in texts + [l.text] && Find(s'[..i], s'[i].text) == -1 {
      assert s'[..i] == s[..i];
      if i == |s| {
        assert s[..i] == s;
      }
    }
    if IdsDistinct(old') {
      forall i, j | 0 <= i < j < |s'| && s'[i].id.Some? ensures s'[i].id != s'[j].id {
        if j == |s| {
          assert s[i] in s;
        }
      }
    }
  }

  // ---- Import ----

  function OwnGroup(tg: Talkgroup): string {
    if tg.category == "" then "Uncategorized" else tg.category
  }

  function OwnTag(tg: Talkgroup): string {
    if tg.tag == "" then "Untagged" else tg.tag
  }

  predicate IsTelemetry(tg: Talkgroup, run: Runtime) {
    Mask.FirstIndex(run.lower(tg.tag), "data") != -1 || Mask.FirstIndex(run.lower(tg.name), "telemetry") != -1
  }

  /** The talkgroups to import: visible and selected, and neither encrypted nor telemetry where those are to be left
      out. */
  predicate IsPicked(tg: Talkgroup, options: Options, run: Runtime) {
    && tg.visible && tg.selected
    && !(options.noEncrypted && tg.encrypted != 0)
    && !(options.noTelemetry && IsTelemetry(tg, run))
  }

  function Without(s: string, isSpace: char -> bool): string {
    if s == "" then "" else (if isSpace(s[0]) then "" else [s[0]]) + Without(s[1..], isSpace)
  }

  /** The label under which a talkgroup is imported: long ones lose their spaces, any may be put in capitals. */
  function LabelOf(caption: string, options: Options, run: Runtime): string {
    var text := if options.removeSpaces && |caption| >= 16 then Without(caption, run.isSpace) else caption;
    if options.upperCase then run.upper(text) else text
  }

  function Picked(tgs: seq<Talkgroup>, options: Options, run: Runtime): seq<Talkgroup> {
    if tgs == [] then []
    else
      (if IsPicked(tgs[0], options, run) then [tgs[0].(caption := LabelOf(tgs[0].caption, options, run))] else []) +
      Picked(tgs[1..], options, run)
  }

  /** Where in the list the picked talkgroups come from, in order. */
  function Places(tgs: seq<Talkgroup>, options: Options, run: Runtime): (places: seq<nat>)
    ensures forall i | 0 <= i < |places| :: places[i] < |tgs|
  {
    if tgs == [] then []
    else
      var n := |tgs| - 1;
      Places(tgs[..n], options, run) + if IsPicked(tgs[n], options, run) then [n] else []
  }

  lemma {:induction false} PickedJoined(a: seq<Talkgroup>, b: seq<Talkgroup>, options: Options, run: Runtime)
    ensures Picked(a + b, options, run) == Picked(a, options, run) + Picked(b, options, run)
  {
    hide IsPicked, LabelOf;
    if a == [] {
      assert a + b == b;
    } else {
      assert (a + b)[1..] == a[1..] + b;
      PickedJoined(a[1..], b, options, run);
    }
  }

  predicate Contains(s: string, part: string) {
    exists i | 0 <= i <= |s| :: part <= s[i..]
  }

  lemma {:induction false} ContainsIsFound(s: string, part: string)
    ensures Contains(s, part) <==> Mask.FirstIndex(s, part) != -1
  {
    assert s[0..] == s;
    Mask.FirstIndexFits(s, part);
    if s != "" {
      ContainsIsFound(s[1..], part);
      assert forall i | 0 <= i < |s| :: s[1..][i..] == s[i + 1..];
      assert forall i | 0 < i <= |s| :: s[1..][i - 1..] == s[i..];
    }
  }

  /** What the options leave out, said of the talkgroup itself. */
  lemma PickedMeans(tg: Talkgroup, options: Options, run: Runtime)
    ensures IsPicked(tg, options, run) <==>
              && tg.visible && tg.selected
              && (options.noEncrypted ==> tg.encrypted == 0)
              && (options.noTelemetry ==> !Contains(run.lower(tg.tag), "data"))
              && (options.noTelemetry ==> !Contains(run.lower(tg.name), "telemetry"))
  {
    ContainsIsFound(run.lower(tg.tag), "data");
    ContainsIsFound(run.lower(tg.name), "telemetry");
    hide Contains, Mask.FirstIndex;
  }

  /** A squeezed label is made of the characters that are no spaces, in their order. */
  lemma {:induction false} WithoutJoined(a: string, c: char, isSpace: char -> bool)
    ensures Without(a + [c], isSpace) == Without(a, isSpace) + if isSpace(c) then "" else [c]
    ensures Without("", isSpace) == ""
  {
    if a == "" {
      assert a + [c] == [c];
    } else {
      assert (a + [c])[1..] == a[1..] + [c];
      WithoutJoined(a[1..], c, isSpace);
    }
  }

  /** Labels of 16 characters and more lose their spaces if that box is ticked, all go to capitals if that one is. */
  lemma LabelMeans(caption: string, options: Options, run: Runtime)
    ensures
      var squeezed := options.removeSpaces && 16 <= |caption|;
      LabelOf(caption, options, run) ==
        match (squeezed, options.upperCase)
        case (false, false) => caption
        case (false, true) => run.upper(caption)
        case (true, false) => Without(caption, run.isSpace)
        case (true, true) => run.upper(Without(caption, run.isSpace))
  {
  }

  /** Exactly the wanted talkgroups are picked, each once and in their order, and only their labels change. */
  lemma {:induction false} PickedExactly(tgs: seq<Talkgroup>, options: Options, run: Runtime)
    ensures
      var picked, places := Picked(tgs, options, run), Places(tgs, options, run);
      && |picked| == |places|
      && (forall i, j | 0 <= i < j < |places| :: places[i] < places[j])
      && (forall n | 0 <= n < |tgs| :: IsPicked(tgs[n], options, run) <==> n in places)
      && forall i | 0 <= i < |picked| ::
           picked[i] == tgs[places[i]].(caption := LabelOf(tgs[places[i]].caption, options, run))
  {
    hide IsPicked, LabelOf;
    if tgs != [] {
      var n := |tgs| - 1;
      PickedExactly(tgs[..n], options, run);
      PickedJoined(tgs[..n], [tgs[n]], options, run);
      assert tgs == tgs[..n] + [tgs[n]];
      assert [tgs[n]][1..] == [];
    }
  }

  ghost function GroupTexts(picked: seq<Talkgroup>): (texts: seq<string>)
    ensures |texts| == |picked| && forall i | 0 <= i < |picked| :: texts[i] == OwnGroup(picked[i])
  {
    seq(|picked|, i requires 0 <= i < |picked| => OwnGroup(picked[i]))
  }

  ghost function TagTexts(picked: seq<Talkgroup>): (texts: seq<string>)
    ensures |texts| == |picked| && forall i | 0 <= i < |picked| :: texts[i] == OwnTag(picked[i])
  {
    seq(|picked|, i requires 0 <= i < |picked| => OwnTag(picked[i]))
  }

  function EntryFor(tg: Talkgroup, i: nat, groups: seq<Label>, tags: seq<Label>): Entry {
    Entry(tg.id, tg.caption, tg.name, i + 1, IdFor(groups, OwnGroup(tg)), IdFor(tags, OwnTag(tg)),
          if tg.frequency == 0 then None else Some(tg.frequency))
  }

  /** The entry has the talkgroup's own fields, its place as order, and the ids found for its group and tag. */
  predicate IsEntryFor(e: Entry, tg: Talkgroup, i: nat, groups: seq<Label>, tags: seq<Label>) {
    && e.id == tg.id && e.caption == tg.caption && e.name == tg.name && e.order == i + 1
    && e.frequency == (if tg.frequency == 0 then None else Some(tg.frequency))
    && e.groupId == IdFor(groups, if tg.category != "" then tg.category else "Uncategorized")
    && e.tagId == IdFor(tags, if tg.tag != "" then tg.tag else "Untagged")
  }

  class AdminConfig {
    var groups: seq<Label>
    var tags: seq<Label>
    var systems: seq<seq<Entry>>

    /** For every selection: groups and tags only grow, by the missing texts with ids of their own, and one new system
        goes in front of the others with one talkgroup for each one picked, in order. */
    method Import(tgs: seq<Talkgroup>, options: Options, run: Runtime)
      modifies this
      ensures var picked := Picked(tgs, options, run);
        if picked == [] then groups == old(groups) && tags == old(tags) && systems == old(systems)
        else
          && Extends(old(groups), groups, GroupTexts(picked))
          && Extends(old(tags), tags, TagTexts(picked))
          && |systems| == |old(systems)| + 1 && systems[1..] == old(systems)
          && |systems[0]| == |picked|
          && forall i | 0 <= i < |picked| :: IsEntryFor(systems[0][i], picked[i], i, groups, tags)
    {
      hide Extends;
      var picked := Picked(tgs, options, run);
      if |picked| == 0 {
        return;
      }
      ghost var groupTexts, tagTexts := GroupTexts(picked), TagTexts(picked);
      NothingAdded(groups);
      NothingAdded(tags);
      for i := 0 to |picked|
        invariant Extends(old(groups), groups, groupTexts[..i])
        invariant Extends(old(tags), tags, tagTexts[..i])
        invariant systems == old(systems)
      {
        assert groupTexts[..i + 1] == groupTexts[..i] + [OwnGroup(picked[i])];
        assert tagTexts[..i + 1] == tagTexts[..i] + [OwnTag(picked[i])];
        groups := AddLabel(groups, OwnGroup(picked[i]), groupTexts[..i], old(groups));
        tags := AddLabel(tags, OwnTag(picked[i]), tagTexts[..i], old(tags));
      }
      assert groupTexts[..|picked|] == groupTexts && tagTexts[..|picked|] == tagTexts;
      var talkgroups := [];
      for i := 0 to |picked|
        invariant |talkgroups| == i
        invariant forall j | 0 <= j < i :: IsEntryFor(talkgroups[j], picked[j], j, groups, tags)
      {
        talkgroups := talkgroups + [EntryFor(picked[i], i, groups, tags)];
      }
      systems := [talkgroups] + systems;
    }
  }

  lemma NothingAdded(s: seq<Label>)
    ensures Extends(s, s, [])
  {
  }

  /** The id stands for this text and for no other. */
  ghost predicate Resolves(s: seq<Label>, id: Option<nat>, text: string) {
    id.Some? && (exists g | g in s :: g.id == id) && forall g | g in s && g.id == id :: g.text == text
  }

  /** An imported talkgroup resolves to its own group and tag exactly when the label was new, or was stored with an
      id. */
  lemma ImportedResolves(s: seq<Label>, s': seq<Label>, texts: seq<string>, text: string)
    requires Extends(s, s', texts) && IdsDistinct(s) && text in texts
    ensures Resolves(s', IdFor(s', text), text) <==> Find(s, text) == -1 || s[Find(s, text)].id.Some?
  {
  }
}
