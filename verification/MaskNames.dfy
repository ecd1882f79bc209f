/** From noted positions to capture names: when the captures of a mask get the names of their own tokens. */
module MaskNames {
  import opened Mask
  import opened Rows

  /** No two notes are of the same token. */
  lemma NotesDistinct(t: seq<Entry>, text: string)
    requires Fine(t)
    ensures DistinctIds(LeftToRight(t, Finished(t, text)))
  {
    hide LeftToRight;
    TurnsKeep(t, text, |t|);
  }

  /** The finished mask and its notes, as the source computes them. */
  ghost predicate IsParse(t: seq<Entry>, text: string, mask: string, notes: seq<Note>)
    requires Fine(t)
  {
    var m := Finished(t, text);
    && mask == Render(t, m)
    && SortedRows(notes)
    && multiset(notes) == multiset(LeftToRight(t, m))
  }

  method SortByPosition(list: seq<Note>) returns (out: seq<Note>)
    ensures SortedRows(out) && multiset(out) == multiset(list)
  {
    out := [];
    for n := 0 to |list|
      invariant SortedRows(out) && multiset(out) == multiset(list[..n])
    {
      assert list[..n + 1] == list[..n] + [list[n]];
      out := InsertByOrder(out, list[n]);
    }
    assert list[..|list|] == list;
  }

  lemma NothingNoted(t: seq<Entry>, text: string)
    requires Fine(t)
    ensures var m := AfterTurns(t, text, 0); Render(t, m) == text && LeftToRight(t, m) == []
  {
  }

  lemma OneMoreNote(taken: seq<Note>, own: seq<Note>, own': seq<Note>, x: Note)
    requires multiset(taken) == multiset(own) && Adds(own, own', x)
    ensures multiset(taken + [x]) == multiset(own')
  {
  }

  /** For every mask: the loop leaves the finished mask, and notes every capture exactly once, at the position of its
      own turn. */
  method ParseMask(t: seq<Entry>, text: string) returns (mask: string, notes: seq<Note>)
    requires Fine(t)
    ensures IsParse(t, text, mask, notes)
  {
    hide Render, FirstIndex, ReplaceAt, LeftToRight, Taken, Fine, Adds;
    NothingNoted(t, text);
    mask := text;
    var taken := [];
    for k := 0 to |t|
      invariant mask == Render(t, AfterTurns(t, text, k))
      invariant multiset(taken) == multiset(LeftToRight(t, AfterTurns(t, text, k)))
    {
      var at := FirstIndex(mask, t[k].text);
      ghost var m := AfterTurns(t, text, k);
      OneTurn(t, m, k);
      TurnNoted(t, text, k);
      if at != -1 {
        OneMoreNote(taken, LeftToRight(t, m), LeftToRight(t, AfterTurns(t, text, k + 1)), Row(k, at, ()));
        taken := taken + [Row(k, at, ())];
        mask := ReplaceAt(mask, at, t[k]);
      }
    }
    notes := SortByPosition(taken);
  }

  // ---- Names ----

  /** Capture i is named after the i-th note; that name is right when the note is that of the i-th token. */
  ghost predicate NamesRight(own: seq<Note>, notes: seq<Note>) {
    |notes| == |own| && forall i | 0 <= i < |notes| :: notes[i].id == own[i].id
  }

  /** The noted positions grow strictly from left to right. */
  ghost predicate Ascending(own: seq<Note>) {
    forall i | 0 <= i < |own| - 1 :: own[i].order < own[i + 1].order
  }

  ghost predicate StrictlySorted(s: seq<Note>) {
    forall i, j | 0 <= i < j < |s| :: s[i].order < s[j].order
  }

  lemma SameHead(a: seq<Note>, b: seq<Note>)
    requires SortedRows(a) && StrictlySorted(b) && multiset(a) == multiset(b) && a != []
    ensures b != [] && a[0] == b[0]
  {
    assert a[0] in multiset(b);
    var j :| 0 <= j < |b| && b[j] == a[0];
    assert b[0] in multiset(a);
    var i :| 0 <= i < |a| && a[i] == b[0];
    assert j == 0;
  }

  lemma SameTail<T>(a: seq<T>, b: seq<T>)
    requires a != [] && b != [] && a[0] == b[0] && multiset(a) == multiset(b)
    ensures multiset(a[1..]) == multiset(b[1..])
  {
    assert a == [a[0]] + a[1..] && b == [b[0]] + b[1..];
    assert multiset(a[1..]) == multiset(a) - multiset{a[0]};
  }

  lemma {:induction false} SortedStrictly(a: seq<Note>, b: seq<Note>)
    requires SortedRows(a) && StrictlySorted(b) && multiset(a) == multiset(b)
    ensures a == b
  {
    if a == [] {
      assert |multiset(b)| == 0;
    } else {
      SameHead(a, b);
      SameTail(a, b);
      SortedStrictly(a[1..], b[1..]);
      assert a == [a[0]] + a[1..] && b == [b[0]] + b[1..];
    }
  }

  lemma {:induction false} AscendingPairs(own: seq<Note>, i: nat, j: nat)
    requires Ascending(own) && i < j < |own|
    ensures own[i].order < own[j].order
    decreases j
  {
    assert own[j - 1].order < own[j - 1 + 1].order;
    if i < j - 1 {
      AscendingPairs(own, i, j - 1);
    }
  }

  /** Notes out of order, or level, can be sorted so that some place holds another token's note. */
  lemma WrongOrder(own: seq<Note>, k: nat) returns (notes: seq<Note>, i: nat)
    requires DistinctIds(own) && k + 1 < |own| && own[k].order >= own[k + 1].order
    ensures SortedRows(notes) && multiset(notes) == multiset(own)
    ensures i < |own| && i < |notes| && notes[i].id != own[i].id
  {
    notes := ASorted(own);
    i := k;
    if own == notes {
      notes := Swapped(own, k);
    } else if forall j | 0 <= j < |notes| && j < |own| :: notes[j].id == own[j].id {
      SameNotes(own, notes);
    } else {
      i :| 0 <= i < |notes| && i < |own| && notes[i].id != own[i].id;
    }
  }

  lemma Swapped(own: seq<Note>, k: nat) returns (notes: seq<Note>)
    requires k + 1 < |own| && SortedRows(own) && own[k].order >= own[k + 1].order
    ensures SortedRows(notes) && multiset(notes) == multiset(own) && |notes| == |own| && notes[k] == own[k + 1]
  {
    var a, b, c, d := own[..k], [own[k]], [own[k + 1]], own[k + 2..];
    assert own == a + b + c + d;
    notes := a + c + b + d;
  }

  lemma Placed(s: seq<Note>, n: Note) returns (out: seq<Note>)
    requires SortedRows(s)
    ensures SortedRows(out) && multiset(out) == multiset(s) + multiset{n}
  {
    var i := 0;
    while i < |s| && s[i].order < n.order
      invariant 0 <= i <= |s| && forall j | 0 <= j < i :: s[j].order < n.order
    {
      i := i + 1;
    }
    InsertedSorted(s, i, n);
    InsertedCounts(s, i, n);
    out := s[..i] + [n] + s[i..];
  }

  lemma {:induction false} ASorted(list: seq<Note>) returns (out: seq<Note>)
    ensures SortedRows(out) && multiset(out) == multiset(list)
  {
    if list == [] {
      out := [];
    } else {
      var rest := ASorted(list[1..]);
      out := Placed(rest, list[0]);
      assert list == [list[0]] + list[1..];
    }
  }

  lemma SameNotes(own: seq<Note>, notes: seq<Note>)
    requires DistinctIds(own) && multiset(own) == multiset(notes)
    requires forall i | 0 <= i < |notes| && i < |own| :: notes[i].id == own[i].id
    ensures own == notes
  {
    assert |own| == |multiset(own)| == |multiset(notes)| == |notes|;
    forall i | 0 <= i < |own| ensures own[i] == notes[i] {
      assert notes[i] in multiset(own);
    }
  }

  lemma AscendingNamesRight(own: seq<Note>, notes: seq<Note>)
    requires Ascending(own) && SortedRows(notes) && multiset(notes) == multiset(own)
    ensures NamesRight(own, notes)
  {
    forall i, j | 0 <= i < j < |own| ensures own[i].order < own[j].order {
      AscendingPairs(own, i, j);
    }
    SortedStrictly(notes, own);
  }

  lemma UnsortedNamesWrong(own: seq<Note>) returns (notes: seq<Note>)
    requires DistinctIds(own) && !Ascending(own)
    ensures SortedRows(notes) && multiset(notes) == multiset(own) && !NamesRight(own, notes)
  {
    var k :| 0 <= k < |own| - 1 && own[k].order >= own[k + 1].order;
    var i;
    notes, i := WrongOrder(own, k);
  }

  /** Exactly when names are right, for every mask: every order the sort may return names every capture after its own
      token, if and only if the noted positions grow strictly from left to right. */
  lemma NamesRightIff(t: seq<Entry>, text: string)
    requires Fine(t)
    ensures
      var own := LeftToRight(t, Finished(t, text));
      Ascending(own) <==> forall mask, notes | IsParse(t, text, mask, notes) :: NamesRight(own, notes)
  {
    var m := Finished(t, text);
    NotesDistinct(t, text);
    var own := LeftToRight(t, m);
    hide Finished, LeftToRight, Render, Ascending, SortedRows, NamesRight;
    if Ascending(own) {
      forall mask, notes | IsParse(t, text, mask, notes) ensures NamesRight(own, notes) {
        AscendingNamesRight(own, notes);
      }
    } else {
      var notes := UnsortedNamesWrong(own);
      assert IsParse(t, text, Render(t, m), notes);
    }
  }

  // ---- Which capture is whose ----

  function Opens(s: string): nat {
    if s == "" then 0 else (if s[0] == '(' then 1 else 0) + Opens(s[1..])
  }

  lemma {:induction false} OpensJoined(a: string, b: string)
    ensures Opens(a + b) == Opens(a) + Opens(b)
  {
    if a == "" {
      assert a + b == b;
    } else {
      assert (a + b)[1..] == a[1..] + b;
      OpensJoined(a[1..], b);
    }
  }

  lemma {:induction false} OpensNone(s: string)
    requires '(' !in s
    ensures Opens(s) == 0
  {
    if s != "" {
      OpensNone(s[1..]);
    }
  }

  lemma ShownOpensOne(t: seq<Entry>, s: Segment)
    requires Fine(t) && s.token < |t| && '(' !in s.after
    ensures var shown := Shown(t, s); shown != "" && shown[0] == '(' && Opens(shown) == 1
  {
    var e := t[s.token];
    assert EntryFine(e);
    var rest := e.pattern + ")" + s.after;
    assert Shown(t, s) == "(" + rest;
    OpensNone(rest);
  }

  /** Where segment i stands among the segments of the rewritten mask. */
  ghost function CaptureStart(t: seq<Entry>, segments: seq<Segment>, i: nat): nat
    requires i <= |segments| && InTable(t, segments)
  {
    if i == 0 then 0 else |Shown(t, segments[0])| + CaptureStart(t, segments[1..], i - 1)
  }

  /** The place has i captures before it, and another one starts there unless the mask is at its end. */
  ghost predicate OpensAt(s: string, place: nat, i: nat, more: bool) {
    place <= |s| && Opens(s[..place]) == i && (more ==> place < |s| && s[place] == '(')
  }

  lemma OpensAfter(a: string, b: string, place: nat, i: nat, more: bool)
    requires OpensAt(b, place, i, more)
    ensures OpensAt(a + b, |a| + place, Opens(a) + i, more)
  {
    assert (a + b)[..|a| + place] == a + b[..place];
    OpensJoined(a, b[..place]);
  }

  ghost predicate Plain(segments: seq<Segment>) {
    forall s | s in segments :: '(' !in s.after
  }

  lemma {:induction false} CapturesCounted(t: seq<Entry>, segments: seq<Segment>, i: nat)
    requires Fine(t) && InTable(t, segments) && i <= |segments| && Plain(segments)
    ensures OpensAt(ShownAll(t, segments), CaptureStart(t, segments, i), i, i < |segments|)
  {
    if segments != [] {
      ShownOpensOne(t, segments[0]);
      var a, b := Shown(t, segments[0]), ShownAll(t, segments[1..]);
      hide Shown, Fine, Opens;
      if i == 0 {
        assert (a + b)[..0] == "" && Opens("") == 0 by { OpensNone(""); }
      } else {
        CapturesCounted(t, segments[1..], i - 1);
        hide OpensAt;
        OpensAfter(a, b, CaptureStart(t, segments[1..], i - 1), i - 1, i < |segments|);
      }
    } else {
      OpensNone("");
    }
  }

  lemma NotIn(a: string, b: string, c: char)
    requires c !in a + b
    ensures c !in a && c !in b
  {
  }

  lemma {:induction false} PlainAfter(t: seq<Entry>, segments: seq<Segment>)
    requires InTable(t, segments) && '(' !in WrittenAll(t, segments)
    ensures Plain(segments)
  {
    if segments != [] {
      NotIn(Written(t, segments[0]), WrittenAll(t, segments[1..]), '(');
      NotIn(t[segments[0].token].text, segments[0].after, '(');
      PlainAfter(t, segments[1..]);
    }
  }

  lemma CapturesOf(t: seq<Entry>, m: Mask, i: nat)
    requires Fine(t) && InTable(t, m.segments) && i <= |m.segments| && '(' !in Source(t, m)
    ensures OpensAt(Render(t, m), |m.lead| + CaptureStart(t, m.segments, i), i, i < |m.segments|)
  {
    hide CaptureStart, ShownAll, WrittenAll, OpensAt, Plain, Fine, InTable, Opens;
    NotIn(m.lead, WrittenAll(t, m.segments), '(');
    PlainAfter(t, m.segments);
    CapturesCounted(t, m.segments, i);
    OpensNone(m.lead);
    OpensAfter(m.lead, ShownAll(t, m.segments), CaptureStart(t, m.segments, i), i, i < |m.segments|);
  }

  /** For every mask without parentheses: the capture with i captures before it is the one that replaced the i-th
      token from the left, so the captures are as many as the notes. */
  lemma CapturesInOrder(t: seq<Entry>, text: string, i: nat)
    requires Fine(t) && '(' !in text && i <= |Finished(t, text).segments|
    ensures
      var m := Finished(t, text);
      OpensAt(Render(t, m), |m.lead| + CaptureStart(t, m.segments, i), i, i < |m.segments|)
  {
    assert Finished(t, text) == AfterTurns(t, text, |t|);
    hide *;
    TurnsKeep(t, text, |t|);
    CapturesOf(t, Finished(t, text), i);
  }

  // ---- Orders that are named right, and one that is not ----

  /** To the left of every token stand either only earlier tokens of the table or only later ones. */
  ghost predicate Straight(segments: seq<Segment>) {
    || (forall i, j | 0 <= i < j < |segments| :: segments[i].token < segments[j].token)
    || (forall i, j | 0 <= i < j < |segments| :: segments[i].token > segments[j].token)
  }

  lemma {:induction false} GrowthAgrees(t: seq<Entry>, tokens: seq<nat>, n: nat, n': nat)
    requires Fine(t) && Entries(t, tokens)
    requires forall j | 0 <= j < |tokens| :: tokens[j] < n <==> tokens[j] < n'
    ensures GrowthOf(t, tokens, n) == GrowthOf(t, tokens, n')
  {
    hide Growth, Fine;
    if tokens != [] {
      GrowthAgrees(t, tokens[..|tokens| - 1], n, n');
    }
  }

  lemma {:induction false} StartStep(t: seq<Entry>, segments: seq<Segment>, i: nat)
    requires i < |segments| && InTable(t, segments)
    ensures Start(t, segments, i + 1) == Start(t, segments, i) + |Written(t, segments[i])|
  {
    hide Written;
    if i > 0 {
      StartStep(t, segments[1..], i - 1);
    }
  }

  /** Tokens written in table order, or in reverse, always get their own names. */
  lemma StraightAscends(t: seq<Entry>, m: Mask)
    requires Fine(t) && InTable(t, m.segments) && Straight(m.segments)
    ensures Ascending(LeftToRight(t, m))
  {
    hide LeftToRight;
    forall i | 0 <= i < |m.segments| - 1 ensures LeftToRight(t, m)[i].order < LeftToRight(t, m)[i + 1].order {
      NextFurther(t, m, i);
    }
  }

  lemma NextFurther(t: seq<Entry>, m: Mask, i: nat)
    requires Fine(t) && InTable(t, m.segments) && Straight(m.segments) && i + 1 < |m.segments|
    ensures LeftToRight(t, m)[i].order < LeftToRight(t, m)[i + 1].order
  {
    hide LeftToRight, Start, GrowthOf, Written;
    var segments := m.segments;
    var k, n, left := segments[i].token, segments[i + 1].token, LeftOf(segments, i);
    NoteOf(t, m, i);
    NoteOf(t, m, i + 1);
    StartStep(t, segments, i);
    WrittenSize(t, segments[i]);
    assert EntryFine(t[k]);
    assert LeftOf(segments, i + 1) == left + [k];
    GrowthJoined(t, left, k, n);
    GrowthAgrees(t, left, k, n);
  }

  lemma NoneEarlier(s: string)
    requires s == "#TG_#DATE"
    ensures EarliestEntry(Meta(), s, 0) == 13
  {
    hide DatePattern, TimePattern, WordsPattern, LabelPattern, DigitsPattern, DecimalPattern, AfsPattern;
    assert Meta()[13].text <= s;
    forall i | 0 <= i < 13 ensures !(Meta()[i].text <= s) {
      assert s[1] == 'T' && s[2] == 'G' && s[3] == '_';
    }
  }

  lemma NoneAt(s: string)
    requires s != "" && s[0] != '#'
    ensures EarliestEntry(Meta(), s, 0) == |Meta()|
  {
    MetaFine();
    hide Meta;
    forall i | 0 <= i < |Meta()| ensures !(Meta()[i].text <= s) {
      assert EntryFine(Meta()[i]);
    }
  }

  /** A group, a talkgroup and a date: the date is replaced first, and its noted position is never adjusted. */
  lemma GroupTalkgroupDate()
    ensures Fine(Meta())
    ensures
      var own := LeftToRight(Meta(), Finished(Meta(), "#GROUP_#TG_#DATE"));
      own == [Row(1, 0, ()), Row(13, 20, ()), Row(0, 11, ())] && !Ascending(own)
  {
    assert DistinctTokens([Segment(1, "_"), Segment(13, "_"), Segment(0, "")]);
    hide *;
    MetaFine();
    ReadExample();
    PlacesOfExample();
    ReadingKept(Meta(), "#GROUP_#TG_#DATE");
    var own := LeftToRight(Meta(), Finished(Meta(), "#GROUP_#TG_#DATE"));
    assert own[1].order > own[1 + 1].order;
  }

  lemma ReadOneToken(t: seq<Entry>, s: string, k: nat, next: string, rest: Mask)
    requires Fine(t) && s != "" && EarliestEntry(t, s, 0) == k < |t|
    requires next == s[|t[k].text|..] && ReadMask(t, next) == rest
    ensures ReadMask(t, s) == Mask("", [Segment(k, rest.lead)] + rest.segments)
  {
  }

  lemma ReadOneChar(t: seq<Entry>, s: string, next: string, rest: Mask)
    requires Fine(t) && s != "" && EarliestEntry(t, s, 0) == |t| && next == s[1..] && ReadMask(t, next) == rest
    ensures ReadMask(t, s) == Mask([s[0]] + rest.lead, rest.segments)
  {
  }

  lemma TextLengths()
    ensures |Meta()| == 17 && |Meta()[0].text| == 5 && |Meta()[1].text| == 6 && |Meta()[13].text| == 3
  {
  }

  lemma ReadExampleEnd()
    requires Fine(Meta())
    ensures ReadMask(Meta(), "_#DATE") == Mask("_", [Segment(0, "")])
  {
    hide Meta, EarliestEntry;
    var t := Meta();
    TextLengths();
    EarliestOfExample();
    NoneAt("_#DATE");
    hide Fine;
    ReadNothing(t);
    assert "#DATE"[5..] == "" && "_#DATE"[1..] == "#DATE";
    hide ReadMask;
    ReadOneToken(t, "#DATE", 0, "", Mask("", []));
    ReadOneChar(t, "_#DATE", "#DATE", Mask("", [Segment(0, "")]));
  }

  lemma ReadExampleMiddle()
    requires Fine(Meta())
    ensures ReadMask(Meta(), "_#TG_#DATE") == Mask("_", [Segment(13, "_"), Segment(0, "")])
  {
    hide *;
    var t := Meta();
    TextLengths();
    NoneAt("_#TG_#DATE");
    NoneEarlier("#TG_#DATE");
    ReadExampleEnd();
    assert "#TG_#DATE"[3..] == "_#DATE" && "_#TG_#DATE"[1..] == "#TG_#DATE";
    ReadOneToken(t, "#TG_#DATE", 13, "_#DATE", Mask("_", [Segment(0, "")]));
    ReadOneChar(t, "_#TG_#DATE", "#TG_#DATE", Mask("", [Segment(13, "_"), Segment(0, "")]));
  }

  lemma ReadExample()
    requires Fine(Meta())
    ensures ReadMask(Meta(), "#GROUP_#TG_#DATE") == Mask("", [Segment(1, "_"), Segment(13, "_"), Segment(0, "")])
  {
    hide Meta, EarliestEntry, Fine, ReadMask;
    var t := Meta();
    TextLengths();
    EarliestOfExample();
    ReadExampleMiddle();
    assert "#GROUP_#TG_#DATE"[6..] == "_#TG_#DATE";
    ReadOneToken(t, "#GROUP_#TG_#DATE", 1, "_#TG_#DATE", Mask("_", [Segment(13, "_"), Segment(0, "")]));
  }

  lemma ReadNothing(t: seq<Entry>)
    requires Fine(t)
    ensures ReadMask(t, "") == Mask("", [])
  {
  }

  lemma EarliestOfExample()
    ensures EarliestEntry(Meta(), "#DATE", 0) == 0 && EarliestEntry(Meta(), "#GROUP_#TG_#DATE", 0) == 1
  {
    hide DatePattern, TimePattern, WordsPattern, LabelPattern, DigitsPattern, DecimalPattern, AfsPattern;
    var t := Meta();
    assert t[0].text == "#DATE" && t[1].text == "#GROUP";
    hide Meta;
    assert "#DATE" <= "#DATE" && "#GROUP" <= "#GROUP_#TG_#DATE";
    assert !("#DATE" <= "#GROUP_#TG_#DATE") by { assert "#DATE"[1] != "#GROUP_#TG_#DATE"[1]; }
  }

  lemma PlacesOfExample()
    requires Fine(Meta())
    ensures
      var m := Mask("", [Segment(1, "_"), Segment(13, "_"), Segment(0, "")]);
      InTable(Meta(), m.segments) && LeftToRight(Meta(), m) == [Row(1, 0, ()), Row(13, 20, ()), Row(0, 11, ())]
  {
    hide Meta, GrowthOf, NotesFrom, Fine;
    TextLengths();
    GroupGrowth();
    PlacesFromLengths(Meta());
  }

  lemma GroupGrowth()
    ensures Growth(Meta()[1]) == 13
  {
    hide DatePattern, TimePattern, LabelPattern, DigitsPattern, DecimalPattern, AfsPattern;
  }

  lemma PlacesFromLengths(t: seq<Entry>)
    requires Fine(t) && |t| == 17 && |t[0].text| == 5 && |t[1].text| == 6 && |t[13].text| == 3 && Growth(t[1]) == 13
    ensures
      var m := Mask("", [Segment(1, "_"), Segment(13, "_"), Segment(0, "")]);
      InTable(t, m.segments) && LeftToRight(t, m) == [Row(1, 0, ()), Row(13, 20, ()), Row(0, 11, ())]
  {
    hide Growth, GrowthOf, NotesFrom, Fine, Written;
    var a, b, c := Segment(1, "_"), Segment(13, "_"), Segment(0, "");
    NoGrowth(t, 1);
    NotesTail(t, [a, b, c], 0, []);
    WrittenSize(t, a);
    assert [a, b, c][1..] == [b, c] && [] + [1] == [1];
    GrowthJoined(t, [], 1, 13);
    NoGrowth(t, 13);
    NotesTail(t, [b, c], 7, [1]);
    WrittenSize(t, b);
    assert [b, c][1..] == [c] && [1] + [13] == [1, 13];
    GrowthJoined(t, [1], 13, 0);
    GrowthJoined(t, [], 1, 0);
    NoGrowth(t, 0);
    NotesTail(t, [c], 11, [1, 13]);
    NoNotes(t, 11 + |Written(t, c)|, [1, 13] + [0]);
    assert [c][1..] == [];
  }

  lemma NoNotes(t: seq<Entry>, at: nat, left: seq<nat>)
    requires Fine(t) && Entries(t, left)
    ensures NotesFrom(t, [], at, left) == []
  {
  }
}
