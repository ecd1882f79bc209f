/** What the order and the names of the token table are for: a token is told from the shorter ones it begins with, and a
    capture is noted under the token's own name. */
module MaskTable {
  import opened Mask
  import opened MaskNames
  import opened Rows

  /** No token begins with one that is replaced before it. */
  ghost predicate LongestFirst(t: seq<Entry>) {
    forall i, j | 0 <= i < j < |t| :: !(t[i].text <= t[j].text)
  }

  lemma EarlierIsNoPrefix(i: nat, j: nat)
    requires i < j < |Meta()|
    ensures !(Meta()[i].text <= Meta()[j].text)
  {
    hide DatePattern, TimePattern, WordsPattern, LabelPattern, DigitsPattern, DecimalPattern, AfsPattern;
    match i {
      case 0 => assert Meta()[0].text[1] == 'D';
      case 1 => assert Meta()[1].text[1] == 'G';
      case 2 => assert Meta()[2].text[1] == 'H';
      case 3 => assert Meta()[3].text[1] == 'K';
      case 4 => assert Meta()[4].text[1] == 'M';
      case 5 => assert Meta()[5].text[4] == 'L';
      case 6 => assert Meta()[6].text[1] == 'S';
      case 7 => assert Meta()[7].text[2] == 'A';
      case 8 => assert Meta()[8].text[3] == 'A';
      case 9 => assert Meta()[9].text[3] == 'H';
      case 10 => assert Meta()[10].text[3] == 'K';
      case 11 => assert Meta()[11].text[3] == 'L';
      case 12 => assert Meta()[12].text[3] == 'M';
      case 13 => assert Meta()[13].text[2] == 'G';
      case 14 => assert Meta()[14].text[1] == 'T';
      case 15 => assert Meta()[15].text[1] == 'U';
    }
  }

  lemma MetaLongestFirst()
    ensures LongestFirst(Meta())
  {
    hide Meta;
    forall i, j | 0 <= i < j < |Meta()| ensures !(Meta()[i].text <= Meta()[j].text) {
      EarlierIsNoPrefix(i, j);
    }
  }

  /** Wherever tokens of such a table start, the longest of them is read. */
  lemma LongestIsRead(t: seq<Entry>, s: string, j: nat)
    requires LongestFirst(t) && j < |t| && t[j].text <= s
    ensures var k := EarliestEntry(t, s, 0); k < |t| && |t[j].text| <= |t[k].text|
  {
    var k := EarliestEntry(t, s, 0);
    ShorterIsPrefix(t[k].text, t[j].text, s);
  }

  lemma ShorterIsPrefix(a: string, b: string, s: string)
    requires a <= s && b <= s
    ensures |a| <= |b| ==> a <= b
  {
  }

  /** A mask that is one token is read and taken apart as that token: one capture, noted at 0. */
  lemma TokenAlone(t: seq<Entry>, k: nat)
    requires Fine(t) && LongestFirst(t) && k < |t|
    ensures Finished(t, t[k].text) == Mask("", [Segment(k, "")])
    ensures forall mask: string, notes: seq<Note> | IsParse(t, t[k].text, mask, notes) ::
              mask == "(" + t[k].pattern + ")" && |notes| == 1 && notes[0].id == k && notes[0].order == 0
  {
    assert EntryFine(t[k]);
    var text := t[k].text;
    var e := EarliestEntry(t, text, 0);
    LongestIsRead(t, text, k);
    assert e <= k;
    assert text[|text|..] == "" && ReadMask(t, "") == Mask("", []);
    assert ReadMask(t, text) == Mask("", [Segment(k, "")]);
    hide EarliestEntry, Fine, ReadMask;
    ReadingKept(t, text);
    OneSegment(t, k);
    hide Finished, LeftToRight, Render;
    forall mask: string, notes: seq<Note> | IsParse(t, text, mask, notes)
      ensures mask == Capture(t[k]) && |notes| == 1 && notes[0].id == k && notes[0].order == 0
    {
      OneNote(notes, LeftToRight(t, Finished(t, text)));
    }
  }

  lemma OneSegment(t: seq<Entry>, k: nat)
    requires Fine(t) && k < |t|
    ensures var m := Mask("", [Segment(k, "")]);
            && InTable(t, m.segments) && Render(t, m) == Capture(t[k])
            && |LeftToRight(t, m)| == 1 && LeftToRight(t, m)[0].id == k && LeftToRight(t, m)[0].order == 0
  {
    hide Fine;
    var m := Mask("", [Segment(k, "")]);
    assert m.segments[1..] == [] && ShownAll(t, []) == "" && ShownAll(t, m.segments) == Capture(t[k]) + "" + "";
    NoGrowth(t, k);
    NotesInFull(t, m);
    NotesTail(t, m.segments, 0, []);
  }

  lemma OneNote(a: seq<Note>, b: seq<Note>)
    requires multiset(a) == multiset(b) && |b| == 1
    ensures a == b
  {
    assert |multiset(a)| == |a| && |multiset(b)| == |b|;
    assert a[0] in multiset(a);
  }

  /** Every token of the table on its own. */
  lemma EveryTokenAlone(k: nat)
    requires k < |Meta()|
    ensures Fine(Meta())
    ensures forall mask: string, notes: seq<Note> | IsParse(Meta(), Meta()[k].text, mask, notes) ::
              mask == "(" + Meta()[k].pattern + ")" && |notes| == 1 && notes[0].id == k && notes[0].order == 0
  {
    hide *;
    MetaFine();
    MetaLongestFirst();
    TokenAlone(Meta(), k);
  }

  function Capital(c: char): char {
    if 'a' <= c <= 'z' then ((c as int) - 32) as char else c
  }

  /** A token is its name in capitals behind a #. */
  predicate Spells(e: Entry) {
    |e.text| == |e.name| + 1 && e.text[0] == '#' && forall i | 0 <= i < |e.name| :: e.text[i + 1] == Capital(e.name[i])
  }

  lemma NamesSpellTokens(k: nat)
    requires k < |Meta()|
    ensures Spells(Meta()[k])
  {
    hide DatePattern, TimePattern, WordsPattern, LabelPattern, DigitsPattern, DecimalPattern, AfsPattern;
  }
}
