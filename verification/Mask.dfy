/** Directory watch masks: every token is replaced by a capture group, its position is noted once, and the
    captures are named after the tokens in order of the noted positions. */
module Mask {
  import opened Rows

  datatype Entry = Entry(name: string, text: string, pattern: string)

  function DatePattern(): string { @"\d{4}[-_]{0,1}\d{2}[-_]{0,1}\d{2}" }
  function TimePattern(): string { @"\d{2}[-:]{0,1}\d{2}[-:]{0,1}\d{2}" }
  function WordsPattern(): string { @"[a-zA-Z0-9\.\ -]+" }
  function LabelPattern(): string { @"[a-zA-Z0-9,\.\ -]+" }
  function DigitsPattern(): string { @"\d+" }
  function DecimalPattern(): string { @"[\d\.]+" }
  function AfsPattern(): string { @"\d{2}-\d{3}" }

  /** The table of tokens, in the order in which they are replaced. */
  function Meta(): seq<Entry> {
    [Entry("date", "#DATE", DatePattern()), Entry("group", "#GROUP", WordsPattern()),
     Entry("hz", "#HZ", DigitsPattern()), Entry("khz", "#KHZ", DecimalPattern()),
     Entry("mhz", "#MHZ", DecimalPattern()), Entry("syslbl", "#SYSLBL", LabelPattern()),
     Entry("sys", "#SYS", DigitsPattern()), Entry("tag", "#TAG", WordsPattern()),
     Entry("tgafs", "#TGAFS", AfsPattern()),
     Entry("tghz", "#TGHZ", DigitsPattern()), Entry("tgkhz", "#TGKHZ", DecimalPattern()),
     Entry("tglbl", "#TGLBL", LabelPattern()), Entry("tgmhz", "#TGMHZ", DecimalPattern()),
     Entry("tg", "#TG", DigitsPattern()), Entry("time", "#TIME", TimePattern()),
     Entry("unit", "#UNIT", DigitsPattern()), Entry("ztime", "#ZTIME", TimePattern())]
  }

  /** A token text: one '#', at its start, and no parenthesis. */
  predicate IsToken(pat: string) {
    |pat| > 0 && pat[0] == '#' && '#' !in pat[1..] && '(' !in pat
  }

  predicate EntryFine(e: Entry) {
    && IsToken(e.text)
    && '#' !in e.pattern && '(' !in e.pattern
    && |e.text| <= |e.pattern| + 2
  }

  predicate Fine(t: seq<Entry>) {
    forall e | e in t :: EntryFine(e)
  }

  /** What replaces a token, and by how much that lengthens the mask. */
  function Capture(e: Entry): string {
    "(" + e.pattern + ")"
  }

  function Growth(e: Entry): int {
    |Capture(e)| - |e.text|
  }

  predicate CleanPattern(p: string) {
    '#' !in p && '(' !in p
  }

  lemma PatternsClean()
    ensures forall e | e in Meta() :: CleanPattern(e.pattern)
  {
    DateClean();
    TimeClean();
    WordsClean();
    LabelClean();
    assert CleanPattern(DigitsPattern()) && CleanPattern(DecimalPattern()) && CleanPattern(AfsPattern()) by {
      hide Meta;
    }
    hide CleanPattern, DatePattern, TimePattern, WordsPattern, LabelPattern, DigitsPattern, DecimalPattern, AfsPattern;
  }

  lemma DateClean()
    ensures CleanPattern(DatePattern())
  {
  }

  lemma TimeClean()
    ensures CleanPattern(TimePattern())
  {
  }

  lemma WordsClean()
    ensures CleanPattern(WordsPattern())
  {
  }

  lemma LabelClean()
    ensures CleanPattern(LabelPattern())
  {
  }

  lemma BasicTexts()
    ensures IsToken("#DATE") && IsToken("#GROUP") && IsToken("#HZ") && IsToken("#KHZ") && IsToken("#MHZ")
  {
  }

  lemma SystemTexts()
    ensures IsToken("#SYSLBL") && IsToken("#SYS") && IsToken("#TAG") && IsToken("#TGAFS")
  {
  }

  lemma TalkgroupTexts()
    ensures IsToken("#TGHZ") && IsToken("#TGKHZ") && IsToken("#TGLBL") && IsToken("#TGMHZ")
  {
  }

  lemma OtherTexts()
    ensures IsToken("#TG") && IsToken("#TIME") && IsToken("#UNIT") && IsToken("#ZTIME")
  {
  }

  lemma TextsFine()
    ensures forall e | e in Meta() :: IsToken(e.text)
  {
    hide IsToken, DatePattern, TimePattern, WordsPattern, LabelPattern, DigitsPattern, DecimalPattern, AfsPattern;
    BasicTexts();
    SystemTexts();
    TalkgroupTexts();
    OtherTexts();
  }

  lemma SizeFine(k: nat)
    requires k < |Meta()|
    ensures |Meta()[k].text| <= |Meta()[k].pattern| + 2
  {
  }

  lemma MetaFine()
    ensures Fine(Meta())
  {
    hide Meta, IsToken;
    forall k: nat | k < |Meta()| ensures EntryFine(Meta()[k]) {
      PatternsClean();
      TextsFine();
      SizeFine(k);
    }
  }

  // ---- Library searches ----

  /** strings.Index */
  function FirstIndex(s: string, pat: string): (at: int)
    ensures at >= -1
  {
    if pat <= s then 0
    else if s == "" then -1
    else
      var i := FirstIndex(s[1..], pat);
      if i == -1 then -1 else i + 1
  }

  lemma {:induction false} FirstIndexFits(s: string, pat: string)
    ensures FirstIndex(s, pat) == -1 || (0 <= FirstIndex(s, pat) <= |s| - |pat| && pat <= s[FirstIndex(s, pat)..])
  {
    if !(pat <= s) && s != "" {
      FirstIndexFits(s[1..], pat);
    }
  }

  /** The pattern starts nowhere in the text. */
  ghost predicate Quiet(a: string, pat: string) {
    forall p | 0 <= p < |a| :: !(pat <= a[p..])
  }

  lemma {:induction false} FoundNowhere(a: string, pat: string)
    requires pat != ""
    ensures Quiet(a, pat) <==> FirstIndex(a, pat) == -1
  {
    if a != "" {
      assert a[0..] == a;
      FoundNowhere(a[1..], pat);
      assert forall p | 0 <= p < |a| - 1 :: a[1..][p..] == a[p + 1..];
      assert forall p | 0 < p < |a| :: a[1..][p - 1..] == a[p..];
    }
  }

  lemma AroundFirst(s: string, pat: string)
    requires FirstIndex(s, pat) != -1
    ensures var i := FirstIndex(s, pat); i + |pat| <= |s| && s == s[..i] + (pat + s[i + |pat|..])
  {
    FirstIndexFits(s, pat);
    hide FirstIndex;
  }

  lemma {:induction false} FoundFirst(a: string, b: string, pat: string)
    requires FirstIndex(a, pat) != -1
    ensures FirstIndex(a + b, pat) == FirstIndex(a, pat)
  {
    FirstIndexFits(a, pat);
    if !(pat <= a) {
      assert (a + b)[1..] == a[1..] + b;
      FoundFirst(a[1..], b, pat);
    }
  }

  lemma NoCrossing(x: string, b: string, pat: string)
    requires IsToken(pat) && x != "" && (b == "" || b[0] == '#' || b[0] == '(')
    ensures pat <= x + b ==> pat <= x
  {
    if |x| < |pat| {
      assert pat[|x|] == pat[1..][|x| - 1];
    }
  }

  lemma {:induction false} SkipText(a: string, b: string, pat: string)
    requires IsToken(pat) && Quiet(a, pat) && (b == "" || b[0] == '#' || b[0] == '(')
    ensures FirstIndex(a + b, pat) == if FirstIndex(b, pat) == -1 then -1 else |a| + FirstIndex(b, pat)
  {
    if a == "" {
      assert a + b == b;
    } else {
      assert a[0..] == a;
      NoCrossing(a, b, pat);
      assert !(pat <= a[0..]);
      assert (a + b)[1..] == a[1..] + b;
      forall p | 0 <= p < |a[1..]| ensures !(pat <= a[1..][p..]) {
        assert a[1..][p..] == a[p + 1..];
      }
      SkipText(a[1..], b, pat);
    }
  }

  lemma {:induction false} SkipCapture(a: string, b: string, pat: string)
    requires IsToken(pat) && '#' !in a
    ensures FirstIndex(a + b, pat) == if FirstIndex(b, pat) == -1 then -1 else |a| + FirstIndex(b, pat)
  {
    if a == "" {
      assert a + b == b;
    } else {
      assert (a + b)[1..] == a[1..] + b && (a + b)[0] == a[0];
      SkipCapture(a[1..], b, pat);
    }
  }

  // ---- Masks under replacement ----

  /** A capture, and the literal text after it. */
  datatype Segment = Segment(token: nat, after: string)

  /** Literal text, then the captures made so far. */
  datatype Mask = Mask(lead: string, segments: seq<Segment>)

  ghost predicate InTable(t: seq<Entry>, segments: seq<Segment>) {
    forall i | 0 <= i < |segments| :: segments[i].token < |t|
  }

  /** The segment as it stands in the mask now, and as it was written. */
  function Shown(t: seq<Entry>, s: Segment): string
    requires s.token < |t|
  {
    Capture(t[s.token]) + s.after
  }

  function Written(t: seq<Entry>, s: Segment): string
    requires s.token < |t|
  {
    t[s.token].text + s.after
  }

  ghost function ShownAll(t: seq<Entry>, segments: seq<Segment>): string
    requires InTable(t, segments)
  {
    if segments == [] then "" else Shown(t, segments[0]) + ShownAll(t, segments[1..])
  }

  ghost function WrittenAll(t: seq<Entry>, segments: seq<Segment>): string
    requires InTable(t, segments)
  {
    if segments == [] then "" else Written(t, segments[0]) + WrittenAll(t, segments[1..])
  }

  ghost function Render(t: seq<Entry>, m: Mask): string
    requires InTable(t, m.segments)
  {
    m.lead + ShownAll(t, m.segments)
  }

  ghost function Source(t: seq<Entry>, m: Mask): string
    requires InTable(t, m.segments)
  {
    m.lead + WrittenAll(t, m.segments)
  }

  /** strings.Replace of one occurrence, at the place found for it. */
  function ReplaceAt(s: string, i: nat, e: Entry): string
    requires i + |e.text| <= |s|
  {
    s[..i] + Capture(e) + s[i + |e.text|..]
  }

  lemma ReplaceAfter(a: string, b: string, i: nat, e: Entry)
    requires i + |e.text| <= |b|
    ensures ReplaceAt(a + b, |a| + i, e) == a + ReplaceAt(b, i, e)
  {
  }

  lemma ReplaceBefore(a: string, b: string, i: nat, e: Entry)
    requires i + |e.text| <= |a|
    ensures ReplaceAt(a + b, i, e) == a[..i] + (Capture(e) + a[i + |e.text|..] + b)
  {
  }

  /** One turn of the table: the first occurrence of the token in literal text becomes a capture. */
  ghost function Taken(t: seq<Entry>, m: Mask, k: nat): (m': Mask)
    requires k < |t| && InTable(t, m.segments)
    ensures InTable(t, m'.segments)
    decreases |m.segments|
  {
    FirstIndexFits(m.lead, t[k].text);
    var i := FirstIndex(m.lead, t[k].text);
    if i != -1 then Mask(m.lead[..i], [Segment(k, m.lead[i + |t[k].text|..])] + m.segments)
    else if m.segments == [] then m
    else
      var rest := Taken(t, Mask(m.segments[0].after, m.segments[1..]), k);
      Mask(m.lead, [Segment(m.segments[0].token, rest.lead)] + rest.segments)
  }

  lemma StartsCapture(t: seq<Entry>, segments: seq<Segment>)
    requires InTable(t, segments)
    ensures var b := ShownAll(t, segments); b == "" || b[0] == '('
  {
  }

  /** Where the token is found if it is not in the literal text in front. */
  lemma FoundLater(t: seq<Entry>, m: Mask, k: nat)
    requires Fine(t) && k < |t| && InTable(t, m.segments) && FirstIndex(m.lead, t[k].text) == -1
    ensures
      var pat, at := t[k].text, FirstIndex(Render(t, m), t[k].text);
      if m.segments == [] then at == -1
      else
        var s, rest := m.segments[0], Mask(m.segments[0].after, m.segments[1..]);
        var later := FirstIndex(Render(t, rest), pat);
        && Render(t, m) == m.lead + (Capture(t[s.token]) + Render(t, rest))
        && at == if later == -1 then -1 else |m.lead| + |Capture(t[s.token])| + later
  {
    var pat := t[k].text;
    assert EntryFine(t[k]);
    FoundNowhere(m.lead, pat);
    StartsCapture(t, m.segments);
    SkipText(m.lead, ShownAll(t, m.segments), pat);
    if m.segments != [] {
      var s, rest := m.segments[0], Mask(m.segments[0].after, m.segments[1..]);
      assert EntryFine(t[s.token]);
      var c := Capture(t[s.token]);
      assert ShownAll(t, m.segments) == c + Render(t, rest);
      assert '#' !in c;
      hide Capture, Render, ShownAll;
      SkipCapture(c, Render(t, rest), pat);
    }
  }

  /** What one turn does to the text of any mask: the token is found where the capture is made, replaced there and
      nowhere else, or it is found nowhere and nothing changes. */
  lemma {:induction false} OneTurn(t: seq<Entry>, m: Mask, k: nat)
    requires Fine(t) && k < |t| && InTable(t, m.segments)
    ensures
      var s, at, m' := Render(t, m), FirstIndex(Render(t, m), t[k].text), Taken(t, m, k);
      if at == -1 then m' == m
      else at + |t[k].text| <= |s| && Render(t, m') == ReplaceAt(s, at, t[k])
    decreases |m.segments|
  {
    hide Fine, Capture, ReplaceAt;
    if FirstIndex(m.lead, t[k].text) != -1 {
      FrontTurn(t, m, k);
    } else if m.segments == [] {
      assert Render(t, m) == m.lead;
    } else {
      FoundLater(t, m, k);
      OneTurn(t, Mask(m.segments[0].after, m.segments[1..]), k);
      hide Render, Taken, FirstIndex;
      LaterTurn(t, m, k);
    }
  }

  lemma FrontTurn(t: seq<Entry>, m: Mask, k: nat)
    requires k < |t| && InTable(t, m.segments) && FirstIndex(m.lead, t[k].text) != -1
    ensures
      var s, at := Render(t, m), FirstIndex(Render(t, m), t[k].text);
      && at != -1 && at + |t[k].text| <= |s|
      && Render(t, Taken(t, m, k)) == ReplaceAt(s, at, t[k])
  {
    hide *;
    TakenFront(t, m, k);
    var i, m' := FirstIndex(m.lead, t[k].text), Taken(t, m, k);
    RenderSplit(t, m');
    RenderIs(t, m);
    RenderIs(t, Mask(m'.segments[0].after, m.segments));
    ReplaceBefore(m.lead, ShownAll(t, m.segments), i, t[k]);
  }

  lemma RenderIs(t: seq<Entry>, m: Mask)
    requires InTable(t, m.segments)
    ensures Render(t, m) == m.lead + ShownAll(t, m.segments)
  {
  }

  lemma TakenFront(t: seq<Entry>, m: Mask, k: nat)
    requires k < |t| && InTable(t, m.segments) && FirstIndex(m.lead, t[k].text) != -1
    ensures
      var m', i, text := Taken(t, m, k), FirstIndex(m.lead, t[k].text), t[k].text;
      && FirstIndex(Render(t, m), text) == i && i + |text| <= |m.lead|
      && m'.lead == m.lead[..i] && m'.segments != [] && m'.segments[1..] == m.segments
      && m'.segments[0] == Segment(k, m.lead[i + |text|..])
      && m.lead == m.lead[..i] + (text + m.lead[i + |text|..])
  {
    hide FirstIndex, ShownAll, InTable;
    AroundFirst(m.lead, t[k].text);
    FoundFirst(m.lead, ShownAll(t, m.segments), t[k].text);
  }

  lemma LaterTurn(t: seq<Entry>, m: Mask, k: nat)
    requires k < |t| && InTable(t, m.segments) && m.segments != [] && FirstIndex(m.lead, t[k].text) == -1
    requires
      var rest := Mask(m.segments[0].after, m.segments[1..]);
      var text, at := Render(t, rest), FirstIndex(Render(t, rest), t[k].text);
      if at == -1 then Taken(t, rest, k) == rest
      else at + |t[k].text| <= |text| && Render(t, Taken(t, rest, k)) == ReplaceAt(text, at, t[k])
    ensures
      var c, rest := Capture(t[m.segments[0].token]), Mask(m.segments[0].after, m.segments[1..]);
      var at, m' := FirstIndex(Render(t, rest), t[k].text), Taken(t, m, k);
      if at == -1 then m' == m
      else |m.lead| + |c| + at + |t[k].text| <= |Render(t, m)| &&
           Render(t, m') == ReplaceAt(Render(t, m), |m.lead| + |c| + at, t[k])
  {
    hide *;
    TakenBehind(t, m, k);
    var rest := Mask(m.segments[0].after, m.segments[1..]);
    var c, rest', at := Capture(t[m.segments[0].token]), Taken(t, rest, k), FirstIndex(Render(t, rest), t[k].text);
    if at == -1 {
      assert m.segments == [m.segments[0]] + m.segments[1..];
    } else {
      RenderSplit(t, m);
      RenderSplit(t, Taken(t, m, k));
      ReplaceAfter(c, Render(t, rest), at, t[k]);
      ReplaceAfter(m.lead, c + Render(t, rest), |c| + at, t[k]);
    }
  }

  lemma TakenBehind(t: seq<Entry>, m: Mask, k: nat)
    requires k < |t| && InTable(t, m.segments) && m.segments != [] && FirstIndex(m.lead, t[k].text) == -1
    ensures
      var s, rest, m' := m.segments[0], Mask(m.segments[0].after, m.segments[1..]), Taken(t, m, k);
      && s.token < |t| && InTable(t, rest.segments)
      && m'.lead == m.lead && m'.segments != [] && m'.segments[1..] == Taken(t, rest, k).segments
      && m'.segments[0] == Segment(s.token, Taken(t, rest, k).lead)
      && m'.segments == [m'.segments[0]] + m'.segments[1..]
  {
    hide FirstIndex;
  }

  lemma RenderSplit(t: seq<Entry>, m: Mask)
    requires InTable(t, m.segments) && m.segments != []
    ensures
      var s := m.segments[0];
      Render(t, m) == m.lead + (Capture(t[s.token]) + Render(t, Mask(s.after, m.segments[1..])))
  {
    hide Capture;
  }

  lemma SourceSplit(t: seq<Entry>, m: Mask)
    requires InTable(t, m.segments) && m.segments != []
    ensures var s := m.segments[0];
            Source(t, m) == m.lead + (t[s.token].text + Source(t, Mask(s.after, m.segments[1..])))
  {
  }

  /** No turn changes what was written. */
  lemma {:induction false} TurnKeepsSource(t: seq<Entry>, m: Mask, k: nat)
    requires k < |t| && InTable(t, m.segments)
    ensures Source(t, Taken(t, m, k)) == Source(t, m)
    decreases |m.segments|
  {
    if FirstIndex(m.lead, t[k].text) != -1 {
      FrontKeepsSource(t, m, k);
    } else if m.segments != [] {
      hide *;
      TurnKeepsSource(t, Mask(m.segments[0].after, m.segments[1..]), k);
      TakenBehind(t, m, k);
      SourceSplit(t, m);
      SourceSplit(t, Taken(t, m, k));
    }
  }

  lemma FrontKeepsSource(t: seq<Entry>, m: Mask, k: nat)
    requires k < |t| && InTable(t, m.segments) && FirstIndex(m.lead, t[k].text) != -1
    ensures Source(t, Taken(t, m, k)) == Source(t, m)
  {
    hide *;
    TakenFront(t, m, k);
    SourceSplit(t, Taken(t, m, k));
    SourceIs(t, m);
    SourceIs(t, Mask(Taken(t, m, k).segments[0].after, m.segments));
  }

  lemma SourceIs(t: seq<Entry>, m: Mask)
    requires InTable(t, m.segments)
    ensures Source(t, m) == m.lead + WrittenAll(t, m.segments)
  {
  }

  ghost function Tokens(segments: seq<Segment>): set<nat> {
    set s | s in segments :: s.token
  }

  ghost predicate DistinctTokens(segments: seq<Segment>) {
    forall i, j | 0 <= i < j < |segments| :: segments[i].token != segments[j].token
  }

  lemma DistinctHead(s: Segment, rest: seq<Segment>)
    ensures DistinctTokens([s] + rest) <==> s.token !in Tokens(rest) && DistinctTokens(rest)
    ensures Tokens([s] + rest) == {s.token} + Tokens(rest)
  {
    var all := [s] + rest;
    assert forall i | 0 <= i < |rest| :: all[i + 1] == rest[i];
    assert forall i | 0 < i < |all| :: all[i] == rest[i - 1];
    assert all[0] == s;
    assert forall x :: x in all <==> x == s || x in rest;
  }

  lemma {:induction false} TurnTokens(t: seq<Entry>, m: Mask, k: nat)
    requires k < |t| && InTable(t, m.segments) && DistinctTokens(m.segments) && k !in Tokens(m.segments)
    ensures DistinctTokens(Taken(t, m, k).segments)
    ensures Tokens(Taken(t, m, k).segments) == Tokens(m.segments) ||
              Tokens(Taken(t, m, k).segments) == Tokens(m.segments) + {k}
    decreases |m.segments|
  {
    hide DistinctTokens, Tokens;
    var i := FirstIndex(m.lead, t[k].text);
    FirstIndexFits(m.lead, t[k].text);
    if i != -1 {
      DistinctHead(Segment(k, m.lead[i + |t[k].text|..]), m.segments);
    } else if m.segments != [] {
      var s, rest := m.segments[0], Mask(m.segments[0].after, m.segments[1..]);
      assert m.segments == [s] + m.segments[1..];
      DistinctHead(s, m.segments[1..]);
      TurnTokens(t, rest, k);
      var rest' := Taken(t, rest, k);
      DistinctHead(Segment(s.token, rest'.lead), rest'.segments);
    }
  }

  /** The mask after the turns of the first n table entries. */
  ghost function AfterTurns(t: seq<Entry>, text: string, n: nat): (m: Mask)
    requires n <= |t|
    ensures InTable(t, m.segments)
  {
    if n == 0 then Mask(text, []) else Taken(t, AfterTurns(t, text, n - 1), n - 1)
  }

  ghost function Finished(t: seq<Entry>, text: string): (m: Mask)
    ensures InTable(t, m.segments)
  {
    AfterTurns(t, text, |t|)
  }

  lemma {:induction false} TurnsKeep(t: seq<Entry>, text: string, n: nat)
    requires n <= |t|
    ensures Source(t, AfterTurns(t, text, n)) == text
    ensures DistinctTokens(AfterTurns(t, text, n).segments)
    ensures forall k | k in Tokens(AfterTurns(t, text, n).segments) :: k < n
  {
    hide Source, Tokens, DistinctTokens, Taken;
    if n == 0 {
      NoTurnYet(t, text);
    } else {
      var m := AfterTurns(t, text, n - 1);
      assert AfterTurns(t, text, n) == Taken(t, m, n - 1);
      hide *;
      TurnsKeep(t, text, n - 1);
      TurnKeepsSource(t, m, n - 1);
      TurnTokens(t, m, n - 1);
    }
  }

  lemma NoTurnYet(t: seq<Entry>, text: string)
    ensures Source(t, Mask(text, [])) == text && DistinctTokens([]) && Tokens([]) == {}
  {
    assert text + "" == text;
  }

  // ---- Nothing is overlooked ----

  ghost predicate LiteralsQuiet(m: Mask, pat: string) {
    Quiet(m.lead, pat) && forall s | s in m.segments :: Quiet(s.after, pat)
  }

  lemma QuietPart(a: string, i: nat, j: nat, pat: string)
    requires Quiet(a, pat) && i <= j <= |a|
    ensures Quiet(a[i..j], pat)
  {
    forall p | 0 <= p < j - i ensures !(pat <= a[i..j][p..]) {
      assert a[i..j][p..] == a[i + p..][..j - i - p];
    }
  }

  lemma {:induction false} TurnKeepsQuiet(t: seq<Entry>, m: Mask, n: nat, pat: string)
    requires n < |t| && InTable(t, m.segments) && LiteralsQuiet(m, pat)
    ensures LiteralsQuiet(Taken(t, m, n), pat)
    decreases |m.segments|
  {
    hide Quiet;
    var i, size := FirstIndex(m.lead, t[n].text), |t[n].text|;
    FirstIndexFits(m.lead, t[n].text);
    if i != -1 {
      QuietPart(m.lead, 0, i, pat);
      QuietPart(m.lead, i + size, |m.lead|, pat);
      assert m.lead[..i] == m.lead[0..i] && m.lead[i + size..] == m.lead[i + size..|m.lead|];
    } else if m.segments != [] {
      TurnKeepsQuiet(t, Mask(m.segments[0].after, m.segments[1..]), n, pat);
    }
  }

  lemma {:induction false} NotTakenQuiet(t: seq<Entry>, m: Mask, k: nat)
    requires Fine(t) && k < |t| && InTable(t, m.segments)
    ensures k in Tokens(Taken(t, m, k).segments) || (LiteralsQuiet(m, t[k].text) && Taken(t, m, k) == m)
    decreases |m.segments|
  {
    assert EntryFine(t[k]);
    FoundNowhere(m.lead, t[k].text);
    hide Quiet, Fine, Tokens, FirstIndex;
    var m' := Taken(t, m, k);
    if m'.segments != [] { HeadToken(m'.segments); }
    if FirstIndex(m.lead, t[k].text) == -1 && m.segments != [] {
      TakenBehind(t, m, k);
      hide Taken, InTable;
      assert m.segments == [m.segments[0]] + m.segments[1..];
      NotTakenQuiet(t, Mask(m.segments[0].after, m.segments[1..]), k);
    }
  }

  lemma HeadToken(segments: seq<Segment>)
    requires segments != []
    ensures Tokens(segments) == {segments[0].token} + Tokens(segments[1..])
  {
    assert segments == [segments[0]] + segments[1..];
    DistinctHead(segments[0], segments[1..]);
  }

  /** A token that got no capture stands nowhere in the finished mask. */
  lemma {:induction false} NothingOverlooked(t: seq<Entry>, text: string, k: nat, n: nat)
    requires Fine(t) && k < n <= |t|
    ensures k in Tokens(AfterTurns(t, text, n).segments) || LiteralsQuiet(AfterTurns(t, text, n), t[k].text)
  {
    hide LiteralsQuiet, Taken, Fine, Tokens;
    var m := AfterTurns(t, text, n - 1);
    if k == n - 1 {
      NotTakenQuiet(t, m, k);
    } else {
      NothingOverlooked(t, text, k, n - 1);
      TurnsKeep(t, text, n - 1);
      TurnTokens(t, m, n - 1);
      if LiteralsQuiet(m, t[k].text) { TurnKeepsQuiet(t, m, n - 1, t[k].text); }
    }
  }

  // ---- Every mask text reads in one way, and a mask without repetition is taken apart in that way ----

  ghost predicate QuietAll(t: seq<Entry>, a: string) {
    forall e | e in t :: Quiet(a, e.text)
  }

  /** The text is read as this token: no token earlier in the table starts here. */
  ghost predicate ReadsAs(t: seq<Entry>, s: Segment) {
    && s.token < |t|
    && QuietAll(t, s.after)
    && forall k | 0 <= k < s.token :: !(t[k].text <= t[s.token].text + s.after)
  }

  ghost predicate AllRead(t: seq<Entry>, segments: seq<Segment>) {
    InTable(t, segments) && forall s | s in segments :: ReadsAs(t, s)
  }

  ghost function EarliestEntry(t: seq<Entry>, s: string, from: nat): (k: nat)
    requires from <= |t|
    ensures from <= k <= |t|
    ensures k < |t| ==> t[k].text <= s
    ensures forall i | from <= i < k :: !(t[i].text <= s)
    decreases |t| - from
  {
    if from == |t| || t[from].text <= s then from else EarliestEntry(t, s, from + 1)
  }

  /** The mask read left to right, at every place as the earliest table entry that starts there. */
  ghost function ReadMask(t: seq<Entry>, s: string): (m: Mask)
    requires Fine(t)
    ensures InTable(t, m.segments)
    decreases |s|
  {
    var k := EarliestEntry(t, s, 0);
    if s == "" then Mask("", [])
    else if k < |t| then
      assert EntryFine(t[k]);
      var rest := ReadMask(t, s[|t[k].text|..]);
      Mask("", [Segment(k, rest.lead)] + rest.segments)
    else
      var rest := ReadMask(t, s[1..]);
      Mask([s[0]] + rest.lead, rest.segments)
  }

  /** The reading of a text: it gives the text back, and no token is overlooked. */
  ghost predicate Reads(t: seq<Entry>, m: Mask, s: string) {
    InTable(t, m.segments) && Source(t, m) == s && QuietAll(t, m.lead) && AllRead(t, m.segments)
  }

  lemma ReadToken(t: seq<Entry>, s: string, k: nat, rest: Mask)
    requires k < |t| && t[k].text <= s && Reads(t, rest, s[|t[k].text|..])
    requires forall i | 0 <= i < k :: !(t[i].text <= s)
    ensures Reads(t, Mask("", [Segment(k, rest.lead)] + rest.segments), s)
  {
  }

  lemma ReadChar(t: seq<Entry>, s: string, rest: Mask)
    requires s != "" && Reads(t, rest, s[1..]) && (forall i | 0 <= i < |t| :: !(t[i].text <= s))
    ensures Reads(t, Mask([s[0]] + rest.lead, rest.segments), s)
  {
    hide ReadsAs, WrittenAll;
    var lead := [s[0]] + rest.lead;
    assert s == [s[0]] + s[1..];
    assert s == lead + WrittenAll(t, rest.segments);
    forall e, p | e in t && 0 <= p < |lead| ensures !(e.text <= lead[p..]) {
      if p == 0 {
        assert lead[0..] == lead <= s;
      } else {
        assert lead[p..] == rest.lead[p - 1..];
        assert Quiet(rest.lead, e.text);
      }
    }
  }

  /** Every text has a reading. */
  lemma {:induction false} EveryTextReads(t: seq<Entry>, s: string)
    requires Fine(t)
    ensures Reads(t, ReadMask(t, s), s)
    decreases |s|
  {
    var k := EarliestEntry(t, s, 0);
    if s == "" {
    } else if k < |t| {
      assert EntryFine(t[k]);
      var next := s[|t[k].text|..];
      EveryTextReads(t, next);
      ReadToken(t, s, k, ReadMask(t, next));
    } else {
      EveryTextReads(t, s[1..]);
      ReadChar(t, s, ReadMask(t, s[1..]));
    }
  }

  /** The mask in which the tokens before n are captures and the others still text. */
  ghost function Merged(t: seq<Entry>, m: Mask, n: nat): (m': Mask)
    requires InTable(t, m.segments)
    ensures InTable(t, m'.segments)
    decreases |m.segments|
  {
    if m.segments == [] then m
    else
      var s := m.segments[0];
      if s.token < n then
        var rest := Merged(t, Mask(s.after, m.segments[1..]), n);
        Mask(m.lead, [Segment(s.token, rest.lead)] + rest.segments)
      else Merged(t, Mask(m.lead + Written(t, s), m.segments[1..]), n)
  }

  lemma {:induction false} MergedLead(t: seq<Entry>, a: string, m: Mask, n: nat)
    requires InTable(t, m.segments)
    ensures Merged(t, Mask(a + m.lead, m.segments), n) == Mask(a + Merged(t, m, n).lead, Merged(t, m, n).segments)
    decreases |m.segments|
  {
    if m.segments != [] && m.segments[0].token >= n {
      var w := Written(t, m.segments[0]);
      assert a + m.lead + w == a + (m.lead + w);
      MergedLead(t, a, Mask(m.lead + w, m.segments[1..]), n);
    }
  }

  lemma {:induction false} MergedSame(t: seq<Entry>, m: Mask, k: nat)
    requires InTable(t, m.segments) && k !in Tokens(m.segments)
    ensures Merged(t, m, k + 1) == Merged(t, m, k)
    decreases |m.segments|
  {
    if m.segments != [] {
      var s := m.segments[0];
      assert s in m.segments;
      MergedSame(t, Mask(if s.token < k then s.after else m.lead + Written(t, s), m.segments[1..]), k);
    }
  }

  lemma {:induction false} MergedEnds(t: seq<Entry>, m: Mask)
    requires InTable(t, m.segments)
    ensures Merged(t, m, 0) == Mask(Source(t, m), []) && Merged(t, m, |t|) == m
    decreases |m.segments|
  {
    if m.segments != [] {
      var s := m.segments[0];
      assert m.segments == [s] + m.segments[1..];
      MergedEnds(t, Mask(s.after, m.segments[1..]));
      MergedEnds(t, Mask(m.lead + Written(t, s), m.segments[1..]));
      assert Source(t, m) == m.lead + Written(t, s) + WrittenAll(t, m.segments[1..]);
    }
  }

  /** Text in front, and a token read as a later entry, hide no earlier one. */
  lemma LaterTokenQuiet(t: seq<Entry>, a: string, s: Segment, k: nat)
    requires Fine(t) && ReadsAs(t, s) && k < s.token && Quiet(a, t[k].text)
    ensures Quiet(a + Written(t, s), t[k].text)
  {
    assert EntryFine(t[k]) && EntryFine(t[s.token]);
    var pat, head, w := t[k].text, t[s.token].text, Written(t, s);
    forall p | 0 <= p < |a + w| ensures !(pat <= (a + w)[p..]) {
      if p < |a| {
        assert (a + w)[p..] == a[p..] + w;
        NoCrossing(a[p..], w, pat);
      } else if p == |a| {
        assert (a + w)[p..] == w;
      } else if p < |a| + |head| {
        assert (a + w)[p..][0] == head[p - |a|] == head[1..][p - |a| - 1];
      } else {
        assert (a + w)[p..] == s.after[p - |a| - |head|..];
        assert Quiet(s.after, pat);
      }
    }
  }

  lemma TokenInFront(t: seq<Entry>, m: Mask, k: nat, r: Mask)
    requires Fine(t) && k < |t| && InTable(t, r.segments) && Quiet(m.lead, t[k].text)
    requires |r.lead| >= |m.lead| + |t[k].text|
    requires r.lead == m.lead + t[k].text + r.lead[|m.lead| + |t[k].text|..]
    ensures Taken(t, r, k) == Mask(m.lead, [Segment(k, r.lead[|m.lead| + |t[k].text|..])] + r.segments)
  {
    assert EntryFine(t[k]);
    var pat := t[k].text;
    var b := pat + r.lead[|m.lead| + |pat|..];
    assert r.lead == m.lead + b;
    assert pat <= b && FirstIndex(b, pat) == 0;
    SkipText(m.lead, b, pat);
  }

  /** A turn on the reading of a mask without repetition captures exactly the token read there. */
  lemma {:induction false} TurnReads(t: seq<Entry>, m: Mask, k: nat)
    requires Fine(t) && k < |t| && Quiet(m.lead, t[k].text) && AllRead(t, m.segments) && DistinctTokens(m.segments)
    ensures Taken(t, Merged(t, m, k), k) == Merged(t, m, k + 1)
    decreases |m.segments|
  {
    assert EntryFine(t[k]);
    FoundNowhere(m.lead, t[k].text);
    hide Quiet, ReadsAs, DistinctTokens, Tokens, Fine;
    if m.segments != [] {
      var s, rest := m.segments[0], m.segments[1..];
      assert m.segments == [s] + rest;
      DistinctHead(s, rest);
      assert s in m.segments;
      assert Quiet(s.after, t[k].text) by { hide *; assert t[k] in t; AfterQuiet(t, s, k); }
      if s.token < k {
        TurnReads(t, Mask(s.after, rest), k);
        var r := Merged(t, Mask(s.after, rest), k);
        assert Merged(t, m, k).segments[1..] == r.segments;
      } else if s.token == k {
        var r := Merged(t, Mask(s.after, rest), k);
        MergedSame(t, Mask(s.after, rest), k);
        assert m.lead + Written(t, s) == (m.lead + t[k].text) + s.after;
        MergedLead(t, m.lead + t[k].text, Mask(s.after, rest), k);
        TokenInFront(t, m, k, Merged(t, m, k));
      } else {
        LaterTokenQuiet(t, m.lead, s, k);
        TurnReads(t, Mask(m.lead + Written(t, s), rest), k);
      }
    }
  }

  lemma AfterQuiet(t: seq<Entry>, s: Segment, k: nat)
    requires ReadsAs(t, s) && k < |t|
    ensures Quiet(s.after, t[k].text)
  {
    hide Quiet;
  }

  /** A mask in which no token is read twice is taken apart exactly as it reads. */
  lemma ReadingKept(t: seq<Entry>, text: string)
    requires Fine(t) && DistinctTokens(ReadMask(t, text).segments)
    ensures Finished(t, text) == ReadMask(t, text)
  {
    EveryTextReads(t, text);
    MergedEnds(t, ReadMask(t, text));
    hide ReadMask, Merged, Source;
    ReadingReached(t, text, ReadMask(t, text), |t|);
  }

  lemma {:induction false} ReadingReached(t: seq<Entry>, text: string, m: Mask, n: nat)
    requires Fine(t) && n <= |t| && Reads(t, m, text) && DistinctTokens(m.segments)
    ensures AfterTurns(t, text, n) == Merged(t, m, n)
  {
    if n == 0 {
      MergedEnds(t, m);
    } else {
      ReadingReached(t, text, m, n - 1);
      hide Merged, Taken, Fine, AllRead, DistinctTokens, Source, Quiet;
      assert t[n - 1] in t;
      TurnReads(t, m, n - 1);
    }
  }

  // ---- The noted positions ----

  /** A noted token: its table index, and the position noted for it. */
  type Note = Row<()>

  ghost predicate Entries(t: seq<Entry>, tokens: seq<nat>) {
    forall i | 0 <= i < |tokens| :: tokens[i] < |t|
  }

  /** Total growth of those tokens that come before n in the table. */
  ghost function GrowthOf(t: seq<Entry>, tokens: seq<nat>, n: nat): nat
    requires Fine(t) && Entries(t, tokens)
  {
    if tokens == [] then 0
    else
      var k := tokens[|tokens| - 1];
      assert EntryFine(t[k]);
      GrowthOf(t, tokens[..|tokens| - 1], n) + if k < n then Growth(t[k]) else 0
  }

  /** The notes for segments that stand at this place of the mask as written, right of these tokens. */
  ghost function NotesFrom(t: seq<Entry>, segments: seq<Segment>, at: nat, left: seq<nat>): (notes: seq<Note>)
    requires Fine(t) && InTable(t, segments) && Entries(t, left)
    ensures |notes| == |segments| && forall i | 0 <= i < |notes| :: notes[i].id == segments[i].token
  {
    if segments == [] then []
    else
      var s := segments[0];
      [Row(s.token, at + GrowthOf(t, left, s.token), ())] +
      NotesFrom(t, segments[1..], at + |Written(t, s)|, left + [s.token])
  }

  /** The notes of all tokens from left to right. Capture i of the finished mask belongs to the i-th of them. */
  ghost function LeftToRight(t: seq<Entry>, m: Mask): (notes: seq<Note>)
    requires Fine(t) && InTable(t, m.segments)
    ensures |notes| == |m.segments| && forall i | 0 <= i < |notes| :: notes[i].id == m.segments[i].token
  {
    NotesFrom(t, m.segments, |m.lead|, [])
  }

  /** The notes are those there were and this one, in whatever order. */
  ghost predicate Adds(own: seq<Note>, own': seq<Note>, x: Note) {
    multiset(own') == multiset(own) + multiset{x}
  }

  lemma AddsInFront(own: seq<Note>, x: Note)
    ensures Adds(own, [x] + own, x)
  {
  }

  lemma AddsMember(own: seq<Note>, own': seq<Note>)
    ensures forall x, y | Adds(own, own', x) && y in own' :: y == x || y in own
  {
    assert forall y: Note :: (y in own <==> y in multiset(own)) && (y in own' <==> y in multiset(own'));
  }

  lemma AddsBehind(y: Note, own: seq<Note>, own': seq<Note>, x: Note)
    requires Adds(own, own', x)
    ensures Adds([y] + own, [y] + own', x)
  {
  }

  lemma GrowthJoined(t: seq<Entry>, tokens: seq<nat>, k: nat, n: nat)
    requires Fine(t) && Entries(t, tokens) && k < |t|
    ensures GrowthOf(t, tokens + [k], n) == GrowthOf(t, tokens, n) + if k < n then Growth(t[k]) else 0
  {
    assert (tokens + [k])[..|tokens|] == tokens;
  }

  /** Tokens from k on to the left make no difference to notes of tokens before k. */
  lemma {:induction false} SameGrowth(t: seq<Entry>, segments: seq<Segment>, at: nat, left: seq<nat>, left': seq<nat>,
                                      k: nat)
    requires Fine(t) && InTable(t, segments) && Entries(t, left) && Entries(t, left')
    requires forall s | s in segments :: s.token < k
    requires forall n: nat | n < k :: GrowthOf(t, left, n) == GrowthOf(t, left', n)
    ensures NotesFrom(t, segments, at, left) == NotesFrom(t, segments, at, left')
  {
    hide GrowthOf, Fine, Growth, Written;
    if segments != [] {
      var s := segments[0];
      assert s in segments;
      forall n: nat | n < k ensures GrowthOf(t, left + [s.token], n) == GrowthOf(t, left' + [s.token], n) {
        GrowthJoined(t, left, s.token, n);
        GrowthJoined(t, left', s.token, n);
      }
      SameGrowth(t, segments[1..], at + |Written(t, s)|, left + [s.token], left' + [s.token], k);
    }
  }

  /** A turn adds its own note, at the place where the token is found, and leaves all other notes as they are. */
  lemma {:induction false} TurnNotes(t: seq<Entry>, m: Mask, k: nat, at: nat, left: seq<nat>)
    requires Fine(t) && k < |t| && InTable(t, m.segments) && Entries(t, left)
    requires forall s | s in m.segments :: s.token < k
    requires FirstIndex(Render(t, m), t[k].text) != -1
    ensures
      var m', place := Taken(t, m, k), at + GrowthOf(t, left, k) + FirstIndex(Render(t, m), t[k].text);
      Adds(NotesFrom(t, m.segments, at + |m.lead|, left), NotesFrom(t, m'.segments, at + |m'.lead|, left),
           Row(k, place, ()))
    decreases |m.segments|
  {
    hide *;
    if FirstIndex(m.lead, t[k].text) != -1 {
      FrontNote(t, m, k, at, left);
    } else {
      TakenLater(t, m, k);
      var s, rest := m.segments[0], Mask(m.segments[0].after, m.segments[1..]);
      assert s in m.segments;
      NotesTail(t, m.segments, at + |m.lead|, left);
      TurnNotes(t, rest, k, at + |m.lead| + |t[s.token].text|, left + [s.token]);
      LaterNote(t, m, k, at, left);
    }
  }

  lemma LaterNote(t: seq<Entry>, m: Mask, k: nat, at: nat, left: seq<nat>)
    requires Fine(t) && k < |t| && InTable(t, m.segments) && Entries(t, left)
    requires m.segments != [] && m.segments[0].token < k
    requires FirstIndex(m.lead, t[k].text) == -1 && FirstIndex(Render(t, m), t[k].text) != -1
    requires
      var s, rest := m.segments[0], Mask(m.segments[0].after, m.segments[1..]);
      var at', left', rest' := at + |m.lead| + |t[s.token].text|, left + [s.token], Taken(t, rest, k);
      && InTable(t, rest.segments) && Entries(t, left')
      && var place := at' + GrowthOf(t, left', k) + FirstIndex(Render(t, rest), t[k].text);
         && place >= 0
         && Adds(NotesFrom(t, rest.segments, at' + |rest.lead|, left'),
                 NotesFrom(t, rest'.segments, at' + |rest'.lead|, left'), Row(k, place, ()))
    ensures
      var m', place := Taken(t, m, k), at + GrowthOf(t, left, k) + FirstIndex(Render(t, m), t[k].text);
      place >= 0 &&
      Adds(NotesFrom(t, m.segments, at + |m.lead|, left), NotesFrom(t, m'.segments, at + |m'.lead|, left),
           Row(k, place, ()))
  {
    hide *;
    TakenLater(t, m, k);
    var s, rest, m' := m.segments[0], Mask(m.segments[0].after, m.segments[1..]), Taken(t, m, k);
    GrowthJoined(t, left, s.token, k);
    NotesTail(t, m.segments, at + |m.lead|, left);
    NotesTail(t, m'.segments, at + |m.lead|, left);
    WrittenSize(t, s);
    WrittenSize(t, m'.segments[0]);
    var at', left', rest' := at + |m.lead| + |t[s.token].text|, left + [s.token], Taken(t, rest, k);
    AddsBehind(Row(s.token, at + |m.lead| + GrowthOf(t, left, s.token), ()),
               NotesFrom(t, rest.segments, at' + |rest.lead|, left'),
               NotesFrom(t, rest'.segments, at' + |rest'.lead|, left'),
               Row(k, at' + GrowthOf(t, left', k) + FirstIndex(Render(t, rest), t[k].text), ()));
  }

  lemma FrontNote(t: seq<Entry>, m: Mask, k: nat, at: nat, left: seq<nat>)
    requires Fine(t) && k < |t| && InTable(t, m.segments) && Entries(t, left)
    requires forall s | s in m.segments :: s.token < k
    requires FirstIndex(m.lead, t[k].text) != -1
    ensures
      var m', place := Taken(t, m, k), at + GrowthOf(t, left, k) + FirstIndex(Render(t, m), t[k].text);
      place >= 0 &&
      Adds(NotesFrom(t, m.segments, at + |m.lead|, left), NotesFrom(t, m'.segments, at + |m'.lead|, left),
           Row(k, place, ()))
  {
    hide *;
    TakenFront(t, m, k);
    var m' := Taken(t, m, k);
    WrittenSize(t, m'.segments[0]);
    NotesTail(t, m'.segments, at + |m'.lead|, left);
    forall n: nat | n < k ensures GrowthOf(t, left + [k], n) == GrowthOf(t, left, n) {
      GrowthJoined(t, left, k, n);
    }
    SameGrowth(t, m.segments, at + |m.lead|, left + [k], left, k);
    AddsInFront(NotesFrom(t, m.segments, at + |m.lead|, left), NotesFrom(t, m'.segments, at + |m'.lead|, left)[0]);
  }

  lemma TakenLater(t: seq<Entry>, m: Mask, k: nat)
    requires Fine(t) && k < |t| && InTable(t, m.segments) && FirstIndex(m.lead, t[k].text) == -1
    requires FirstIndex(Render(t, m), t[k].text) != -1
    ensures
      m.segments != [] &&
      var s, rest, m' := m.segments[0], Mask(m.segments[0].after, m.segments[1..]), Taken(t, m, k);
      && s.token < |t| && InTable(t, rest.segments)
      && FirstIndex(Render(t, rest), t[k].text) != -1
      && FirstIndex(Render(t, m), t[k].text) ==
         |m.lead| + |t[s.token].text| + Growth(t[s.token]) + FirstIndex(Render(t, rest), t[k].text)
      && m'.lead == m.lead && m'.segments != [] && m'.segments[1..] == Taken(t, rest, k).segments
      && m'.segments[0] == Segment(s.token, Taken(t, rest, k).lead)
  {
    FoundLater(t, m, k);
    hide Render, FirstIndex;
    TakenBehind(t, m, k);
  }

  lemma WrittenSize(t: seq<Entry>, s: Segment)
    requires s.token < |t|
    ensures |Written(t, s)| == |t[s.token].text| + |s.after|
  {
  }

  lemma TokensBefore(t: seq<Entry>, text: string, n: nat)
    requires n <= |t|
    ensures forall s | s in AfterTurns(t, text, n).segments :: s.token < n
  {
    TurnsKeep(t, text, n);
    hide AfterTurns, Source, DistinctTokens, InTable;
    assert forall s | s in AfterTurns(t, text, n).segments :: s.token in Tokens(AfterTurns(t, text, n).segments);
  }

  lemma TakenNote(t: seq<Entry>, m: Mask, k: nat)
    requires Fine(t) && k < |t| && InTable(t, m.segments) && forall s | s in m.segments :: s.token < k
    requires FirstIndex(Render(t, m), t[k].text) != -1
    ensures
      var at := FirstIndex(Render(t, m), t[k].text);
      at >= 0 && Adds(LeftToRight(t, m), LeftToRight(t, Taken(t, m, k)), Row(k, at, ()))
  {
    hide *;
    NoGrowth(t, k);
    TurnNotes(t, m, k, 0, []);
    NotesInFull(t, m);
    NotesInFull(t, Taken(t, m, k));
  }

  lemma NotesInFull(t: seq<Entry>, m: Mask)
    requires Fine(t) && InTable(t, m.segments)
    ensures Entries(t, []) && LeftToRight(t, m) == NotesFrom(t, m.segments, |m.lead|, [])
  {
  }

  lemma NoGrowth(t: seq<Entry>, n: nat)
    requires Fine(t)
    ensures Entries(t, []) && GrowthOf(t, [], n) == 0
  {
  }

  /** What the turns have noted, in whatever order: for every capture the index at which its token was found. */
  lemma TurnNoted(t: seq<Entry>, text: string, k: nat)
    requires Fine(t) && k < |t|
    ensures
      var m, m' := AfterTurns(t, text, k), AfterTurns(t, text, k + 1);
      var at := FirstIndex(Render(t, m), t[k].text);
      if at == -1 then LeftToRight(t, m') == LeftToRight(t, m)
      else at >= 0 && Adds(LeftToRight(t, m), LeftToRight(t, m'), Row(k, at, ()))
  {
    var m := AfterTurns(t, text, k);
    assert AfterTurns(t, text, k + 1) == Taken(t, m, k);
    hide *;
    TokensBefore(t, text, k);
    OneTurn(t, m, k);
    if FirstIndex(Render(t, m), t[k].text) != -1 { TakenNote(t, m, k); }
  }

  /** Where segment i stands among the segments as written. */
  ghost function Start(t: seq<Entry>, segments: seq<Segment>, i: nat): nat
    requires i <= |segments| && InTable(t, segments)
  {
    if i == 0 then 0 else |Written(t, segments[0])| + Start(t, segments[1..], i - 1)
  }

  /** The tokens of the first i segments. */
  ghost function LeftOf(segments: seq<Segment>, i: nat): (tokens: seq<nat>)
    requires i <= |segments|
    ensures |tokens| == i && forall j | 0 <= j < i :: tokens[j] == segments[j].token
  {
    seq(i, j requires 0 <= j < i => segments[j].token)
  }

  lemma {:induction false} NoteAt(t: seq<Entry>, segments: seq<Segment>, at: nat, left: seq<nat>, i: nat)
    requires Fine(t) && InTable(t, segments) && Entries(t, left) && i < |segments|
    ensures Entries(t, left + LeftOf(segments, i))
    ensures NotesFrom(t, segments, at, left)[i].order ==
            at + Start(t, segments, i) + GrowthOf(t, left + LeftOf(segments, i), segments[i].token)
  {
    hide GrowthOf, NotesFrom, Fine, Written, InTable, Entries, LeftOf;
    LeftInTable(t, left, segments, i);
    NotesTail(t, segments, at, left);
    if i == 0 {
      assert left + LeftOf(segments, 0) == left;
    } else {
      LeftStep(left, segments, i);
      NoteAt(t, segments[1..], at + |Written(t, segments[0])|, left + [segments[0].token], i - 1);
    }
  }

  lemma LeftStep(left: seq<nat>, segments: seq<Segment>, i: nat)
    requires 0 < i <= |segments|
    ensures left + [segments[0].token] + LeftOf(segments[1..], i - 1) == left + LeftOf(segments, i)
  {
  }

  lemma NotesTail(t: seq<Entry>, segments: seq<Segment>, at: nat, left: seq<nat>)
    requires Fine(t) && InTable(t, segments) && Entries(t, left) && segments != []
    ensures var s := segments[0];
            && s.token < |t| && InTable(t, segments[1..]) && Entries(t, left + [s.token])
            && NotesFrom(t, segments, at, left) ==
               [Row(s.token, at + GrowthOf(t, left, s.token), ())] +
               NotesFrom(t, segments[1..], at + |Written(t, s)|, left + [s.token])
  {
  }

  lemma LeftInTable(t: seq<Entry>, left: seq<nat>, segments: seq<Segment>, i: nat)
    requires InTable(t, segments) && Entries(t, left) && i <= |segments|
    ensures Entries(t, left + LeftOf(segments, i))
  {
  }

  lemma {:induction false} SegmentAt(t: seq<Entry>, segments: seq<Segment>, i: nat)
    requires i < |segments| && InTable(t, segments)
    ensures var o, s := Start(t, segments, i), WrittenAll(t, segments); o <= |s| && t[segments[i].token].text <= s[o..]
  {
    var a, b := Written(t, segments[0]), WrittenAll(t, segments[1..]);
    if i == 0 {
      assert a + b == t[segments[0].token].text + (segments[0].after + b);
    } else {
      hide Written;
      SegmentAt(t, segments[1..], i - 1);
      var o := Start(t, segments[1..], i - 1);
      assert (a + b)[|a| + o..] == b[o..];
    }
  }

  /** The bookkeeping law, for every mask: the position noted for a token is its index in the mask as written, plus
      the growth of the tokens to its left that come earlier in the table. */
  lemma RecordedLaw(t: seq<Entry>, text: string, i: nat)
    requires Fine(t) && i < |Finished(t, text).segments|
    ensures
      var m := Finished(t, text);
      var k, index := m.segments[i].token, |m.lead| + Start(t, m.segments, i);
      && index <= |text| && t[k].text <= text[index..]
      && Entries(t, LeftOf(m.segments, i))
      && LeftToRight(t, m)[i].id == k
      && LeftToRight(t, m)[i].order == index + GrowthOf(t, LeftOf(m.segments, i), k)
      && LeftToRight(t, m)[i].order == FirstIndex(Render(t, AfterTurns(t, text, k)), t[k].text)
  {
    var m := Finished(t, text);
    assert m == AfterTurns(t, text, |t|);
    hide *;
    TurnsKeep(t, text, |t|);
    NotedAtTurn(t, text, |t|);
    assert LeftToRight(t, m)[i] in LeftToRight(t, m);
    NoteOf(t, m, i);
    StandsWhereWritten(t, m, text, i);
  }

  lemma NoteOf(t: seq<Entry>, m: Mask, i: nat)
    requires Fine(t) && InTable(t, m.segments) && i < |m.segments|
    ensures Entries(t, LeftOf(m.segments, i))
    ensures LeftToRight(t, m)[i].order ==
            |m.lead| + Start(t, m.segments, i) + GrowthOf(t, LeftOf(m.segments, i), m.segments[i].token)
  {
    hide NotesFrom, GrowthOf, LeftOf, Fine, Start;
    NoteAt(t, m.segments, |m.lead|, [], i);
    assert [] + LeftOf(m.segments, i) == LeftOf(m.segments, i);
  }

  lemma StandsWhereWritten(t: seq<Entry>, m: Mask, text: string, i: nat)
    requires InTable(t, m.segments) && i < |m.segments| && Source(t, m) == text
    ensures var k, index := m.segments[i].token, |m.lead| + Start(t, m.segments, i);
            index <= |text| && t[k].text <= text[index..]
  {
    SegmentAt(t, m.segments, i);
    var o := Start(t, m.segments, i);
    assert text[|m.lead| + o..] == WrittenAll(t, m.segments)[o..];
  }

  lemma {:induction false} NotedAtTurn(t: seq<Entry>, text: string, n: nat)
    requires Fine(t) && n <= |t|
    ensures forall x | x in LeftToRight(t, AfterTurns(t, text, n)) ::
              x.id < |t| && x.order == FirstIndex(Render(t, AfterTurns(t, text, x.id)), t[x.id].text)
  {
    hide Render, FirstIndex, Taken, Fine;
    if n > 0 {
      NotedAtTurn(t, text, n - 1);
      TurnNoted(t, text, n - 1);
      hide LeftToRight, AfterTurns;
      AddsMember(LeftToRight(t, AfterTurns(t, text, n - 1)), LeftToRight(t, AfterTurns(t, text, n)));
    }
  }
}
