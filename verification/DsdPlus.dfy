/** Splitting the name of a DSDPlus recording at its underscores, except for those inside brackets. */
module DsdPlus {

  type Byte = b: int | 0 <= b < 256

  const UNDERSCORE: Byte := 0x5F
  const OPEN: Byte := 0x5B
  const CLOSE: Byte := 0x5D

  /** `string(b)` of a byte: the byte is taken for a code point, so one of 128 or more becomes two bytes. */
  function Text(b: Byte): seq<Byte> {
    if b < 0x80 then [b] else [0xC0 + b / 64, 0x80 + b % 64]
  }

  function TextOf(s: seq<Byte>): seq<Byte> {
    if s == [] then [] else TextOf(s[..|s| - 1]) + Text(s[|s| - 1])
  }

  /** The byte at i is read inside brackets: some opening bracket up to i has not been closed up to i. */
  ghost predicate Bracketed(base: seq<Byte>, i: nat)
    requires i < |base|
  {
    exists j | 0 <= j <= i :: base[j] == OPEN && Unclosed(base, j, i)
  }

  predicate Unclosed(base: seq<Byte>, j: nat, i: nat)
    requires i < |base|
  {
    forall k | j < k <= i :: base[k] != CLOSE
  }

  /** An underscore outside brackets. */
  ghost predicate Cut(base: seq<Byte>, i: nat)
    requires i < |base|
  {
    base[i] == UNDERSCORE && !Bracketed(base, i)
  }

  /** The cuts are the underscores outside brackets among the first n bytes, each once, in order. */
  ghost predicate AllCuts(base: seq<Byte>, cuts: seq<nat>, n: nat)
    requires n <= |base|
  {
    && (forall i, j | 0 <= i < j < |cuts| :: cuts[i] < cuts[j])
    && (forall c | c in cuts :: c < n && Cut(base, c))
    && (forall c: nat | c < n && Cut(base, c) :: c in cuts)
  }

  ghost function From(cuts: seq<nat>, k: nat): nat
    requires k <= |cuts|
  {
    if k == 0 then 0 else cuts[k - 1] + 1
  }

  ghost function To(cuts: seq<nat>, k: nat, n: nat): nat
    requires k <= |cuts|
  {
    if k == |cuts| then n else cuts[k]
  }

  /** The pieces are the stretches between the cuts. */
  ghost predicate Between(base: seq<Byte>, meta: seq<seq<Byte>>, cuts: seq<nat>, n: nat) {
    && |meta| == |cuts| + 1
    && forall k | 0 <= k < |meta| ::
         From(cuts, k) <= To(cuts, k, n) <= |base| && meta[k] == TextOf(base[From(cuts, k)..To(cuts, k, n)])
  }

  /** The pieces of a name are the stretches between all its cuts. */
  ghost predicate IsSplit(base: seq<Byte>, meta: seq<seq<Byte>>) {
    exists cuts: seq<nat> :: AllCuts(base, cuts, |base|) && Between(base, meta, cuts, |base|)
  }

  /** The splitting loop, for every name. */
  method Split(base: seq<Byte>) returns (meta: seq<seq<Byte>>)
    ensures IsSplit(base, meta)
  {
    meta := [[]];
    ghost var cuts: seq<nat> := [];
    var lbl := false;
    for i := 0 to |base|
      invariant AllCuts(base, cuts, i) && Between(base, meta, cuts, i)
      invariant lbl <==> i > 0 && Bracketed(base, i - 1)
    {
      hide AllCuts, Between, Bracketed, Text;
      BracketStep(base, i);
      if base[i] == OPEN {
        lbl := true;
      } else if base[i] == CLOSE {
        lbl := false;
      }
      if !lbl && base[i] == UNDERSCORE {
        CutTaken(base, meta, cuts, i);
        cuts := cuts + [i];
        meta := meta + [[]];
      } else {
        ByteKept(base, meta, cuts, i);
        var ptr := |meta| - 1;
        meta := meta[ptr := meta[ptr] + Text(base[i])];
      }
    }
  }

  lemma BracketStep(base: seq<Byte>, i: nat)
    requires i < |base|
    ensures Bracketed(base, i) <==> base[i] == OPEN || (base[i] != CLOSE && i > 0 && Bracketed(base, i - 1))
  {
  }

  lemma CutTaken(base: seq<Byte>, meta: seq<seq<Byte>>, cuts: seq<nat>, i: nat)
    requires i < |base| && AllCuts(base, cuts, i) && Between(base, meta, cuts, i) && Cut(base, i)
    ensures AllCuts(base, cuts + [i], i + 1) && Between(base, meta + [[]], cuts + [i], i + 1)
  {
    hide Cut, TextOf;
    var cuts', meta' := cuts + [i], meta + [[]];
    assert base[i + 1..i + 1] == [] && TextOf([]) == [] by { NoText(); }
    forall k | 0 <= k < |meta'|
      ensures From(cuts', k) <= To(cuts', k, i + 1) <= |base| &&
                meta'[k] == TextOf(base[From(cuts', k)..To(cuts', k, i + 1)])
    {
      if k < |meta| {
        assert From(cuts', k) == From(cuts, k) && To(cuts', k, i + 1) == To(cuts, k, i);
      }
    }
    assert forall x | 0 <= x < |cuts| :: cuts'[x] in cuts;
    assert forall c | c in cuts' :: c in cuts || c == i;
    forall c: nat | c < i + 1 && Cut(base, c) ensures c in cuts' {
      if c < i {
        assert c in cuts;
      } else {
        assert cuts'[|cuts|] == c;
      }
    }
  }

  lemma NoText()
    ensures TextOf([]) == []
  {
  }

  lemma ByteKept(base: seq<Byte>, meta: seq<seq<Byte>>, cuts: seq<nat>, i: nat)
    requires i < |base| && AllCuts(base, cuts, i) && Between(base, meta, cuts, i) && !Cut(base, i)
    ensures AllCuts(base, cuts, i + 1) &&
              Between(base, meta[|meta| - 1 := meta[|meta| - 1] + Text(base[i])], cuts, i + 1)
  {
    hide Cut, TextOf, Text;
    PieceGrows(base, From(cuts, |cuts|), i);
    assert forall k | 0 <= k < |cuts| :: To(cuts, k, i + 1) == To(cuts, k, i);
  }

  lemma PieceGrows(base: seq<Byte>, a: nat, i: nat)
    requires a <= i < |base|
    ensures TextOf(base[a..i + 1]) == TextOf(base[a..i]) + Text(base[i])
  {
    assert base[a..i + 1][..i - a] == base[a..i];
  }

  // ---- Joining the pieces again ----

  function Join(pieces: seq<seq<Byte>>): seq<Byte>
    requires pieces != []
  {
    if |pieces| == 1 then pieces[0] else Join(pieces[..|pieces| - 1]) + [UNDERSCORE] + pieces[|pieces| - 1]
  }

  lemma {:induction false} TextJoined(a: seq<Byte>, b: seq<Byte>)
    ensures TextOf(a + b) == TextOf(a) + TextOf(b)
  {
    if b == [] {
      assert a + b == a;
    } else {
      assert (a + b)[..|a + b| - 1] == a + b[..|b| - 1];
      TextJoined(a, b[..|b| - 1]);
    }
  }

  lemma {:induction false} JoinUpTo(base: seq<Byte>, meta: seq<seq<Byte>>, cuts: seq<nat>, k: nat)
    requires AllCuts(base, cuts, |base|) && Between(base, meta, cuts, |base|) && k < |meta|
    ensures To(cuts, k, |base|) <= |base| && Join(meta[..k + 1]) == TextOf(base[..To(cuts, k, |base|)])
  {
    hide TextOf, Bracketed;
    var end := To(cuts, k, |base|);
    if k == 0 {
      assert meta[..1] == [meta[0]] && base[..end] == base[0..end];
    } else {
      JoinUpTo(base, meta, cuts, k - 1);
      var c := cuts[k - 1];
      assert meta[..k + 1][..k] == meta[..k];
      assert c in cuts && Cut(base, c);
      hide AllCuts, Between;
      TextAround(base, c, end);
    }
  }

  lemma TextAround(base: seq<Byte>, c: nat, end: nat)
    requires c < end <= |base| && base[c] == UNDERSCORE
    ensures TextOf(base[..end]) == TextOf(base[..c]) + [UNDERSCORE] + TextOf(base[c + 1..end])
  {
    assert base[..end] == base[..c + 1] + base[c + 1..end];
    TextJoined(base[..c + 1], base[c + 1..end]);
    assert base[..c + 1][..c] == base[..c];
  }

  /** Nothing is lost: for every name, the pieces joined with underscores give back its text. */
  lemma JoinGivesBack(base: seq<Byte>, meta: seq<seq<Byte>>)
    requires IsSplit(base, meta)
    ensures meta != [] && Join(meta) == TextOf(base)
  {
    var cuts: seq<nat> :| AllCuts(base, cuts, |base|) && Between(base, meta, cuts, |base|);
    hide AllCuts, TextOf;
    JoinUpTo(base, meta, cuts, |cuts|);
    assert meta[..|cuts| + 1] == meta && base[..|base|] == base;
  }

  predicate IsAscii(s: seq<Byte>) {
    forall i | 0 <= i < |s| :: s[i] < 0x80
  }

  lemma {:induction false} TextLength(s: seq<Byte>)
    ensures |TextOf(s)| >= |s|
    ensures |TextOf(s)| == |s| <==> IsAscii(s)
  {
    if s != [] {
      TextLength(s[..|s| - 1]);
      assert IsAscii(s) <==> IsAscii(s[..|s| - 1]) && s[|s| - 1] < 0x80;
    }
  }

  lemma {:induction false} PlainText(s: seq<Byte>)
    requires IsAscii(s)
    ensures TextOf(s) == s
  {
    if s != [] {
      PlainText(s[..|s| - 1]);
      assert s == s[..|s| - 1] + [s[|s| - 1]];
    }
  }

  /** The name itself comes back exactly when all its bytes are ASCII. */
  lemma NameComesBack(base: seq<Byte>, meta: seq<seq<Byte>>)
    requires IsSplit(base, meta)
    ensures meta != [] && (Join(meta) == base <==> IsAscii(base))
  {
    JoinGivesBack(base, meta);
    TextLength(base);
    if IsAscii(base) {
      PlainText(base);
    }
  }

  /** An underscore kept inside a piece was read inside brackets. */
  lemma KeptUnderscores(base: seq<Byte>, meta: seq<seq<Byte>>, cuts: seq<nat>, k: nat, i: nat)
    requires AllCuts(base, cuts, |base|) && Between(base, meta, cuts, |base|) && k < |meta|
    requires From(cuts, k) <= i < To(cuts, k, |base|) && base[i] == UNDERSCORE
    ensures Bracketed(base, i)
  {
    forall j | 0 <= j < |cuts| ensures cuts[j] != i {
      if j < k {
        assert cuts[j] <= cuts[k - 1];
      } else {
        assert cuts[k] <= cuts[j];
      }
    }
    assert i !in cuts && !Cut(base, i);
  }
}
