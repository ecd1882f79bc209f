/** The server's copy of a listener's live map: how it is read from a message, and which calls it lets through. */
module LivefeedService {
  import opened Feed
  import P = Population

  /** A decoded message payload. */
  datatype Json = Bool(flag: bool) | Object(members: map<string, Json>) | Other

  // ---- Numbers as object keys ----

  const INT_LIMIT := 0x8000_0000_0000_0000

  predicate AllDigits(s: string) {
    forall i | 0 <= i < |s| :: '0' <= s[i] <= '9'
  }

  predicate IsDigits(s: string) {
    s != "" && AllDigits(s)
  }

  function Value(s: string): nat
    requires AllDigits(s)
  {
    if s == "" then 0 else 10 * Value(s[..|s| - 1]) + (s[|s| - 1] as int - '0' as int)
  }

  /** strconv.Atoi on 64 bits, then the conversion to an unsigned number, which wraps. */
  function IdOf(s: string): Option<nat> {
    if s != "" && s[0] == '-' then
      if IsDigits(s[1..]) && Value(s[1..]) <= INT_LIMIT then
        Some(if Value(s[1..]) == 0 then 0 else 2 * INT_LIMIT - Value(s[1..]))
      else None
    else
      var digits := if s != "" && s[0] == '+' then s[1..] else s;
      if IsDigits(digits) && Value(digits) < INT_LIMIT then Some(Value(digits)) else None
  }

  lemma {:induction false} DecimalDigits(n: nat)
    ensures IsDigits(P.Decimal(n)) && Value(P.Decimal(n)) == n
  {
    if n >= 10 {
      DecimalDigits(n / 10);
      var s := P.Decimal(n);
      assert s[..|s| - 1] == P.Decimal(n / 10);
    } else {
      assert P.Decimal(n)[..0] == "";
    }
  }

  /** Which keys count, and for which id: digits, after a plus or not, stand for their number if it fits 63 bits; after
      a minus for its negative in 64 bits, which as an unsigned number is what is missing to 2 to the 64. */
  lemma KeysMean(digits: string)
    requires IsDigits(digits)
    ensures
      var v := Value(digits);
      && IdOf(digits) == (if v < 0x8000_0000_0000_0000 then Some(v) else None)
      && IdOf("+" + digits) == IdOf(digits)
      && IdOf("-" + digits) == (if v == 0 then Some(0)
                                else if v <= 0x8000_0000_0000_0000 then Some(0x1_0000_0000_0000_0000 - v)
                                else None)
  {
    assert '0' <= digits[0] <= '9';
    hide Value, AllDigits;
    var plus, minus := "+" + digits, "-" + digits;
    assert plus[0] == '+' && plus[1..] == digits && minus[0] == '-' && minus[1..] == digits;
  }

  /** No other text counts. */
  lemma NoOtherKeys(s: string)
    requires IdOf(s).Some?
    ensures IsDigits(s) || (s != "" && (s[0] == '+' || s[0] == '-') && IsDigits(s[1..]))
  {
    hide Value, IsDigits;
  }

  lemma DecimalIsId(n: nat)
    requires n < INT_LIMIT
    ensures IdOf(P.Decimal(n)) == Some(n)
  {
    DecimalDigits(n);
    assert '0' <= P.Decimal(n)[0] <= '9';
  }

  // ---- What a payload says ----

  /** The flag that one entry of the object sets, if it is one that counts. */
  function ReadEntry(o: map<string, Json>, sk: string, tk: string): Option<(nat, nat, bool)> {
    if sk in o && o[sk].Object? && tk in o[sk].members && o[sk].members[tk].Bool? && IdOf(sk).Some? && IdOf(tk).Some?
    then Some((IdOf(sk).value, IdOf(tk).value, o[sk].members[tk].flag))
    else None
  }

  ghost predicate WrittenBy(o: map<string, Json>, done: set<(string, string)>, s: nat, t: nat, b: bool) {
    exists p | p in done :: ReadEntry(o, p.0, p.1) == Some((s, t, b))
  }

  /** The matrix holds what these entries say: every flag comes from one of them, and every one of them shows. */
  ghost predicate MatrixOf(m: FeedMap, o: map<string, Json>, done: set<(string, string)>) {
    && (forall s, t | Known(m, s, t) :: WrittenBy(o, done, s, t, m[s][t]))
    && (forall p | p in done && ReadEntry(o, p.0, p.1).Some? ::
          var e := ReadEntry(o, p.0, p.1).value; Known(m, e.0, e.1))
  }

  ghost function Pairs(o: map<string, Json>): set<(string, string)> {
    set sk, tk | sk in o && o[sk].Object? && tk in o[sk].members :: (sk, tk)
  }

  /** What the server may hold after a message. When several keys name the same id, either of them may win. */
  ghost predicate IsMatrix(m: FeedMap, payload: Option<Json>) {
    if payload.Some? && payload.value.Object? then MatrixOf(m, payload.value.members, Pairs(payload.value.members))
    else m == map[]
  }

  function WithFlag(m: FeedMap, s: nat, t: nat, b: bool): FeedMap {
    m[s := (if s in m then m[s] else map[])[t := b]]
  }

  lemma EntryTaken(m: FeedMap, o: map<string, Json>, done: set<(string, string)>, sk: string, tk: string)
    requires MatrixOf(m, o, done)
    ensures
      var e, done' := ReadEntry(o, sk, tk), done + {(sk, tk)};
      MatrixOf(if e.Some? then WithFlag(m, e.value.0, e.value.1, e.value.2) else m, o, done')
  {
    var e, done' := ReadEntry(o, sk, tk), done + {(sk, tk)};
    var m' := if e.Some? then WithFlag(m, e.value.0, e.value.1, e.value.2) else m;
    hide ReadEntry;
    forall s, t | Known(m', s, t) ensures WrittenBy(o, done', s, t, m'[s][t]) {
      if e.Some? && s == e.value.0 && t == e.value.1 {
        assert (sk, tk) in done';
      } else {
        assert WrittenBy(o, done, s, t, m[s][t]);
        var p :| p in done && ReadEntry(o, p.0, p.1) == Some((s, t, m[s][t]));
        assert p in done';
      }
    }
  }

  // ---- The class ----

  class Livefeed {
    var matrix: FeedMap

    constructor ()
      ensures matrix == map[]
    {
      matrix := map[];
    }

    /** The matrix is cleared and refilled from the payload; anything malformed is passed over. */
    method FromMap(payload: Option<Json>)
      modifies this
      ensures IsMatrix(matrix, payload)
    {
      hide MatrixOf, ReadEntry;
      matrix := map[];
      if payload.Some? && payload.value.Object? {
        var o := payload.value.members;
        ghost var done: set<(string, string)> := {};
        assert MatrixOf(matrix, o, done) by { EmptyMatrix(o); }
        var keys := o.Keys;
        while keys != {}
          invariant keys <= o.Keys && MatrixOf(matrix, o, done)
          invariant done == set p | p in Pairs(o) && p.0 !in keys
          decreases keys
        {
          var sk :| sk in keys;
          if o[sk].Object? {
            var row := o[sk].members;
            var inner := row.Keys;
            ghost var prior := done;
            while inner != {}
              invariant inner <= row.Keys && MatrixOf(matrix, o, done)
              invariant done == prior + set tk | tk in row && tk !in inner :: (sk, tk)
              decreases inner
            {
              var tk :| tk in inner;
              EntryTaken(matrix, o, done, sk, tk);
              WhichEntry(o, sk, tk);
              if row[tk].Bool? && IdOf(sk).Some? && IdOf(tk).Some? {
                matrix := WithFlag(matrix, IdOf(sk).value, IdOf(tk).value, row[tk].flag);
              }
              done := done + {(sk, tk)};
              inner := inner - {tk};
            }
          }
          keys := keys - {sk};
        }
        assert done == Pairs(o);
      }
    }

    /** A call is let through when its own talkgroup or one of its patches is enabled in its system. */
    method IsEnabled(call: Option<Call>) returns (enabled: bool)
      ensures enabled == (call.Some? && IsActive(matrix, call.value))
    {
      if call.None? {
        return false;
      }
      var c := call.value;
      if Flag(matrix, c.system, c.talkgroup) {
        return true;
      }
      for i := 0 to |c.patches|
        invariant forall j | 0 <= j < i :: !Flag(matrix, c.system, c.patches[j])
      {
        if Flag(matrix, c.system, c.patches[i]) {
          return true;
        }
      }
      return false;
    }
  }

  lemma EmptyMatrix(o: map<string, Json>)
    ensures MatrixOf(map[], o, {})
  {
  }

  lemma WhichEntry(o: map<string, Json>, sk: string, tk: string)
    requires sk in o && o[sk].Object? && tk in o[sk].members
    ensures ReadEntry(o, sk, tk) ==
      if o[sk].members[tk].Bool? && IdOf(sk).Some? && IdOf(tk).Some?
      then Some((IdOf(sk).value, IdOf(tk).value, o[sk].members[tk].flag)) else None
  {
  }

  // ---- What the client sends ----

  /** Every id is one the server can read back. */
  ghost predicate Fits(feed: FeedMap) {
    forall s: nat, t: nat | Known(feed, s, t) :: s < INT_LIMIT && t < INT_LIMIT
  }

  ghost function EncodedRow(row: map<nat, bool>): map<string, Json> {
    var keys := set t | t in row :: P.Decimal(t);
    map k | k in keys && IsDigits(k) && Value(k) in row :: Bool(row[Value(k)])
  }

  /** The payload of a live map: an object of objects, keyed by ids in decimal; no payload for no map. */
  ghost function Encoded(feed: Option<FeedMap>): Option<Json> {
    if feed.None? then None
    else
      var keys := set s | s in feed.value :: P.Decimal(s);
      Some(Object(map k | k in keys && IsDigits(k) && Value(k) in feed.value ::
                  Object(EncodedRow(feed.value[Value(k)]))))
  }

  /** The flags a message stands for. */
  ghost function Meant(feed: Option<FeedMap>): FeedMap {
    if feed.Some? then feed.value else map[]
  }

  lemma EncodedEntries(feed: FeedMap, sk: string, tk: string)
    requires Fits(feed)
    ensures
      var e := ReadEntry(Encoded(Some(feed)).value.members, sk, tk);
      e.Some? ==> Known(feed, e.value.0, e.value.1) && feed[e.value.0][e.value.1] == e.value.2
  {
  }

  lemma EncodedShows(feed: FeedMap, s: nat, t: nat)
    requires Fits(feed) && Known(feed, s, t)
    ensures
      var o := Encoded(Some(feed)).value.members;
      (P.Decimal(s), P.Decimal(t)) in Pairs(o) && ReadEntry(o, P.Decimal(s), P.Decimal(t)) == Some((s, t, feed[s][t]))
  {
    hide IdOf, IsDigits, Value, P.Decimal;
    DecimalDigits(s);
    DecimalDigits(t);
    DecimalIsId(s);
    DecimalIsId(t);
  }

  /** The server reads back exactly the flags the client sent. */
  lemma SentFlags(m: FeedMap, feed: Option<FeedMap>, s: nat, t: nat)
    requires IsMatrix(m, Encoded(feed)) && Fits(Meant(feed))
    ensures Known(m, s, t) <==> Known(Meant(feed), s, t)
    ensures Flag(m, s, t) <==> Flag(Meant(feed), s, t)
  {
    if feed.Some? {
      var o := Encoded(feed).value.members;
      hide Encoded, ReadEntry, Pairs, Fits;
      if Known(feed.value, s, t) {
        EncodedShows(feed.value, s, t);
      }
      if Known(m, s, t) {
        assert WrittenBy(o, Pairs(o), s, t, m[s][t]);
        var p :| p in Pairs(o) && ReadEntry(o, p.0, p.1) == Some((s, t, m[s][t]));
        EncodedEntries(feed.value, p.0, p.1);
      }
    }
  }

  /** The two filters agree on every call, patches included; after a stop the server lets nothing through. */
  lemma FiltersAgree(m: FeedMap, feed: Option<FeedMap>, c: Call)
    requires IsMatrix(m, Encoded(feed)) && Fits(Meant(feed))
    ensures IsActive(m, c) <==> IsActive(Meant(feed), c)
    ensures feed.None? ==> !IsActive(m, c)
  {
    hide IsMatrix, Encoded, Flag, Known;
    SentFlags(m, feed, c.system, c.talkgroup);
    forall p | p in c.patches ensures Flag(m, c.system, p) <==> Flag(Meant(feed), c.system, p) {
      SentFlags(m, feed, c.system, p);
    }
    NothingInNoMap(c);
  }

  lemma NothingInNoMap(c: Call)
    ensures !IsActive(map[], c)
  {
  }
}
