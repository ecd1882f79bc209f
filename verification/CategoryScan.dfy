/** Reading the status of a label talkgroup by talkgroup. The service asks twice, in ascending order of the systems and
    in list order within one, whether every talkgroup has the flag: a no ends the question, an unknown talkgroup of a
    known system ends it with an exception, and both questions are asked before a status is chosen. Categories says
    outright when that throws and what comes out; here the two are shown to be the same. */
module CategoryScan {
  import opened Feed
  import opened Categories

  datatype Answer = Yes | No | Throws

  function Ask(m: FeedMap, sys: nat, tg: nat, flag: bool): Answer {
    if sys !in m then No else if tg !in m[sys] then Throws else if m[sys][tg] == flag then Yes else No
  }

  function AskTalkgroups(m: FeedMap, sys: nat, row: seq<nat>, flag: bool): Answer {
    if row == [] then Yes
    else if Ask(m, sys, row[0], flag) == Yes then AskTalkgroups(m, sys, row[1..], flag)
    else Ask(m, sys, row[0], flag)
  }

  function AskSystems(m: FeedMap, entry: map<nat, seq<nat>>, keys: seq<nat>, flag: bool): Answer
    requires forall k | k in keys :: k in entry
  {
    if keys == [] then Yes
    else if AskTalkgroups(m, keys[0], entry[keys[0]], flag) == Yes then AskSystems(m, entry, keys[1..], flag)
    else AskTalkgroups(m, keys[0], entry[keys[0]], flag)
  }

  /** The keys of an entry as the service lists them: numbers ascend. */
  predicate Listing(entry: map<nat, seq<nat>>, keys: seq<nat>) {
    (forall k | k in keys :: k in entry) && (forall k | k in entry :: k in keys) &&
      forall i, j | 0 <= i < j < |keys| :: keys[i] < keys[j]
  }

  /** None stands for an exception. */
  function ReadStatus(m: FeedMap, entry: map<nat, seq<nat>>, keys: seq<nat>): Option<Status>
    requires Listing(entry, keys)
  {
    var allOff := AskSystems(m, entry, keys, false);
    var allOn := AskSystems(m, entry, keys, true);
    if allOff == Throws || allOn == Throws then None
    else Some(if allOff == Yes then Off else if allOn == Yes then On else Partial)
  }

  predicate Has(m: FeedMap, sys: nat, tg: nat, flag: bool) {
    Known(m, sys, tg) && m[sys][tg] == flag
  }

  /** The scan of a list stops at the first talkgroup that is not known with the flag, and answers for it. */
  lemma {:induction false} RowAnswer(m: FeedMap, sys: nat, row: seq<nat>, flag: bool) returns (j: nat)
    ensures j <= |row| && forall i | 0 <= i < j :: Has(m, sys, row[i], flag)
    ensures AskTalkgroups(m, sys, row, flag) == if j == |row| then Yes else Ask(m, sys, row[j], flag)
    ensures j < |row| ==> !Has(m, sys, row[j], flag)
  {
    if row != [] && Ask(m, sys, row[0], flag) == Yes {
      var n := RowAnswer(m, sys, row[1..], flag);
      j := n + 1;
      forall i | 0 <= i < j ensures Has(m, sys, row[i], flag) {
        if i > 0 { assert row[i] == row[1..][i - 1]; }
      }
    } else {
      j := 0;
    }
  }

  /** So does the scan of all the systems: the place is a position in one of their lists. */
  lemma {:induction false} KeysAnswer(m: FeedMap, entry: map<nat, seq<nat>>, keys: seq<nat>, flag: bool)
    returns (n: nat, j: nat)
    requires forall k | k in keys :: k in entry
    ensures n <= |keys| && (n < |keys| ==> j < |entry[keys[n]]| && !Has(m, keys[n], entry[keys[n]][j], flag))
    ensures n < |keys| ==> forall i | 0 <= i < j :: Has(m, keys[n], entry[keys[n]][i], flag)
    ensures forall k | 0 <= k < n :: forall i | 0 <= i < |entry[keys[k]]| :: Has(m, keys[k], entry[keys[k]][i], flag)
    ensures AskSystems(m, entry, keys, flag) ==
            if n == |keys| then Yes else Ask(m, keys[n], entry[keys[n]][j], flag)
  {
    n, j := 0, 0;
    if keys != [] {
      j := RowAnswer(m, keys[0], entry[keys[0]], flag);
      if j == |entry[keys[0]]| {
        n, j := KeysAnswer(m, entry, keys[1..], flag);
        assert forall k | 0 <= k < n :: keys[1..][k] == keys[k + 1];
        n := n + 1;
      }
    }
  }

  /** A scan throws exactly when it gets to an unknown talkgroup of a known system, every talkgroup before it having
      the flag; otherwise it says yes exactly when every talkgroup of the entry is known with the flag. */
  lemma AnswerMeans(m: FeedMap, entry: map<nat, seq<nat>>, keys: seq<nat>, flag: bool)
    requires Listing(entry, keys)
    ensures AskSystems(m, entry, keys, flag) == Throws <==>
            exists s | s in entry :: exists j | 0 <= j < |entry[s]| ::
              Missing(m, s, entry[s][j]) && Reached(entry, m, flag, s, j)
    ensures AskSystems(m, entry, keys, flag) == Yes <==>
            forall s | s in entry :: forall t | t in entry[s] :: Has(m, s, t, flag)
  {
    var n, j := KeysAnswer(m, entry, keys, flag);
    if n < |keys| {
      var s := keys[n];
      assert entry[s][j] in entry[s] && !Has(m, s, entry[s][j], flag);
      if Missing(m, s, entry[s][j]) {
        forall s', j' | s' in entry && s' <= s && 0 <= j' < |entry[s']| && (s' < s || j' < j)
          ensures Known(m, s', entry[s'][j']) && m[s'][entry[s'][j']] == flag
        {
          var k :| 0 <= k < |keys| && keys[k] == s';
          assert k <= n;
          assert Has(m, keys[k], entry[keys[k]][j'], flag);
        }
        assert Reached(entry, m, flag, s, j);
      } else {
        forall s', j' | s' in entry && 0 <= j' < |entry[s']| && Missing(m, s', entry[s'][j'])
          ensures !Reached(entry, m, flag, s', j')
        {
          var k :| 0 <= k < |keys| && keys[k] == s';
          assert n <= k;
          assert s <= s';
        }
      }
    } else {
      forall s, i | s in entry && 0 <= i < |entry[s]| ensures Has(m, s, entry[s][i], flag) {
        var k :| 0 <= k < |keys| && keys[k] == s;
        assert Has(m, keys[k], entry[keys[k]][i], flag);
      }
    }
  }

  /** Reading the status of a label throws exactly when EntryThrows says so, and finds StatusOf otherwise. */
  lemma StatusFromScans(m: FeedMap, entry: map<nat, seq<nat>>, keys: seq<nat>)
    requires Listing(entry, keys)
    ensures ReadStatus(m, entry, keys) == if EntryThrows(entry, m) then None else Some(StatusOf(entry, m))
  {
    AnswerMeans(m, entry, keys, false);
    AnswerMeans(m, entry, keys, true);
    if EntryThrows(entry, m) {
      var s :| s in entry && exists j | 0 <= j < |entry[s]| :: ThrowsAt(entry, m, s, j);
      var j :| 0 <= j < |entry[s]| && ThrowsAt(entry, m, s, j);
    } else {
      forall s, j | s in entry && 0 <= j < |entry[s]| && Missing(m, s, entry[s][j])
        ensures !Reached(entry, m, false, s, j) && !Reached(entry, m, true, s, j)
      {
        assert !ThrowsAt(entry, m, s, j);
      }
      if AllOff(entry, m) || AllOn(entry, m) { StatusIsRead(entry, m); }
      assert AskSystems(m, entry, keys, false) == Yes <==> AllOff(entry, m);
      assert AskSystems(m, entry, keys, true) == Yes <==> AllOn(entry, m);
    }
  }
}
