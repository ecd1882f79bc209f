/** Rows that belong to a system (its talkgroups, its units): how a list of them is written to a table and
    read back. The table has one row per system id and row id. */
module Rows {

  datatype Row<+V> = Row(id: nat, order: nat, fields: V)

  type Table<V> = map<(nat, nat), Row<V>>

  ghost predicate Keyed<V>(t: Table<V>) {
    forall k | k in t :: t[k].id == k.1
  }

  ghost predicate DistinctIds<V>(s: seq<Row<V>>) {
    forall i, j | 0 <= i < j < |s| :: s[i].id != s[j].id
  }

  ghost predicate HasId<V>(s: seq<Row<V>>, id: nat) {
    exists r | r in s :: r.id == id
  }

  ghost predicate SortedRows<V>(s: seq<Row<V>>) {
    forall i, j | 0 <= i < j < |s| :: s[i].order <= s[j].order
  }

  // ---- Writing ----

  /** Rows of the system that the list no longer has are deleted. */
  ghost function RowsPruned<V>(list: seq<Row<V>>, sys: nat, t: Table<V>): Table<V> {
    map k | k in t && (k.0 != sys || HasId(list, k.1)) :: t[k]
  }

  ghost function RowsUpserted<V>(list: seq<Row<V>>, sys: nat, t: Table<V>): Table<V> {
    if list == [] then t else RowsUpserted(list[1..], sys, t[(sys, list[0].id) := list[0]])
  }

  ghost function RowsWritten<V>(list: seq<Row<V>>, sys: nat, t: Table<V>): Table<V> {
    RowsUpserted(list, sys, RowsPruned(list, sys, t))
  }

  method PruneRows<V>(list: seq<Row<V>>, sys: nat, t: Table<V>) returns (t': Table<V>)
    ensures t' == RowsPruned(list, sys, t)
  {
    var ids: set<nat> := {};
    var rest := set k | k in t && k.0 == sys;
    while rest != {}
      invariant rest <= set k | k in t && k.0 == sys
      invariant forall k | k in t && k.0 == sys && k !in rest :: k.1 in ids <==> !HasId(list, k.1)
      invariant forall i | i in ids :: (sys, i) in t && !HasId(list, i)
      decreases rest
    {
      var k :| k in rest;
      var remove := true;
      var i := 0;
      while i < |list| && remove
        invariant 0 <= i <= |list|
        invariant remove ==> forall r | r in list[..i] :: r.id != k.1
        invariant !remove ==> HasId(list, k.1)
        decreases |list| - i, if remove then 1 else 0
      {
        if list[i].id == k.1 {
          remove := false;
        }
        i := i + 1;
      }
      assert list[..|list|] == list;
      if remove {
        ids := ids + {k.1};
      }
      rest := rest - {k};
    }
    t' := map k | k in t && !(k.0 == sys && k.1 in ids) :: t[k];
  }

  method WriteRows<V>(list: seq<Row<V>>, sys: nat, t: Table<V>) returns (t': Table<V>)
    ensures t' == RowsWritten(list, sys, t)
  {
    t' := PruneRows(list, sys, t);
    var i := 0;
    while i < |list|
      invariant 0 <= i <= |list|
      invariant RowsUpserted(list[i..], sys, t') == RowsWritten(list, sys, t)
    {
      assert list[i..][1..] == list[i + 1..];
      t' := t'[(sys, list[i].id) := list[i]];
      i := i + 1;
    }
  }

  lemma {:induction false} UpsertedRows<V>(list: seq<Row<V>>, sys: nat, t: Table<V>)
    requires DistinctIds(list) && Keyed(t)
    ensures
      var t' := RowsUpserted(list, sys, t);
      && Keyed(t')
      && (forall k :: k in t' <==> k in t || (k.0 == sys && HasId(list, k.1)))
      && (forall r | r in list :: (sys, r.id) in t' && t'[(sys, r.id)] == r)
      && (forall k | k in t && !(k.0 == sys && HasId(list, k.1)) :: t'[k] == t[k])
  {
    if list != [] {
      var rest := list[1..];
      assert list == [list[0]] + rest;
      assert !HasId(rest, list[0].id);
      UpsertedRows(rest, sys, t[(sys, list[0].id) := list[0]]);
      forall id ensures HasId(list, id) <==> id == list[0].id || HasId(rest, id) {
      }
    }
  }

  /** A write leaves exactly the listed rows for its own system and every other system's rows unchanged. */
  lemma WrittenRows<V>(list: seq<Row<V>>, sys: nat, t: Table<V>)
    requires DistinctIds(list) && Keyed(t)
    ensures
      var t' := RowsWritten(list, sys, t);
      && Keyed(t')
      && (forall id: nat :: (sys, id) in t' <==> HasId(list, id))
      && (forall r | r in list :: (sys, r.id) in t' && t'[(sys, r.id)] == r)
      && (forall k: (nat, nat) | k.0 != sys :: (k in t' <==> k in t) && (k in t ==> t'[k] == t[k]))
  {
    UpsertedRows(list, sys, RowsPruned(list, sys, t));
  }

  // ---- Reading ----

  /** What a query for one system may return: its rows decoded, in any order that the final sort allows. */
  ghost predicate IsRowReading<V>(out: seq<Row<V>>, sys: nat, t: Table<V>, decode: V -> V) {
    && SortedRows(out) && DistinctIds(out)
    && (forall r | r in out :: (sys, r.id) in t && r == t[(sys, r.id)].(fields := decode(t[(sys, r.id)].fields)))
    && (forall k | k in t && k.0 == sys :: HasId(out, k.1))
  }

  // ---- Sorting by insertion ----

  function InsertedAt<T>(s: seq<T>, k: nat, x: T): seq<T>
    requires k <= |s|
  {
    s[..k] + [x] + s[k..]
  }

  lemma InsertedMembers<T>(s: seq<T>, k: nat, x: T)
    requires k <= |s|
    ensures forall y :: y in InsertedAt(s, k, x) <==> y in s || y == x
  {
  }

  lemma InsertedSorted<V>(s: seq<Row<V>>, i: nat, r: Row<V>)
    requires SortedRows(s) && i <= |s|
    requires i > 0 ==> s[i - 1].order <= r.order
    requires forall j | i <= j < |s| :: r.order <= s[j].order
    ensures SortedRows(s[..i] + [r] + s[i..])
  {
  }

  lemma InsertedCounts<V>(s: seq<Row<V>>, i: nat, r: Row<V>)
    requires i <= |s|
    ensures multiset(s[..i] + [r] + s[i..]) == multiset(s) + multiset{r}
  {
    assert s == s[..i] + s[i..];
  }

  /** One row goes into its place in a sorted list. */
  method InsertByOrder<V>(s: seq<Row<V>>, r: Row<V>) returns (out: seq<Row<V>>)
    requires SortedRows(s)
    ensures SortedRows(out) && multiset(out) == multiset(s) + multiset{r}
  {
    var i := |s|;
    while i > 0 && r.order < s[i - 1].order
      invariant 0 <= i <= |s|
      invariant forall j | i <= j < |s| :: r.order <= s[j].order
    {
      i := i - 1;
    }
    out := s[..i] + [r] + s[i..];
    InsertedSorted(s, i, r);
    InsertedCounts(s, i, r);
  }

  lemma MembersOf<V>(s: seq<Row<V>>, out: seq<Row<V>>, r: Row<V>)
    requires multiset(out) == multiset(s) + multiset{r}
    ensures forall x :: x in out <==> x in s || x == r
    ensures forall id :: HasId(out, id) <==> HasId(s, id) || id == r.id
  {
    forall x ensures x in out <==> x in s || x == r {
      assert x in multiset(out) <==> x in multiset(s) || x == r;
    }
  }

  lemma {:induction false} CountOf<V>(s: seq<Row<V>>, x: Row<V>)
    requires DistinctIds(s)
    ensures multiset(s)[x] == if x in s then 1 else 0
  {
    if s != [] {
      assert s == [s[0]] + s[1..];
      CountOf(s[1..], x);
    }
  }

  lemma {:induction false} DistinctFromCounts<V>(s: seq<Row<V>>)
    requires forall x | x in s :: multiset(s)[x] == 1
    requires forall x, y | x in s && y in s && x.id == y.id :: x == y
    ensures DistinctIds(s)
  {
    forall i, j | 0 <= i < j < |s| ensures s[i].id != s[j].id {
      var a, b := s[..j], s[j..];
      assert s == a + b && s[i] in a && s[j] in b;
      assert multiset(s) == multiset(a) + multiset(b);
    }
  }

  lemma InsertedDistinct<V>(s: seq<Row<V>>, out: seq<Row<V>>, r: Row<V>)
    requires DistinctIds(s) && !HasId(s, r.id) && multiset(out) == multiset(s) + multiset{r}
    ensures DistinctIds(out)
  {
    MembersOf(s, out, r);
    forall x | x in out ensures multiset(out)[x] == 1 {
      CountOf(s, x);
    }
    DistinctFromCounts(out);
  }

  method ReadRows<V>(sys: nat, t: Table<V>, decode: V -> V) returns (out: seq<Row<V>>)
    requires Keyed(t)
    ensures IsRowReading(out, sys, t, decode)
  {
    out := [];
    var rest := set k | k in t && k.0 == sys;
    while rest != {}
      invariant rest <= set k | k in t && k.0 == sys
      invariant SortedRows(out) && DistinctIds(out)
      invariant forall r | r in out :: (sys, r.id) in t && (sys, r.id) !in rest &&
                  r == t[(sys, r.id)].(fields := decode(t[(sys, r.id)].fields))
      invariant forall k | k in t && k.0 == sys && k !in rest :: HasId(out, k.1)
      decreases rest
    {
      var k :| k in rest;
      var r := t[k].(fields := decode(t[k].fields));
      var next := InsertByOrder(out, r);
      MembersOf(out, next, r);
      InsertedDistinct(out, next, r);
      rest := rest - {k};
      out := next;
    }
  }

  // ---- Round trip ----

  lemma SamePermutation<V>(a: seq<Row<V>>, b: seq<Row<V>>)
    requires DistinctIds(a) && DistinctIds(b) && forall x :: x in a <==> x in b
    ensures multiset(a) == multiset(b)
  {
    forall x ensures multiset(a)[x] == multiset(b)[x] {
      CountOf(a, x);
      CountOf(b, x);
    }
  }

  /** Rows that decoding leaves alone come back as a permutation of the list, sorted by order. */
  lemma ReadBack<V>(list: seq<Row<V>>, out: seq<Row<V>>, sys: nat, t: Table<V>, decode: V -> V)
    requires DistinctIds(list) && forall r | r in list :: decode(r.fields) == r.fields
    requires forall id: nat :: (sys, id) in t <==> HasId(list, id)
    requires forall r | r in list :: (sys, r.id) in t && t[(sys, r.id)] == r
    requires IsRowReading(out, sys, t, decode)
    ensures multiset(out) == multiset(list) && SortedRows(out)
  {
    forall x ensures x in out <==> x in list {
      if x in list {
        assert (sys, x.id) in t;
        assert HasId(out, x.id);
        var y :| y in out && y.id == x.id;
        assert y == x;
      }
      if x in out {
        assert HasId(list, x.id);
        var y :| y in list && y.id == x.id;
        assert y == x;
      }
    }
    SamePermutation(out, list);
  }
}
