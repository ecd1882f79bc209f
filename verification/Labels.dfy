/** Groups and tags: a list of labels in memory, kept in a table of its own. Groups and tags behave alike
    except that reading groups skips rows with an empty label. */
module Labels {
  import opened Feed

  /** A label not yet stored has no id. */
  datatype Label = Label(id: Option<nat>, text: string)

  /** Rows by id, and the id the next insertion without one receives. */
  datatype LabelTable = LabelTable(rows: map<nat, string>, next: nat)

  predicate TableFine(t: LabelTable) {
    t.next > 0 && forall i | i in t.rows :: 0 < i < t.next
  }

  /** No two rows have this text. */
  predicate StoredOnce(t: LabelTable, text: string) {
    forall i, j | i in t.rows && j in t.rows && t.rows[i] == text && t.rows[j] == text :: i == j
  }

  /** No text that was in one row at most is in two. */
  ghost predicate KeepsOnce(t: LabelTable, t': LabelTable) {
    forall text: string | StoredOnce(t, text) :: StoredOnce(t', text)
  }

  lemma SameKeepsOnce(t: LabelTable)
    ensures KeepsOnce(t, t)
  {
  }

  lemma NewTextKeepsOnce(t: LabelTable, text: string)
    requires forall i | i in t.rows :: t.rows[i] != text
    ensures KeepsOnce(t, LabelTable(t.rows[t.next := text], t.next + 1))
  {
  }

  // ---- Lookup ----

  function FindText(list: seq<Label>, text: string): Option<Label> {
    if list == [] then None
    else if list[0].text == text then Some(list[0])
    else FindText(list[1..], text)
  }

  function FindId(list: seq<Label>, id: nat): Option<Label> {
    if list == [] then None
    else if list[0].id == Some(id) then Some(list[0])
    else FindId(list[1..], id)
  }

  lemma {:induction false} FoundText(list: seq<Label>, text: string)
    ensures FindText(list, text).None? <==> forall l | l in list :: l.text != text
    ensures FindText(list, text).Some? ==> FindText(list, text).value in list && FindText(list, text).value.text == text
  {
    if list != [] {
      assert list == [list[0]] + list[1..];
      FoundText(list[1..], text);
    }
  }

  lemma {:induction false} FoundId(list: seq<Label>, id: nat)
    ensures FindId(list, id).None? <==> forall l | l in list :: l.id != Some(id)
    ensures FindId(list, id).Some? ==> FindId(list, id).value in list && FindId(list, id).value.id == Some(id)
  {
    if list != [] {
      assert list == [list[0]] + list[1..];
      FoundId(list[1..], id);
    }
  }

  // ---- Writing ----

  predicate Unstored(list: seq<Label>) {
    exists l | l in list :: l.id.None?
  }

  predicate Lists(list: seq<Label>, id: nat) {
    exists l | l in list :: l.id == Some(id)
  }

  /** Rows no longer listed are deleted, unless some listed label has no id: then nothing is. */
  function Pruned(list: seq<Label>, t: LabelTable): LabelTable {
    t.(rows := map i | i in t.rows && (Unstored(list) || Lists(list, i)) :: t.rows[i])
  }

  function Upserted(l: Label, t: LabelTable): LabelTable {
    match l.id
    case None => LabelTable(t.rows[t.next := l.text], t.next + 1)
    case Some(i) => LabelTable(t.rows[i := l.text], if i in t.rows || i < t.next then t.next else i + 1)
  }

  function UpsertedAll(list: seq<Label>, t: LabelTable): LabelTable {
    if list == [] then t else UpsertedAll(list[1..], Upserted(list[0], t))
  }

  function Written(list: seq<Label>, t: LabelTable): LabelTable {
    UpsertedAll(list, Pruned(list, t))
  }

  /** The scan with its early exit: a row stays when it meets an unstored label or its own. */
  method ShouldRemove(list: seq<Label>, rowId: nat) returns (remove: bool)
    ensures remove <==> !Unstored(list) && !Lists(list, rowId)
  {
    remove := true;
    for i := 0 to |list|
      invariant remove
      invariant forall l | l in list[..i] :: l.id.Some? && l.id != Some(rowId)
    {
      if list[i].id.None? || list[i].id == Some(rowId) {
        return false;
      }
    }
    assert list[..|list|] == list;
  }

  method Write(list: seq<Label>, t: LabelTable) returns (t': LabelTable)
    ensures t' == Written(list, t)
  {
    var rowIds: set<nat> := {};
    var rest := t.rows.Keys;
    while rest != {}
      invariant rest <= t.rows.Keys
      invariant forall i | i in t.rows && i !in rest :: i in rowIds <==> !Unstored(list) && !Lists(list, i)
      invariant rowIds <= t.rows.Keys - rest
      decreases rest
    {
      var i :| i in rest;
      var remove := ShouldRemove(list, i);
      if remove {
        rowIds := rowIds + {i};
      }
      rest := rest - {i};
    }
    t' := t.(rows := map i | i in t.rows && i !in rowIds :: t.rows[i]);
    assert t' == Pruned(list, t);
    for i := 0 to |list|
      invariant UpsertedAll(list[i..], t') == Written(list, t)
    {
      assert list[i..][1..] == list[i + 1..];
      t' := Upserted(list[i], t');
    }
  }

  // ---- Reading ----

  /** What a query may return, in any order. */
  ghost predicate IsReading(list: seq<Label>, t: LabelTable, skipEmpty: bool) {
    && (forall i, j | 0 <= i < j < |list| :: list[i].id != list[j].id)
    && (forall l | l in list ::
          l.id.Some? && l.id.value in t.rows && l.text == t.rows[l.id.value] && (skipEmpty ==> l.text != ""))
    && (forall i | i in t.rows && (skipEmpty ==> t.rows[i] != "") :: Label(Some(i), t.rows[i]) in list)
  }

  method Read(t: LabelTable, skipEmpty: bool) returns (list: seq<Label>)
    requires TableFine(t)
    ensures IsReading(list, t, skipEmpty)
  {
    list := [];
    var rest := t.rows.Keys;
    while rest != {}
      invariant rest <= t.rows.Keys
      invariant forall i, j | 0 <= i < j < |list| :: list[i].id != list[j].id
      invariant forall l | l in list :: l.id.Some? && l.id.value in t.rows && l.id.value !in rest &&
                  l.text == t.rows[l.id.value] && (skipEmpty ==> l.text != "")
      invariant forall i | i in t.rows && i !in rest && (skipEmpty ==> t.rows[i] != "") ::
                  Label(Some(i), t.rows[i]) in list
      decreases rest
    {
      var i :| i in rest;
      rest := rest - {i};
      if !(skipEmpty && t.rows[i] == "") {
        list := list + [Label(Some(i), t.rows[i])];
      }
    }
  }

  // ---- What a write then a read does ----

  lemma {:induction false} UpsertStored(list: seq<Label>, t: LabelTable)
    requires TableFine(t)
    requires forall l | l in list :: l.id.Some? && l.id.value in t.rows && t.rows[l.id.value] == l.text
    ensures UpsertedAll(list, t) == t
  {
    if list != [] {
      assert list == [list[0]] + list[1..];
      assert t.rows[list[0].id.value := list[0].text] == t.rows;
      UpsertStored(list[1..], t);
    }
  }

  lemma {:induction false} UpsertedConcat(a: seq<Label>, b: seq<Label>, t: LabelTable)
    ensures UpsertedAll(a + b, t) == UpsertedAll(b, UpsertedAll(a, t))
  {
    if a == [] {
      assert a + b == b;
    } else {
      assert (a + b)[1..] == a[1..] + b;
      UpsertedConcat(a[1..], b, Upserted(a[0], t));
    }
  }

  /** Adding one label to a list just read inserts one row under a fresh id and changes no other row. */
  lemma AddOne(list: seq<Label>, t: LabelTable, skipEmpty: bool, text: string)
    requires TableFine(t) && IsReading(list, t, skipEmpty)
    ensures
      var t' := Written(list + [Label(None, text)], t);
      t' == LabelTable(t.rows[t.next := text], t.next + 1) && TableFine(t') && t.next !in t.rows
  {
    var longer := list + [Label(None, text)];
    assert longer[|list|] in longer;
    assert Pruned(longer, t).rows == t.rows;
    UpsertStored(list, t);
    UpsertedConcat(list, [Label(None, text)], t);
    var last := [Label(None, text)];
    assert UpsertedAll(last[1..], Upserted(last[0], t)) == Upserted(last[0], t);
  }

  /** A text that memory does not hold is in no row either, unless it is the empty one that reading skips. */
  lemma NotStored(list: seq<Label>, t: LabelTable, skipEmpty: bool, text: string)
    requires IsReading(list, t, skipEmpty) && !(exists l | l in list :: l.text == text)
    ensures !(skipEmpty && text == "") ==> KeepsOnce(t, LabelTable(t.rows[t.next := text], t.next + 1))
  {
    if !(skipEmpty && text == "") {
      forall i | i in t.rows ensures t.rows[i] != text {
        assert (skipEmpty && t.rows[i] == "") || Label(Some(i), t.rows[i]) in list;
      }
      NewTextKeepsOnce(t, text);
    }
  }

  /** Once stored under a fresh id, the text is found under that id. */
  lemma FoundWhereStored(list: seq<Label>, list': seq<Label>, t: LabelTable, skipEmpty: bool, text: string)
    requires TableFine(t) && IsReading(list, t, skipEmpty) && !(exists l | l in list :: l.text == text)
    requires IsReading(list', LabelTable(t.rows[t.next := text], t.next + 1), skipEmpty)
    ensures if skipEmpty && text == "" then FindText(list', text).None?
            else FindText(list', text).Some? && FindText(list', text).value.id == Some(t.next)
  {
    FoundText(list', text);
    if !(skipEmpty && text == "") {
      assert Label(Some(t.next), text) in list';
      forall i | i in t.rows ensures t.rows[i] != text {
        assert (skipEmpty && t.rows[i] == "") || Label(Some(i), t.rows[i]) in list;
      }
    }
  }

  // ---- What a write leaves, and what reading it gives ----

  predicate GivenDistinct(list: seq<Label>) {
    forall i, j | 0 <= i < j < |list| && list[i].id.Some? :: list[i].id != list[j].id
  }

  predicate Named(list: seq<Label>, id: nat) {
    exists l | l in list :: l.id == Some(id)
  }

  predicate BringsText(list: seq<Label>, text: string) {
    exists l | l in list :: l.id == None && l.text == text
  }

  /** Stored labels under their own ids, unstored ones under ids handed out from `first` on, all else as in `was`. */
  ghost predicate Holds(r: map<nat, string>, list: seq<Label>, was: map<nat, string>, first: nat) {
    && (forall l | l in list && l.id.Some? :: l.id.value in r && r[l.id.value] == l.text)
    && (forall i | i in was && !Named(list, i) :: i in r && r[i] == was[i])
    && (forall i | i in r && i !in was && !Named(list, i) :: i >= first && BringsText(list, r[i]))
    && (forall l | l in list && l.id == None :: exists i | i in r :: i >= first && r[i] == l.text)
  }

  lemma {:induction false} UpsertedHolds(list: seq<Label>, t: LabelTable, first: nat)
    requires GivenDistinct(list) && first <= t.next && forall i | i in t.rows :: i < t.next
    requires forall l | l in list && l.id.Some? :: l.id.value < first
    ensures Holds(UpsertedAll(list, t).rows, list, t.rows, first)
  {
    if list != [] {
      var l, rest, t1 := list[0], list[1..], Upserted(list[0], t);
      assert list == [l] + rest;
      DistinctTail(l, rest);
      UpsertedHolds(rest, t1, first);
      var r := UpsertedAll(rest, t1).rows;
      HoldsOneMore(l, rest, t, r, first);
    }
  }

  lemma HoldsOneMore(l: Label, rest: seq<Label>, t: LabelTable, r: map<nat, string>, first: nat)
    requires GivenDistinct([l] + rest) && first <= t.next && forall i | i in t.rows :: i < t.next
    requires forall x | x in rest && x.id.Some? :: x.id.value < first
    requires Holds(r, rest, Upserted(l, t).rows, first)
    ensures Holds(r, [l] + rest, t.rows, first)
  {
    hide Holds, GivenDistinct;
    DistinctTail(l, rest);
    var n := if l.id.Some? then l.id.value else t.next;
    NotNamed(l, rest, n);
    assert Upserted(l, t).rows == t.rows[n := l.text];
    HoldsWith(l, rest, t.rows, r, first, n);
  }

  lemma DistinctTail(l: Label, rest: seq<Label>)
    requires GivenDistinct([l] + rest)
    ensures GivenDistinct(rest) && forall x | x in rest && l.id.Some? :: x.id != l.id
  {
    var list := [l] + rest;
    assert forall i | 0 <= i < |rest| :: list[i + 1] == rest[i];
    forall x | x in rest && l.id.Some? ensures x.id != l.id {
      var i :| 0 <= i < |rest| && rest[i] == x;
      assert list[0] == l && list[i + 1] == x;
    }
  }

  lemma HoldsWith(l: Label, rest: seq<Label>, was: map<nat, string>, r: map<nat, string>, first: nat, n: nat)
    requires Holds(r, rest, was[n := l.text], first) && !Named(rest, n)
    requires if l.id.Some? then n == l.id.value else n >= first && n !in was
    ensures Holds(r, [l] + rest, was, first)
  {
    var list := [l] + rest;
    FirstAndRest(l, rest);
    hide Named, BringsText;
    assert r[n] == l.text;
    forall i | i in r && i !in was && !Named(list, i) ensures i >= first && BringsText(list, r[i]) {
      assert i != n ==> BringsText(rest, r[i]);
    }
  }

  lemma FirstAndRest(l: Label, rest: seq<Label>)
    ensures forall x :: x in [l] + rest <==> x == l || x in rest
    ensures forall i: nat :: Named([l] + rest, i) <==> l.id == Some(i) || Named(rest, i)
    ensures forall text :: BringsText([l] + rest, text) <==> (l.id == None && l.text == text) || BringsText(rest, text)
  {
  }

  lemma NotNamed(l: Label, rest: seq<Label>, n: nat)
    requires forall x | x in rest && l.id.Some? :: x.id != l.id
    requires if l.id.Some? then l.id == Some(n) else forall x | x in rest && x.id.Some? :: x.id.value < n
    ensures !Named(rest, n)
  {
  }

  /** With ids that were handed out before: every stored label is in its row, every unstored one in a new row, and any
      other row goes, unless an unstored label is listed: then it stays as it was. */
  lemma WriteStoresLabels(list: seq<Label>, t: LabelTable)
    requires TableFine(t) && GivenDistinct(list) && forall l | l in list && l.id.Some? :: l.id.value < t.next
    ensures
      var kept := map i | i in t.rows && ((exists l | l in list :: l.id == None) || Named(list, i)) :: t.rows[i];
      Holds(Written(list, t).rows, list, kept, t.next)
  {
    UpsertedHolds(list, Pruned(list, t), t.next);
  }

  /** So with all ids given, writing and reading give the list back, but for empty group labels, which reading skips. */
  lemma LabelsRoundTrip(list: seq<Label>, t: LabelTable, skipEmpty: bool, out: seq<Label>)
    requires TableFine(t) && GivenDistinct(list) && forall l | l in list :: l.id.Some? && l.id.value < t.next
    requires IsReading(out, Written(list, t), skipEmpty)
    ensures forall l :: l in out <==> l in list && !(skipEmpty && l.text == "")
  {
    hide Written;
    WriteStoresLabels(list, t);
    var r := Written(list, t).rows;
    forall l ensures l in out <==> l in list && !(skipEmpty && l.text == "") {
      if l in list && !(skipEmpty && l.text == "") {
        assert r[l.id.value] == l.text && l == Label(Some(l.id.value), l.text);
      }
      if l in out {
        var i := l.id.value;
        var x :| x in list && x.id == Some(i);
        assert x == l;
      }
    }
  }
}
