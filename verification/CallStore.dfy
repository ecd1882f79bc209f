/** Recorded calls: a table of rows, audio files named by day, and the rule that keeps duplicates out. */
module CallStore {
  import opened Feed
  import P = Population

  type Byte = b: int | 0 <= b < 256
  type Bytes = seq<Byte>

  const SECOND := 1000
  const DAY := 86_400_000

  /** A file under the audio directory: the day it belongs to, and its name. */
  datatype Path = Path(day: nat, name: string)

  /** A call as it is stored; times are in milliseconds. */
  datatype Recording = Recording(system: nat, talkgroup: nat, time: nat, name: Option<string>, audio: Bytes)

  /** A table row. Only rows of earlier versions have their audio in the table. */
  datatype Stored = Stored(system: nat, talkgroup: nat, time: nat, path: Option<Path>, blob: Bytes)

  datatype Disk = Disk(rows: map<nat, Stored>, files: map<Path, Bytes>, next: nat)

  function DefaultName(r: Recording): string {
    P.Decimal(r.talkgroup) + "_" + P.Decimal(r.time / SECOND) + ".m4a"
  }

  /** AudioRelPath */
  function PathOf(r: Recording): Path {
    Path(r.time / DAY, if r.name.Some? then r.name.value else DefaultName(r))
  }

  // ---- The operations ----

  /** WriteCall */
  function Written(d: Disk, r: Recording): Disk {
    var row := Stored(r.system, r.talkgroup, r.time, if r.audio == [] then None else Some(PathOf(r)), []);
    Disk(d.rows[d.next := row], if r.audio == [] then d.files else d.files[PathOf(r) := r.audio], d.next + 1)
  }

  ghost predicate Expired(d: Disk, path: Path, cutoff: nat) {
    exists id | id in d.rows :: d.rows[id].time < cutoff && d.rows[id].path == Some(path)
  }

  /** Prune: the files of the old rows go, then the rows. */
  ghost function Pruned(d: Disk, cutoff: nat): Disk {
    Disk(map id | id in d.rows && d.rows[id].time >= cutoff :: d.rows[id],
         map p | p in d.files && !Expired(d, p, cutoff) :: d.files[p], d.next)
  }

  /** The audio GetCall gives for a row; none when its file is missing. */
  function AudioOf(d: Disk, id: nat): Option<Bytes>
    requires id in d.rows
  {
    var row := d.rows[id];
    if row.path.Some? && row.blob == [] then
      if row.path.value in d.files then Some(d.files[row.path.value]) else None
    else Some(row.blob)
  }

  predicate Near(a: nat, b: nat, window: nat) {
    a - window <= b <= a + window
  }

  /** CheckDuplicate */
  predicate IsDuplicate(d: Disk, r: Recording, window: nat) {
    exists id | id in d.rows ::
      d.rows[id].system == r.system && d.rows[id].talkgroup == r.talkgroup && Near(r.time, d.rows[id].time, window)
  }

  /** The last part of ingestion: a duplicate is turned away, anything else is written. */
  function Admitted(d: Disk, r: Recording, detect: bool, window: nat): Disk {
    if detect && IsDuplicate(d, r, window) then d else Written(d, r)
  }

  // ---- The class ----

  class Calls {
    var rows: map<nat, Stored>
    var files: map<Path, Bytes>
    var next: nat

    ghost function View(): Disk
      reads this
    {
      Disk(rows, files, next)
    }

    method CheckDuplicate(r: Recording, window: nat) returns (found: bool)
      ensures found == IsDuplicate(View(), r, window)
      ensures found <==>
                exists id | id in rows ::
                  rows[id].system == r.system && rows[id].talkgroup == r.talkgroup &&
                  r.time - window <= rows[id].time && rows[id].time <= r.time + window
    {
      var count := set id | id in rows && rows[id].system == r.system && rows[id].talkgroup == r.talkgroup &&
        Near(r.time, rows[id].time, window);
      found := count != {};
      if found {
        var id :| id in count;
        assert id in View().rows;
      } else {
        assert forall id | id in rows :: id !in count;
      }
    }

    method WriteCall(r: Recording) returns (id: nat)
      modifies this
      ensures View() == Written(old(View()), r) && id == old(next)
    {
      var path := None;
      if |r.audio| > 0 {
        path := Some(PathOf(r));
        files := files[PathOf(r) := r.audio];
      }
      rows := rows[next := Stored(r.system, r.talkgroup, r.time, path, [])];
      id := next;
      next := next + 1;
    }

    /** A row that is not there gives an empty call, not an error. */
    method GetCall(id: nat) returns (audio: Option<Bytes>)
      ensures audio == if id in rows then AudioOf(View(), id) else Some([])
    {
      if id !in rows {
        return Some([]);
      }
      audio := Some(rows[id].blob);
      if rows[id].path.Some? && |rows[id].blob| == 0 {
        if rows[id].path.value !in files {
          return None;
        }
        audio := Some(files[rows[id].path.value]);
      }
    }

    method Prune(cutoff: nat)
      modifies this
      ensures View() == Pruned(old(View()), cutoff)
    {
      ghost var was := View();
      var old' := set id | id in rows && rows[id].time < cutoff;
      var todo := old';
      while todo != {}
        invariant todo <= old' && rows == was.rows && next == was.next
        invariant files.Keys <= was.files.Keys && forall p | p in files :: files[p] == was.files[p]
        invariant forall p | p in was.files && p !in files :: Expired(was, p, cutoff)
        invariant forall id | id in old' - todo && rows[id].path.Some? :: rows[id].path.value !in files
        decreases todo
      {
        var id :| id in todo;
        if rows[id].path.Some? {
          files := files - {rows[id].path.value};
        }
        todo := todo - {id};
      }
      rows := map id | id in rows && rows[id].time >= cutoff :: rows[id];
      assert files == Pruned(was, cutoff).files;
    }

    method Ingest(r: Recording, detect: bool, window: nat) returns (stored: bool)
      modifies this
      ensures View() == Admitted(old(View()), r, detect, window)
      ensures stored <==> !(detect && IsDuplicate(old(View()), r, window))
    {
      if detect {
        var duplicate := CheckDuplicate(r, window);
        if duplicate {
          return false;
        }
      }
      var _ := WriteCall(r);
      stored := true;
    }
  }

  /** A written call is a new row under the next id; its audio lies in a file of its day, under the given name or else
      one of talkgroup and second, and is what reading the call gives. Everything else stays. */
  lemma WrittenRow(d: Disk, r: Recording)
    requires forall id | id in d.rows :: id < d.next
    ensures
      var d' := Written(d, r);
      && d'.next == d.next + 1 && d'.rows.Keys == d.rows.Keys + {d.next}
      && (forall id | id in d.rows :: d'.rows[id] == d.rows[id])
      && var row := d'.rows[d.next];
         && row.system == r.system && row.talkgroup == r.talkgroup && row.time == r.time && row.blob == []
         && AudioOf(d', d.next) == Some(r.audio)
         && if r.audio == [] then row.path == None && d'.files == d.files
            else
              var name := if r.name.Some? then r.name.value
                          else P.Decimal(r.talkgroup) + "_" + P.Decimal(r.time / 1000) + ".m4a";
              row.path == Some(Path(r.time / 86_400_000, name)) && d'.files == d.files[row.path.value := r.audio]
  {
  }

  /** Two calls under given names get the same file exactly on one day under one name. */
  lemma GivenNamesMeet(a: Recording, b: Recording)
    requires a.name.Some? && b.name.Some?
    ensures PathOf(a) == PathOf(b) <==> a.time / 86_400_000 == b.time / 86_400_000 && a.name == b.name
  {
  }

  // ---- One map of audio ----

  /** What the store is for: every stored call's time and audio, by id. */
  type Shelf = map<nat, (nat, Bytes)>

  ghost function ShelfWritten(a: Shelf, id: nat, r: Recording): Shelf {
    a[id := (r.time, r.audio)]
  }

  ghost function ShelfPruned(a: Shelf, cutoff: nat): Shelf {
    map id | id in a && a[id].0 >= cutoff :: a[id]
  }

  /** No two rows share a file. */
  ghost predicate Private(d: Disk) {
    forall a, b | a in d.rows && b in d.rows && a != b && d.rows[a].path.Some? :: d.rows[a].path != d.rows[b].path
  }

  ghost predicate Owned(d: Disk, p: Path) {
    exists id | id in d.rows :: d.rows[id].path == Some(p)
  }

  /** Every row gives back its own bytes, rows share no file, and no file is without a row. */
  ghost predicate Refines(d: Disk, a: Shelf) {
    && a.Keys == d.rows.Keys
    && (forall id | id in d.rows ::
        id < d.next && a[id] == (d.rows[id].time, a[id].1) && AudioOf(d, id) == Some(a[id].1))
    && Private(d)
    && forall p | p in d.files :: Owned(d, p)
  }

  /** The call brings no audio, or a file name that no stored row of its day has. */
  ghost predicate FreshName(d: Disk, r: Recording) {
    r.audio == [] || !Owned(d, PathOf(r))
  }

  lemma NameTaken(d: Disk, a: Shelf, r: Recording)
    requires Refines(d, a) && !FreshName(d, r)
    ensures !Private(Written(d, r))
  {
    var id :| id in d.rows && d.rows[id].path == Some(PathOf(r));
    var d' := Written(d, r);
    assert id in d'.rows && d.next in d'.rows && id != d.next;
    assert d'.rows[id].path == d'.rows[d.next].path;
  }

  lemma FreshAudio(d: Disk, r: Recording, id: nat)
    requires FreshName(d, r) && id in d.rows && id != d.next
    ensures id in Written(d, r).rows && Written(d, r).rows[id] == d.rows[id] &&
              AudioOf(Written(d, r), id) == AudioOf(d, id)
  {
  }

  lemma FreshPrivate(d: Disk, r: Recording)
    requires Private(d) && d.next !in d.rows && FreshName(d, r)
    ensures Private(Written(d, r))
  {
  }

  lemma FreshOwned(d: Disk, r: Recording, p: Path)
    requires d.next !in d.rows && p in Written(d, r).files && (p in d.files ==> Owned(d, p))
    ensures Owned(Written(d, r), p)
  {
    hide PathOf;
    var d' := Written(d, r);
    if p in d.files {
      var id :| id in d.rows && d.rows[id].path == Some(p);
      assert id in d'.rows;
    } else {
      assert d.next in d'.rows;
    }
  }

  lemma NameFresh(d: Disk, a: Shelf, r: Recording)
    requires Refines(d, a) && FreshName(d, r)
    ensures Refines(Written(d, r), ShelfWritten(a, d.next, r))
  {
    var d', a' := Written(d, r), ShelfWritten(a, d.next, r);
    FreshPrivate(d, r);
    forall p | p in d'.files ensures Owned(d', p) {
      FreshOwned(d, r, p);
    }
    assert AudioOf(d', d.next) == Some(r.audio);
    hide PathOf, Private, Owned, FreshName, AudioOf;
    forall id | id in d.rows ensures d'.rows[id] == d.rows[id] && AudioOf(d', id) == AudioOf(d, id) {
      FreshAudio(d, r, id);
    }
  }

  /** Rows still give their own bytes and share no file if and only if the name is fresh. */
  lemma WriteRefines(d: Disk, a: Shelf, r: Recording)
    requires Refines(d, a)
    ensures Refines(Written(d, r), ShelfWritten(a, d.next, r)) <==> FreshName(d, r)
  {
    if FreshName(d, r) {
      NameFresh(d, a, r);
    } else {
      NameTaken(d, a, r);
    }
  }

  /** Pruning takes exactly the old calls: the others keep their audio, and no file of a pruned row stays. */
  lemma PruneRefines(d: Disk, a: Shelf, cutoff: nat)
    requires Refines(d, a)
    ensures Refines(Pruned(d, cutoff), ShelfPruned(a, cutoff))
    ensures forall id | id in d.rows && d.rows[id].time < cutoff && d.rows[id].path.Some? ::
              d.rows[id].path.value !in Pruned(d, cutoff).files
  {
    var d' := Pruned(d, cutoff);
    forall id | id in d'.rows ensures AudioOf(d', id) == AudioOf(d, id) {
      if d.rows[id].path.Some? {
        assert !Expired(d, d.rows[id].path.value, cutoff);
      }
    }
    forall p | p in d'.files ensures Owned(d', p) {
      assert Owned(d, p);
      var id :| id in d.rows && d.rows[id].path == Some(p);
      assert d.rows[id].time >= cutoff;
      assert id in d'.rows;
    }
  }

  // ---- The bytes alone ----

  /** Every row gives back its own bytes, whether or not it shares its file. */
  ghost predicate Gives(d: Disk, a: Shelf) {
    && a.Keys == d.rows.Keys
    && forall id | id in d.rows ::
         id < d.next && a[id].0 == d.rows[id].time && AudioOf(d, id) == Some(a[id].1)
  }

  /** A stored call that reads its audio from this file was stored with other bytes. */
  ghost predicate Clobbers(d: Disk, a: Shelf, r: Recording)
    requires a.Keys == d.rows.Keys
  {
    r.audio != [] &&
    exists id | id in d.rows :: d.rows[id].path == Some(PathOf(r)) && d.rows[id].blob == [] && a[id].1 != r.audio
  }

  lemma WrittenAudio(d: Disk, r: Recording, id: nat)
    requires id in d.rows && id != d.next
    ensures
      AudioOf(Written(d, r), id) ==
      if r.audio != [] && d.rows[id].path == Some(PathOf(r)) && d.rows[id].blob == [] then Some(r.audio)
        else AudioOf(d, id)
  {
  }

  /** Exactly when a write keeps all audio: unless a stored call that reads the same file has other bytes. */
  lemma WriteGives(d: Disk, a: Shelf, r: Recording)
    requires Gives(d, a)
    ensures Gives(Written(d, r), ShelfWritten(a, d.next, r)) <==> !Clobbers(d, a, r)
    ensures FreshName(d, r) ==> !Clobbers(d, a, r)
  {
    var d', a' := Written(d, r), ShelfWritten(a, d.next, r);
    assert AudioOf(d', d.next) == Some(r.audio);
    forall id | id in d.rows
      ensures id in d'.rows && id in a' && a'[id] == a[id] && d'.rows[id] == d.rows[id]
      ensures
        AudioOf(d', id) ==
        if r.audio != [] && d.rows[id].path == Some(PathOf(r)) && d.rows[id].blob == [] then Some(r.audio)
          else AudioOf(d, id)
    {
      WrittenAudio(d, r, id);
    }
    hide PathOf, AudioOf, Written;
  }

  /** A call that stays reads its audio from a file of a call that goes. */
  ghost predicate Orphans(d: Disk, cutoff: nat) {
    exists id | id in d.rows ::
      d.rows[id].time >= cutoff && d.rows[id].path.Some? && d.rows[id].blob == [] &&
        Expired(d, d.rows[id].path.value, cutoff)
  }

  /** Exactly when pruning keeps the audio of the calls that stay: sharing a file does no harm before. */
  lemma PruneGives(d: Disk, a: Shelf, cutoff: nat)
    requires Gives(d, a)
    ensures Gives(Pruned(d, cutoff), ShelfPruned(a, cutoff)) <==> !Orphans(d, cutoff)
  {
    var d', a' := Pruned(d, cutoff), ShelfPruned(a, cutoff);
    forall id | id in d'.rows
      ensures d'.rows[id] == d.rows[id] && id in a' && a'[id] == a[id]
      ensures
        AudioOf(d', id) ==
        if d.rows[id].path.Some? && d.rows[id].blob == [] && Expired(d, d.rows[id].path.value, cutoff) then None
        else AudioOf(d, id)
    {
    }
    if Orphans(d, cutoff) {
      var id :| id in d.rows && d.rows[id].time >= cutoff && d.rows[id].path.Some? && d.rows[id].blob == [] &&
                Expired(d, d.rows[id].path.value, cutoff);
      assert id in d'.rows && AudioOf(d', id) == None;
    }
  }

  /** Two unnamed calls of one second on the same talkgroup number of two systems: the second takes the first one's
      file, and the first gives the second's audio from then on. */
  lemma OverwrittenRecording()
    ensures
      var first, second := Recording(1, 100, 5000, None, [1, 1]), Recording(2, 100, 5000, None, [2, 2]);
      var d := Written(Written(Disk(map[], map[], 1), first), second);
      && 1 in d.rows && 2 in d.rows && d.rows[1].system == 1
      && AudioOf(d, 1) == Some([2, 2]) && AudioOf(d, 2) == Some([2, 2])
  {
    var first, second := Recording(1, 100, 5000, None, [1, 1]), Recording(2, 100, 5000, None, [2, 2]);
    DefaultNamesMeet(first, second);
    hide PathOf;
  }

  // ---- Runs ----

  datatype Op = Write(call: Recording) | Prune(cutoff: nat)

  ghost function Apply(d: Disk, op: Op): Disk {
    match op
    case Write(r) => Written(d, r)
    case Prune(cutoff) => Pruned(d, cutoff)
  }

  ghost function ShelfApply(a: Shelf, id: nat, op: Op): Shelf {
    match op
    case Write(r) => ShelfWritten(a, id, r)
    case Prune(cutoff) => ShelfPruned(a, cutoff)
  }

  ghost function RunOps(d: Disk, ops: seq<Op>): Disk
    decreases |ops|
  {
    if ops == [] then d else RunOps(Apply(d, ops[0]), ops[1..])
  }

  ghost function ShelfRun(a: Shelf, next: nat, ops: seq<Op>): Shelf
    decreases |ops|
  {
    if ops == [] then a
    else ShelfRun(ShelfApply(a, next, ops[0]), if ops[0].Write? then next + 1 else next, ops[1..])
  }

  /** No write takes a name that a row still stored has. */
  ghost predicate FreshNames(d: Disk, ops: seq<Op>)
    decreases |ops|
  {
    ops == [] || ((ops[0].Write? ==> FreshName(d, ops[0].call)) && FreshNames(Apply(d, ops[0]), ops[1..]))
  }

  /** Over every run of writes and prunes with fresh names, the disk is one map from stored calls to their audio. */
  lemma {:induction false} RunRefines(d: Disk, a: Shelf, ops: seq<Op>)
    requires Refines(d, a) && FreshNames(d, ops)
    ensures Refines(RunOps(d, ops), ShelfRun(a, d.next, ops))
    decreases |ops|
  {
    hide Refines;
    if ops != [] {
      match ops[0] {
        case Write(r) => WriteRefines(d, a, r);
        case Prune(cutoff) => PruneRefines(d, a, cutoff);
      }
      RunRefines(Apply(d, ops[0]), ShelfApply(a, d.next, ops[0]), ops[1..]);
    }
  }

  /** Two calls without a file name get the same file exactly when talkgroup and second agree; the system makes no
      difference. */
  lemma DefaultNamesMeet(a: Recording, b: Recording)
    requires a.name.None? && b.name.None?
    ensures PathOf(a) == PathOf(b) <==> a.talkgroup == b.talkgroup && a.time / SECOND == b.time / SECOND
  {
    var x, y := P.Decimal(a.talkgroup), P.Decimal(b.talkgroup);
    var u, v := P.Decimal(a.time / SECOND), P.Decimal(b.time / SECOND);
    if DefaultName(a) == DefaultName(b) {
      DecimalPlain(a.talkgroup);
      DecimalPlain(b.talkgroup);
      assert DefaultName(a) == x + "_" + (u + ".m4a") && DefaultName(b) == y + "_" + (v + ".m4a");
      SplitAt(x, u + ".m4a", y, v + ".m4a");
      assert u == (u + ".m4a")[..|u + ".m4a"| - 4] && v == (v + ".m4a")[..|v + ".m4a"| - 4];
      DecimalInjective(a.talkgroup, b.talkgroup);
      DecimalInjective(a.time / SECOND, b.time / SECOND);
    }
  }

  lemma {:induction false} DecimalPlain(n: nat)
    ensures '_' !in P.Decimal(n)
  {
    if n >= 10 {
      DecimalPlain(n / 10);
    }
  }

  lemma {:induction false} DecimalInjective(a: nat, b: nat)
    ensures P.Decimal(a) == P.Decimal(b) ==> a == b
  {
    if P.Decimal(a) == P.Decimal(b) {
      var s, t := P.Decimal(a), P.Decimal(b);
      assert s[|s| - 1] == ('0' as int + a % 10) as char && t[|t| - 1] == ('0' as int + b % 10) as char;
      if a >= 10 && b >= 10 {
        assert s[..|s| - 1] == P.Decimal(a / 10) && t[..|t| - 1] == P.Decimal(b / 10);
        DecimalInjective(a / 10, b / 10);
      } else {
        DecimalLength(a);
        DecimalLength(b);
      }
    }
  }

  lemma DecimalLength(n: nat)
    ensures n >= 10 <==> |P.Decimal(n)| > 1
  {
  }

  lemma FirstUnderscore(x: string, u: string)
    requires '_' !in x
    ensures var s := x + "_" + u; s[|x|] == '_' && forall i | 0 <= i < |x| :: s[i] != '_'
  {
  }

  lemma SplitAt(x: string, u: string, y: string, v: string)
    requires x + "_" + u == y + "_" + v && '_' !in x && '_' !in y
    ensures x == y && u == v
  {
    var s, t := x + "_" + u, y + "_" + v;
    FirstUnderscore(x, u);
    FirstUnderscore(y, v);
    assert |x| == |y|;
    assert x == s[..|x|] && y == t[..|y|] && u == s[|x| + 1..] && v == t[|y| + 1..];
  }

  // ---- Duplicates ----

  ghost predicate Apart(a: Stored, b: Stored, window: nat) {
    a.system == b.system && a.talkgroup == b.talkgroup ==> !Near(a.time, b.time, window)
  }

  /** No two stored calls of one talkgroup are within the window of each other. */
  ghost predicate Separated(d: Disk, window: nat) {
    && (forall id | id in d.rows :: id < d.next)
    && forall a, b | a in d.rows && b in d.rows && a != b :: Apart(d.rows[a], d.rows[b], window)
  }

  datatype Arrival = Ingested(call: Recording) | Cleanup(cutoff: nat)

  ghost function Handle(d: Disk, e: Arrival, window: nat): Disk {
    match e
    case Ingested(r) => Admitted(d, r, true, window)
    case Cleanup(cutoff) => Pruned(d, cutoff)
  }

  ghost function RunArrivals(d: Disk, events: seq<Arrival>, window: nat): Disk
    decreases |events|
  {
    if events == [] then d else RunArrivals(Handle(d, events[0], window), events[1..], window)
  }

  lemma HandleSeparates(d: Disk, e: Arrival, window: nat)
    requires Separated(d, window)
    ensures Separated(Handle(d, e, window), window)
  {
  }

  /** Over every run of ingests and prunes, with detection on and a constant window. */
  lemma {:induction false} RunSeparates(d: Disk, events: seq<Arrival>, window: nat)
    requires Separated(d, window)
    ensures Separated(RunArrivals(d, events, window), window)
    decreases |events|
  {
    if events != [] {
      HandleSeparates(d, events[0], window);
      RunSeparates(Handle(d, events[0], window), events[1..], window);
    }
  }

  /** Exactly when a write without the check would break the separation. */
  lemma UncheckedWrite(d: Disk, r: Recording, window: nat)
    requires Separated(d, window)
    ensures Separated(Written(d, r), window) <==> !IsDuplicate(d, r, window)
  {
    var d' := Written(d, r);
    if IsDuplicate(d, r, window) {
      var id :| id in d.rows && d.rows[id].system == r.system && d.rows[id].talkgroup == r.talkgroup &&
                Near(r.time, d.rows[id].time, window);
      assert id in d'.rows && d.next in d'.rows && id != d.next;
      assert !Apart(d'.rows[d.next], d'.rows[id], window);
    }
  }
}
