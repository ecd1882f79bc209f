/** The tree of talkgroups offered for import: two levels of names taken from each talkgroup's category. */
module ImportTree {
  import opened Mask

  datatype Talkgroup = Talkgroup(
    id: nat, caption: string, name: string, category: string, tag: string, frequency: nat, encrypted: nat,
    visible: bool, selected: bool)

  /** A node of the tree. Its talkgroups are positions in the component's list, which the source shares by reference. */
  datatype Node = Node(name: string, children: seq<Node>, talkgroups: seq<nat>)

  const SEPARATOR := " / "

  // ---- Names ----

  /** String.prototype.split by the separator. */
  function Split(s: string): (parts: seq<string>)
    ensures parts != []
    decreases |s|
  {
    var at := FirstIndex(s, SEPARATOR);
    FirstIndexFits(s, SEPARATOR);
    if at == -1 then [s] else [s[..at]] + Split(s[at + |SEPARATOR|..])
  }

  function Join(parts: seq<string>): string
    requires parts != []
  {
    if |parts| == 1 then parts[0] else parts[0] + SEPARATOR + Join(parts[1..])
  }

  lemma {:induction false} JoinSplit(s: string)
    ensures Join(Split(s)) == s
    decreases |s|
  {
    var at := FirstIndex(s, SEPARATOR);
    FirstIndexFits(s, SEPARATOR);
    if at != -1 {
      var rest := s[at + |SEPARATOR|..];
      JoinSplit(rest);
      assert Split(s)[1..] == Split(rest);
      assert s == s[..at] + s[at..] && s[at..] == SEPARATOR + s[at..][|SEPARATOR|..];
      assert s[at..][|SEPARATOR|..] == rest;
    }
  }

  function Upper(tg: Talkgroup): string {
    var cat := if tg.category == "" then "Uncategorized" else tg.category;
    var first := Split(cat)[0];
    if first == "" then "Uncategorized" else first
  }

  function Lower(tg: Talkgroup): string {
    var cat := if tg.category == "" then "Uncategorized" else tg.category;
    var parts := Split(cat);
    if |parts| > 1 then Join(parts[1..]) else "General"
  }

  /** The two names of a category: before the first separator, and everything after it. */
  lemma TwoNames(tg: Talkgroup)
    ensures
      var s := tg.category;
      var at := FirstIndex(s, SEPARATOR);
      && (s == "" ==> Upper(tg) == "Uncategorized" && Lower(tg) == "General")
      && (s != "" && at == -1 ==> Upper(tg) == s && Lower(tg) == "General")
      && (at == 0 ==> Upper(tg) == "Uncategorized")
      && (at > 0 ==> at <= |s| && Upper(tg) == s[..at])
      && (at >= 0 ==> at + 3 <= |s| && Lower(tg) == s[at + 3..])
  {
    NoSeparator("Uncategorized");
    SplitTwo(if tg.category == "" then "Uncategorized" else tg.category);
    hide Split, Join, FirstIndex;
  }

  lemma SplitTwo(s: string)
    ensures
      var at, parts := FirstIndex(s, SEPARATOR), Split(s);
      && (at == -1 ==> parts == [s])
      && (at != -1 ==> at + 3 <= |s| && |parts| > 1 && parts[0] == s[..at] && Join(parts[1..]) == s[at + 3..])
  {
    var at := FirstIndex(s, SEPARATOR);
    FirstIndexFits(s, SEPARATOR);
    if at != -1 {
      JoinSplit(s[at + 3..]);
      hide FirstIndex, Join;
      assert Split(s)[1..] == Split(s[at + 3..]);
    }
  }

  lemma {:induction false} NoSeparator(s: string)
    requires ' ' !in s
    ensures FirstIndex(s, SEPARATOR) == -1
  {
    assert SEPARATOR[0] == ' ';
    if s != "" { NoSeparator(s[1..]); }
  }

  // ---- The tree ----

  /** Positions of the visible talkgroups among the first n that carry these two names, in order. */
  ghost function Members(tgs: seq<Talkgroup>, n: nat, upper: string, lower: string): seq<nat>
    requires n <= |tgs|
  {
    if n == 0 then []
    else
      Members(tgs, n - 1, upper, lower) +
      if tgs[n - 1].visible && Upper(tgs[n - 1]) == upper && Lower(tgs[n - 1]) == lower then [n - 1] else []
  }

  ghost predicate NamesDistinct(nodes: seq<Node>) {
    forall i, j | 0 <= i < j < |nodes| :: nodes[i].name != nodes[j].name
  }

  function FindNode(nodes: seq<Node>, name: string): (at: int)
    ensures at == -1 ==> forall n | n in nodes :: n.name != name
    ensures at != -1 ==> 0 <= at < |nodes| && nodes[at].name == name
  {
    if nodes == [] then -1
    else if nodes[0].name == name then 0
    else
      var i := FindNode(nodes[1..], name);
      if i == -1 then -1 else i + 1
  }

  ghost predicate LeafFine(l: Node, tgs: seq<Talkgroup>, n: nat, upper: string)
    requires n <= |tgs|
  {
    l.children == [] && l.talkgroups != [] && l.talkgroups == Members(tgs, n, upper, l.name)
  }

  /** The second level: every leaf holds exactly its members, and a name without a leaf has none. */
  ghost predicate LeavesFine(nodes: seq<Node>, tgs: seq<Talkgroup>, n: nat, upper: string)
    requires n <= |tgs|
  {
    && NamesDistinct(nodes)
    && (forall l | l in nodes :: LeafFine(l, tgs, n, upper))
    && (forall lower: string | FindNode(nodes, lower) == -1 :: Members(tgs, n, upper, lower) == [])
  }

  ghost predicate BranchFine(u: Node, tgs: seq<Talkgroup>, n: nat)
    requires n <= |tgs|
  {
    u.talkgroups == [] && u.children != [] && LeavesFine(u.children, tgs, n, u.name)
  }

  ghost predicate Empty(tgs: seq<Talkgroup>, n: nat, upper: string)
    requires n <= |tgs|
  {
    forall lower: string :: Members(tgs, n, upper, lower) == []
  }

  ghost predicate TreeFine(tree: seq<Node>, tgs: seq<Talkgroup>, n: nat)
    requires n <= |tgs|
  {
    && NamesDistinct(tree)
    && (forall u | u in tree :: BranchFine(u, tgs, n))
    && (forall upper: string | FindNode(tree, upper) == -1 :: Empty(tgs, n, upper))
  }

  function Put(nodes: seq<Node>, lower: string, i: nat): seq<Node> {
    var at := FindNode(nodes, lower);
    if at == -1 then nodes + [Node(lower, [], [i])]
    else nodes[at := nodes[at].(talkgroups := nodes[at].talkgroups + [i])]
  }

  function PutUnder(tree: seq<Node>, upper: string, lower: string, i: nat): seq<Node> {
    var at := FindNode(tree, upper);
    if at == -1 then tree + [Node(upper, Put([], lower, i), [])]
    else tree[at := tree[at].(children := Put(tree[at].children, lower, i))]
  }

  lemma NodeUpdated(nodes: seq<Node>, at: nat, node: Node)
    requires at < |nodes| && node.name == nodes[at].name && NamesDistinct(nodes)
    ensures NamesDistinct(nodes[at := node])
    ensures forall x :: FindNode(nodes[at := node], x) == -1 ==> FindNode(nodes, x) == -1
  {
    var nodes' := nodes[at := node];
    forall x | FindNode(nodes', x) == -1 ensures FindNode(nodes, x) == -1 {
      assert forall i | 0 <= i < |nodes| :: nodes'[i] in nodes' && nodes'[i].name == nodes[i].name;
    }
  }

  lemma NodeAdded(nodes: seq<Node>, node: Node)
    requires FindNode(nodes, node.name) == -1 && NamesDistinct(nodes)
    ensures NamesDistinct(nodes + [node])
    ensures forall x :: FindNode(nodes + [node], x) == -1 ==> FindNode(nodes, x) == -1 && x != node.name
  {
  }

  lemma LeafKept(l: Node, tgs: seq<Talkgroup>, n: nat, upper: string)
    requires n < |tgs| && LeafFine(l, tgs, n, upper)
    requires !tgs[n].visible || Upper(tgs[n]) != upper || Lower(tgs[n]) != l.name
    ensures LeafFine(l, tgs, n + 1, upper)
  {
  }

  lemma LeafGrown(l: Node, tgs: seq<Talkgroup>, n: nat, upper: string)
    requires n < |tgs| && LeafFine(l, tgs, n, upper) && tgs[n].visible && Upper(tgs[n]) == upper &&
               Lower(tgs[n]) == l.name
    ensures LeafFine(l.(talkgroups := l.talkgroups + [n]), tgs, n + 1, upper)
  {
  }

  lemma NoneElsewhere(nodes: seq<Node>, nodes': seq<Node>, tgs: seq<Talkgroup>, n: nat, upper: string)
    requires n < |tgs| && LeavesFine(nodes, tgs, n, upper)
    requires forall x | FindNode(nodes', x) == -1 :: FindNode(nodes, x) == -1 && x != Lower(tgs[n])
    ensures forall x: string | FindNode(nodes', x) == -1 :: Members(tgs, n + 1, upper, x) == []
  {
  }

  lemma PutNew(nodes: seq<Node>, tgs: seq<Talkgroup>, n: nat, upper: string)
    requires n < |tgs| && LeavesFine(nodes, tgs, n, upper) && tgs[n].visible && Upper(tgs[n]) == upper
    requires FindNode(nodes, Lower(tgs[n])) == -1
    ensures LeavesFine(nodes + [Node(Lower(tgs[n]), [], [n])], tgs, n + 1, upper)
  {
    var node := Node(Lower(tgs[n]), [], [n]);
    var nodes' := nodes + [node];
    NodeAdded(nodes, node);
    NoneElsewhere(nodes, nodes', tgs, n, upper);
    assert LeafFine(node, tgs, n + 1, upper);
    hide Upper, Lower, LeafFine, Members;
    forall l | l in nodes' ensures LeafFine(l, tgs, n + 1, upper) {
      if l != node {
        assert l in nodes;
        LeafKept(l, tgs, n, upper);
      }
    }
  }

  lemma PutOld(nodes: seq<Node>, tgs: seq<Talkgroup>, n: nat, upper: string, at: nat)
    requires n < |tgs| && LeavesFine(nodes, tgs, n, upper) && tgs[n].visible && Upper(tgs[n]) == upper
    requires at < |nodes| && FindNode(nodes, Lower(tgs[n])) == at
    ensures LeavesFine(nodes[at := nodes[at].(talkgroups := nodes[at].talkgroups + [n])], tgs, n + 1, upper)
  {
    hide Upper, Lower, LeafFine, Members;
    var node := nodes[at].(talkgroups := nodes[at].talkgroups + [n]);
    var nodes' := nodes[at := node];
    NodeUpdated(nodes, at, node);
    NoneElsewhere(nodes, nodes', tgs, n, upper);
    assert nodes[at] in nodes;
    LeafGrown(nodes[at], tgs, n, upper);
    forall i | 0 <= i < |nodes'| ensures LeafFine(nodes'[i], tgs, n + 1, upper) {
      if i != at {
        assert nodes[i] in nodes;
        LeafKept(nodes[i], tgs, n, upper);
      }
    }
  }

  /** A talkgroup put under its names joins their members and no others. */
  lemma PutFine(nodes: seq<Node>, tgs: seq<Talkgroup>, n: nat, upper: string)
    requires n < |tgs| && LeavesFine(nodes, tgs, n, upper) && tgs[n].visible && Upper(tgs[n]) == upper
    ensures LeavesFine(Put(nodes, Lower(tgs[n]), n), tgs, n + 1, upper)
  {
    hide Upper, Lower, LeavesFine;
    var at := FindNode(nodes, Lower(tgs[n]));
    if at == -1 {
      PutNew(nodes, tgs, n, upper);
    } else {
      PutOld(nodes, tgs, n, upper, at);
    }
  }

  /** A talkgroup that is hidden, or has another upper name, changes nothing here. */
  lemma KeepsFine(nodes: seq<Node>, tgs: seq<Talkgroup>, n: nat, upper: string)
    requires n < |tgs| && LeavesFine(nodes, tgs, n, upper) && (!tgs[n].visible || Upper(tgs[n]) != upper)
    ensures LeavesFine(nodes, tgs, n + 1, upper)
  {
  }

  lemma EmptyKept(tgs: seq<Talkgroup>, n: nat, upper: string)
    requires n < |tgs| && Empty(tgs, n, upper) && (!tgs[n].visible || Upper(tgs[n]) != upper)
    ensures Empty(tgs, n + 1, upper)
  {
    hide Upper, Lower;
    var n' := n + 1;
    forall lower: string ensures Members(tgs, n', upper, lower) == [] {
      assert Members(tgs, n, upper, lower) == [];
    }
  }

  lemma HiddenFine(tree: seq<Node>, tgs: seq<Talkgroup>, n: nat)
    requires n < |tgs| && TreeFine(tree, tgs, n) && !tgs[n].visible
    ensures TreeFine(tree, tgs, n + 1)
  {
    hide LeavesFine, Empty;
    forall u | u in tree ensures BranchFine(u, tgs, n + 1) {
      KeepsFine(u.children, tgs, n, u.name);
    }
    forall upper: string | FindNode(tree, upper) == -1 ensures Empty(tgs, n + 1, upper) {
      EmptyKept(tgs, n, upper);
    }
  }

  lemma NewBranch(tgs: seq<Talkgroup>, n: nat)
    requires n < |tgs| && tgs[n].visible && Empty(tgs, n, Upper(tgs[n]))
    ensures LeavesFine(Put([], Lower(tgs[n]), n), tgs, n + 1, Upper(tgs[n]))
  {
    PutFine([], tgs, n, Upper(tgs[n]));
  }

  lemma BranchKept(u: Node, tgs: seq<Talkgroup>, n: nat)
    requires n < |tgs| && BranchFine(u, tgs, n) && Upper(tgs[n]) != u.name
    ensures BranchFine(u, tgs, n + 1)
  {
  }

  lemma BranchGrown(u: Node, tgs: seq<Talkgroup>, n: nat)
    requires n < |tgs| && BranchFine(u, tgs, n) && tgs[n].visible && Upper(tgs[n]) == u.name
    ensures BranchFine(u.(children := Put(u.children, Lower(tgs[n]), n)), tgs, n + 1)
  {
    hide LeavesFine;
    PutFine(u.children, tgs, n, u.name);
  }

  lemma PutUnderFine(tree: seq<Node>, tgs: seq<Talkgroup>, n: nat)
    requires n < |tgs| && TreeFine(tree, tgs, n) && tgs[n].visible
    ensures TreeFine(PutUnder(tree, Upper(tgs[n]), Lower(tgs[n]), n), tgs, n + 1)
  {
    var upper, lower := Upper(tgs[n]), Lower(tgs[n]);
    var at := FindNode(tree, upper);
    var tree' := PutUnder(tree, upper, lower, n);
    if at == -1 {
      var node := Node(upper, Put([], lower, n), []);
      NewBranch(tgs, n);
      assert BranchFine(node, tgs, n + 1);
      hide Upper, Lower, BranchFine, Put, Empty;
      NodeAdded(tree, node);
      forall u | u in tree' ensures BranchFine(u, tgs, n + 1) {
        if u != node {
          assert u in tree;
          BranchKept(u, tgs, n);
        }
      }
      forall x: string | FindNode(tree', x) == -1 ensures Empty(tgs, n + 1, x) {
        EmptyKept(tgs, n, x);
      }
    } else {
      hide Upper, Lower, BranchFine, Put, Empty;
      var node := tree[at].(children := Put(tree[at].children, lower, n));
      NodeUpdated(tree, at, node);
      assert tree[at] in tree;
      BranchGrown(tree[at], tgs, n);
      forall i | 0 <= i < |tree'| ensures BranchFine(tree'[i], tgs, n + 1) {
        if i != at {
          assert tree[i] in tree;
          BranchKept(tree[i], tgs, n);
        }
      }
      forall x: string | FindNode(tree', x) == -1 ensures Empty(tgs, n + 1, x) {
        EmptyKept(tgs, n, x);
      }
    }
  }

  // ---- Leaves and counts ----

  /** getLeaves */
  function Leaves(node: Node): seq<nat>
    decreases node, 1
  {
    if |node.talkgroups| > 0 then node.talkgroups else LeavesOf(node.children)
  }

  function LeavesOf(nodes: seq<Node>): seq<nat>
    decreases nodes, 0
  {
    if nodes == [] then [] else Leaves(nodes[0]) + LeavesOf(nodes[1..])
  }

  function VisibleCount(tgs: seq<Talkgroup>, n: nat): nat
    requires n <= |tgs|
  {
    if n == 0 then 0 else VisibleCount(tgs, n - 1) + if tgs[n - 1].visible then 1 else 0
  }

  lemma {:induction false} LeavesJoined(a: seq<Node>, b: seq<Node>)
    ensures LeavesOf(a + b) == LeavesOf(a) + LeavesOf(b)
  {
    if a == [] {
      assert a + b == b;
    } else {
      assert (a + b)[1..] == a[1..] + b;
      LeavesJoined(a[1..], b);
    }
  }

  lemma LeavesAt(nodes: seq<Node>, at: nat, node: Node)
    requires at < |nodes|
    ensures |LeavesOf(nodes[at := node])| == |LeavesOf(nodes)| - |Leaves(nodes[at])| + |Leaves(node)|
  {
    var a, b := nodes[..at], nodes[at + 1..];
    assert nodes == a + ([nodes[at]] + b) && nodes[at := node] == a + ([node] + b);
    LeavesJoined(a, [nodes[at]] + b);
    LeavesJoined(a, [node] + b);
  }

  lemma PutCounts(nodes: seq<Node>, lower: string, i: nat)
    requires forall l | l in nodes :: l.talkgroups != []
    ensures |LeavesOf(Put(nodes, lower, i))| == |LeavesOf(nodes)| + 1
  {
    var at := FindNode(nodes, lower);
    if at == -1 {
      LeavesJoined(nodes, [Node(lower, [], [i])]);
    } else {
      LeavesAt(nodes, at, nodes[at].(talkgroups := nodes[at].talkgroups + [i]));
    }
  }

  lemma PutUnderCounts(tree: seq<Node>, tgs: seq<Talkgroup>, n: nat)
    requires n < |tgs| && TreeFine(tree, tgs, n)
    ensures |LeavesOf(PutUnder(tree, Upper(tgs[n]), Lower(tgs[n]), n))| == |LeavesOf(tree)| + 1
  {
    var upper, lower := Upper(tgs[n]), Lower(tgs[n]);
    hide Upper, Lower, Put, Members;
    var at := FindNode(tree, upper);
    if at == -1 {
      PutCounts([], lower, n);
      LeavesJoined(tree, [Node(upper, Put([], lower, n), [])]);
    } else {
      assert tree[at] in tree && BranchFine(tree[at], tgs, n);
      assert forall l | l in tree[at].children :: LeafFine(l, tgs, n, upper);
      PutCounts(tree[at].children, lower, n);
      LeavesAt(tree, at, tree[at].(children := Put(tree[at].children, lower, n)));
    }
  }

  // ---- The component ----

  class RrImport {
    var allTalkgroups: seq<Talkgroup>
    var tree: seq<Node>

    /** For every list of talkgroups: the tree holds exactly the visible ones, each under its own two names, in list
        order, and its leaf counts add up to their number. */
    method BuildTree()
      modifies this`tree
      ensures TreeFine(tree, allTalkgroups, |allTalkgroups|)
      ensures |LeavesOf(tree)| == VisibleCount(allTalkgroups, |allTalkgroups|)
    {
      hide TreeFine, PutUnder, LeavesOf, Upper, Lower;
      tree := [];
      assert TreeFine(tree, allTalkgroups, 0) && LeavesOf([]) == [] by { EmptyTree(allTalkgroups); }
      for i := 0 to |allTalkgroups|
        invariant TreeFine(tree, allTalkgroups, i)
        invariant |LeavesOf(tree)| == VisibleCount(allTalkgroups, i)
      {
        var tg := allTalkgroups[i];
        if tg.visible {
          PutUnderFine(tree, allTalkgroups, i);
          PutUnderCounts(tree, allTalkgroups, i);
          tree := PutUnder(tree, Upper(tg), Lower(tg), i);
        } else {
          HiddenFine(tree, allTalkgroups, i);
        }
      }
    }

    ghost predicate Known(node: Node)
      reads this
    {
      forall i | i in Leaves(node) :: i < |allTalkgroups|
    }

    predicate IsNodeAllSelected(node: Node)
      requires Known(node)
      reads this
    {
      forall i | i in Leaves(node) :: allTalkgroups[i].selected
    }

    predicate IsNodePartial(node: Node)
      requires Known(node)
      reads this
    {
      (exists i | i in Leaves(node) :: allTalkgroups[i].selected) &&
        (exists i | i in Leaves(node) :: !allTalkgroups[i].selected)
    }

    /** toggleNode: the leaves of the node are set, and nothing else; no node stays partial. */
    method ToggleNode(node: Node, checked: bool)
      requires Known(node)
      modifies this`allTalkgroups
      ensures |allTalkgroups| == |old(allTalkgroups)| && Known(node)
      ensures !IsNodePartial(node) && (checked ==> IsNodeAllSelected(node))
      ensures forall i | 0 <= i < |allTalkgroups| ::
                allTalkgroups[i] == if i in Leaves(node) then old(allTalkgroups)[i].(selected := checked)
                  else old(allTalkgroups)[i]
    {
      var leaves := Leaves(node);
      for k := 0 to |leaves|
        invariant |allTalkgroups| == |old(allTalkgroups)|
        invariant forall i | 0 <= i < |allTalkgroups| ::
                    allTalkgroups[i] == if i in leaves[..k] then old(allTalkgroups)[i].(selected := checked)
                      else old(allTalkgroups)[i]
      {
        var i := leaves[k];
        assert i in leaves;
        assert leaves[..k + 1] == leaves[..k] + [i];
        allTalkgroups := allTalkgroups[i := allTalkgroups[i].(selected := checked)];
      }
      assert leaves[..|leaves|] == leaves;
    }
  }

  lemma EmptyTree(tgs: seq<Talkgroup>)
    ensures TreeFine([], tgs, 0) && LeavesOf([]) == []
  {
  }

  // ---- What the tree shows ----

  ghost predicate Holds(tree: seq<Node>, u: nat, l: nat, i: nat) {
    u < |tree| && l < |tree[u].children| && i in tree[u].children[l].talkgroups
  }

  lemma {:induction false} MemberOf(tgs: seq<Talkgroup>, n: nat, upper: string, lower: string, i: nat)
    requires n <= |tgs|
    ensures i in Members(tgs, n, upper, lower) <==>
              i < n && tgs[i].visible && Upper(tgs[i]) == upper && Lower(tgs[i]) == lower
  {
    hide Upper, Lower;
    if n > 0 {
      MemberOf(tgs, n - 1, upper, lower, i);
    }
  }

  ghost predicate Rising(s: seq<nat>) {
    forall i, j | 0 <= i < j < |s| :: s[i] < s[j]
  }

  lemma {:induction false} MembersInOrder(tgs: seq<Talkgroup>, n: nat, upper: string, lower: string)
    requires n <= |tgs|
    ensures Rising(Members(tgs, n, upper, lower))
  {
    hide Upper, Lower;
    if n > 0 {
      var prior := Members(tgs, n - 1, upper, lower);
      MembersInOrder(tgs, n - 1, upper, lower);
      forall k | 0 <= k < |prior| ensures prior[k] < n - 1 {
        MemberOf(tgs, n - 1, upper, lower, prior[k]);
        assert prior[k] in prior;
      }
      assert Rising(prior + [n - 1]);
      assert prior + [] == prior;
    }
  }

  /** A partition: a talkgroup is in some leaf if and only if it is visible, that leaf carries its own two names, and no
      other leaf has it. */
  lemma OneLeaf(tree: seq<Node>, tgs: seq<Talkgroup>, i: nat)
    requires TreeFine(tree, tgs, |tgs|)
    ensures (exists u: nat, l: nat :: Holds(tree, u, l, i)) <==> i < |tgs| && tgs[i].visible
    ensures forall u: nat, l: nat | Holds(tree, u, l, i) ::
              i < |tgs| && tree[u].name == Upper(tgs[i]) && tree[u].children[l].name == Lower(tgs[i])
    ensures forall u: nat, l: nat, u': nat, l': nat | Holds(tree, u, l, i) && Holds(tree, u', l', i) ::
              u == u' && l == l'
  {
    hide Upper, Lower, Members;
    forall u: nat, l: nat | Holds(tree, u, l, i)
      ensures i < |tgs| && tgs[i].visible && tree[u].name == Upper(tgs[i]) && tree[u].children[l].name == Lower(tgs[i])
    {
      LeafNames(tree, tgs, u, l, i);
    }
    if i < |tgs| && tgs[i].visible {
      var u, l := LeafFor(tree, tgs, i);
    }
    forall u: nat, l: nat, u': nat, l': nat | Holds(tree, u, l, i) && Holds(tree, u', l', i)
      ensures u == u' && l == l' {
      SameLeaf(tree, tgs, u, l, u', l');
    }
  }

  lemma LeafNames(tree: seq<Node>, tgs: seq<Talkgroup>, u: nat, l: nat, i: nat)
    requires TreeFine(tree, tgs, |tgs|) && Holds(tree, u, l, i)
    ensures i < |tgs| && tgs[i].visible && tree[u].name == Upper(tgs[i]) && tree[u].children[l].name == Lower(tgs[i])
  {
    hide Upper, Lower, Members;
    assert tree[u] in tree && BranchFine(tree[u], tgs, |tgs|);
    var leaf := tree[u].children[l];
    assert leaf in tree[u].children && LeafFine(leaf, tgs, |tgs|, tree[u].name);
    MemberOf(tgs, |tgs|, tree[u].name, leaf.name, i);
  }

  lemma LeafFor(tree: seq<Node>, tgs: seq<Talkgroup>, i: nat) returns (u: nat, l: nat)
    requires TreeFine(tree, tgs, |tgs|) && i < |tgs| && tgs[i].visible
    ensures Holds(tree, u, l, i)
  {
    hide Upper, Lower, Members;
    var upper, lower := Upper(tgs[i]), Lower(tgs[i]);
    MemberOf(tgs, |tgs|, upper, lower, i);
    assert Members(tgs, |tgs|, upper, lower) != [];
    u := FindNode(tree, upper);
    assert tree[u] in tree && BranchFine(tree[u], tgs, |tgs|);
    l := FindNode(tree[u].children, lower);
    var leaf := tree[u].children[l];
    assert leaf in tree[u].children && LeafFine(leaf, tgs, |tgs|, upper);
  }

  lemma SameLeaf(tree: seq<Node>, tgs: seq<Talkgroup>, u: nat, l: nat, u': nat, l': nat)
    requires TreeFine(tree, tgs, |tgs|) && u < |tree| && l < |tree[u].children| && u' < |tree| &&
               l' < |tree[u'].children|
    requires tree[u].name == tree[u'].name && tree[u].children[l].name == tree[u'].children[l'].name
    ensures u == u' && l == l'
  {
    hide Members;
    assert u == u';
    assert tree[u] in tree && BranchFine(tree[u], tgs, |tgs|);
  }
}
