/**
 * What lib/index.js's depth-bounded builders promise: a depth bound on every
 * path, the flat list being the tree read in pre-order, and the chain a
 * self-parenting record produces.
 */
module BoundedProperties {
  import opened Wrappers
  import opened ProcessRecords
  import opened BoundedBuilders

  /** No root-to-leaf path of `t` has more than `edges` parent-to-child links. */
  predicate EdgesAtMost(t: ProcessTreeNode, edges: nat)
    decreases t
  {
    forall c | c in t.children :: edges > 0 && EdgesAtMost(c, edges - 1)
  }

  /** The nodes of a tree, root first, each child's subtree in order, children stripped. */
  function Preorder(t: ProcessTreeNode): seq<ProcessTreeNode>
    decreases t
  {
    [t.(children := [])] + PreorderAll(t.children)
  }

  function PreorderAll(ts: seq<ProcessTreeNode>): seq<ProcessTreeNode>
    decreases ts
  {
    if ts == [] then [] else Preorder(ts[0]) + PreorderAll(ts[1..])
  }

  function NodeCount(t: ProcessTreeNode): nat
    decreases t
  {
    1 + NodeCountAll(t.children)
  }

  function NodeCountAll(ts: seq<ProcessTreeNode>): nat
    decreases ts
  {
    if ts == [] then 0 else NodeCount(ts[0]) + NodeCountAll(ts[1..])
  }

  /** A record seen as a tree node without children. */
  function AsLeaf(r: ProcessInfo): ProcessTreeNode
  {
    ProcessTreeNode(r.pid, r.name, r.memory, r.commandLine, [])
  }

  function AsLeaves(l: seq<ProcessInfo>): (ns: seq<ProcessTreeNode>)
    ensures |ns| == |l|
  {
    if l == [] then [] else [AsLeaf(l[0])] + AsLeaves(l[1..])
  }

  lemma {:induction false} AsLeavesAppend(a: seq<ProcessInfo>, b: seq<ProcessInfo>)
    ensures AsLeaves(a + b) == AsLeaves(a) + AsLeaves(b)
  {
    if a == [] {
      assert a + b == b;
    } else {
      assert (a + b)[1..] == a[1..] + b;
      AsLeavesAppend(a[1..], b);
    }
  }

  /** The number of nodes is the length of the pre-order walk. */
  lemma {:induction false} PreorderLength(t: ProcessTreeNode)
    ensures |Preorder(t)| == NodeCount(t)
    decreases t, 1
  {
    PreorderAllLength(t.children);
  }

  lemma {:induction false} PreorderAllLength(ts: seq<ProcessTreeNode>)
    ensures |PreorderAll(ts)| == NodeCountAll(ts)
    decreases ts, 0
  {
    if ts != [] {
      PreorderLength(ts[0]);
      PreorderAllLength(ts[1..]);
    }
  }

  /** A tree built at depth `maxDepth` has no path longer than `maxDepth` links. */
  lemma {:induction false} SubtreeDepthBounded(list: seq<ProcessInfo>, pid: int, maxDepth: nat)
    requires HasPid(list, pid)
    ensures EdgesAtMost(Subtree(list, pid, maxDepth), maxDepth)
    decreases maxDepth, 0
  {
    if maxDepth > 0 {
      SubtreesDepthBounded(list, ChildRecords(list, pid), maxDepth - 1);
    }
  }

  lemma {:induction false} SubtreesDepthBounded(list: seq<ProcessInfo>, kids: seq<ProcessInfo>, maxDepth: nat)
    requires forall k | k in kids :: k in list
    ensures forall t | t in Subtrees(list, kids, maxDepth) :: EdgesAtMost(t, maxDepth)
    decreases maxDepth, |kids| + 1
  {
    if kids != [] {
      ListedHasPid(list, kids[0]);
      SubtreeDepthBounded(list, kids[0].pid, maxDepth);
      SubtreesDepthBounded(list, kids[1..], maxDepth);
    }
  }

  /** Every tree getProcessTree can deliver stays within `maxDepth` links of its root. */
  lemma BuildProcessTreeDepthBounded(rootPid: int, list: seq<ProcessInfo>, maxDepth: nat)
    ensures var r := BuildProcessTree(rootPid, list, maxDepth);
      r.Some? ==> EdgesAtMost(r.value, maxDepth)
  {
    if HasPid(list, rootPid) {
      SubtreeDepthBounded(list, rootPid, maxDepth);
    }
  }

  /** The flat list is the tree of the same depth read in pre-order. */
  lemma {:induction false} SubtreeListIsPreorder(list: seq<ProcessInfo>, pid: int, maxDepth: nat)
    requires HasPid(list, pid)
    ensures AsLeaves(SubtreeList(list, pid, maxDepth)) == Preorder(Subtree(list, pid, maxDepth))
    decreases maxDepth, 0
  {
    var root := FirstWithPid(list, pid);
    var kids := ChildRecords(list, pid);
    var l := SubtreeList(list, pid, maxDepth);
    var t := Subtree(list, pid, maxDepth);
    var lc := if maxDepth == 0 then [] else SubtreeLists(list, kids, maxDepth - 1);
    assert l == [root] + lc;
    assert t.(children := []) == AsLeaf(root);
    if maxDepth > 0 {
      SubtreeListsArePreorder(list, kids, maxDepth - 1);
    }
    assert AsLeaves(lc) == PreorderAll(t.children);
    AsLeavesAppend([root], lc);
  }

  lemma {:induction false} SubtreeListsArePreorder(list: seq<ProcessInfo>, kids: seq<ProcessInfo>, maxDepth: nat)
    requires forall k | k in kids :: k in list
    ensures AsLeaves(SubtreeLists(list, kids, maxDepth)) == PreorderAll(Subtrees(list, kids, maxDepth))
    decreases maxDepth, |kids| + 1
  {
    if kids != [] {
      ListedHasPid(list, kids[0]);
      var ts := Subtrees(list, kids, maxDepth);
      assert ts[0] == Subtree(list, kids[0].pid, maxDepth);
      assert ts[1..] == Subtrees(list, kids[1..], maxDepth);
      SubtreeListIsPreorder(list, kids[0].pid, maxDepth);
      SubtreeListsArePreorder(list, kids[1..], maxDepth);
      AsLeavesAppend(SubtreeList(list, kids[0].pid, maxDepth), SubtreeLists(list, kids[1..], maxDepth));
    }
  }

  /**
   * For the same root, snapshot and depth, filterProcessList and
   * buildProcessTree agree on absence, and the list holds exactly the
   * tree's nodes in pre-order, as many as the tree has.
   */
  lemma FilterMatchesTree(rootPid: int, list: seq<ProcessInfo>, maxDepth: nat)
    ensures var l := FilterProcessList(rootPid, list, maxDepth);
      var t := BuildProcessTree(rootPid, list, maxDepth);
      && (l.None? <==> t.None?)
      && (l.Some? ==> AsLeaves(l.value) == Preorder(t.value) && |l.value| == NodeCount(t.value))
  {
    if HasPid(list, rootPid) {
      SubtreeListIsPreorder(list, rootPid, maxDepth);
      PreorderLength(Subtree(list, rootPid, maxDepth));
    }
  }

  /**
   * Every entry of the flat list is the first snapshot record with its pid:
   * the list says which records the tree's nodes were copied from.
   */
  lemma {:induction false} SubtreeListHoldsFirstRecords(list: seq<ProcessInfo>, pid: int, maxDepth: int)
    requires HasPid(list, pid) && maxDepth >= -1
    ensures forall k | k in SubtreeList(list, pid, maxDepth) :: HasPid(list, k.pid) && k == FirstWithPid(list, k.pid)
    decreases maxDepth + 1, 0
  {
    if maxDepth >= 0 {
      SubtreeListsHoldFirstRecords(list, ChildRecords(list, pid), maxDepth - 1);
    }
  }

  lemma {:induction false} SubtreeListsHoldFirstRecords(list: seq<ProcessInfo>, kids: seq<ProcessInfo>, maxDepth: int)
    requires forall k | k in kids :: k in list
    requires maxDepth >= -1
    ensures forall k | k in SubtreeLists(list, kids, maxDepth) :: HasPid(list, k.pid) && k == FirstWithPid(list, k.pid)
    decreases maxDepth + 1, |kids| + 1
  {
    if kids != [] {
      ListedHasPid(list, kids[0]);
      SubtreeListHoldsFirstRecords(list, kids[0].pid, maxDepth);
      SubtreeListsHoldFirstRecords(list, kids[1..], maxDepth);
    }
  }

  /** The straight chain of `links + 1` copies of `x`, each the only child of the one before. */
  function Chain(x: ProcessInfo, links: nat): ProcessTreeNode
  {
    ProcessTreeNode(x.pid, x.name, x.memory, x.commandLine, if links == 0 then [] else [Chain(x, links - 1)])
  }

  /**
   * A lone record that is its own parent yields, at depth d, a chain of
   * d + 1 nodes with its pid; the last one has no children.
   */
  lemma {:induction false} SelfParentTreeIsChain(x: ProcessInfo, maxDepth: nat)
    requires x.ppid == x.pid
    ensures BuildProcessTree(x.pid, [x], maxDepth) == Some(Chain(x, maxDepth))
  {
    assert HasPid([x], x.pid) by { assert [x][0].pid == x.pid; }
    SelfParentSubtreeIsChain(x, maxDepth);
  }

  lemma {:induction false} SelfParentSubtreeIsChain(x: ProcessInfo, maxDepth: nat)
    requires x.ppid == x.pid && HasPid([x], x.pid)
    ensures Subtree([x], x.pid, maxDepth) == Chain(x, maxDepth)
  {
    assert FirstWithPid([x], x.pid) == x;
    if maxDepth > 0 {
      assert ChildRecords([x], x.pid) == [x];
      SelfParentSubtreeIsChain(x, maxDepth - 1);
      assert Subtrees([x], [x], maxDepth - 1) == [Chain(x, maxDepth - 1)];
    }
  }

  /** The same record listed at depth d appears d + 1 times. */
  lemma {:induction false} SelfParentListRepeats(x: ProcessInfo, maxDepth: int)
    requires x.ppid == x.pid && maxDepth >= -1
    ensures FilterProcessList(x.pid, [x], maxDepth) == Some(seq(maxDepth + 1, _ => x))
  {
    assert HasPid([x], x.pid) by { assert [x][0].pid == x.pid; }
    SelfParentSubtreeListRepeats(x, maxDepth);
  }

  lemma {:induction false} SelfParentSubtreeListRepeats(x: ProcessInfo, maxDepth: int)
    requires x.ppid == x.pid && maxDepth >= -1 && HasPid([x], x.pid)
    ensures SubtreeList([x], x.pid, maxDepth) == seq(maxDepth + 1, _ => x)
    decreases maxDepth + 1
  {
    if maxDepth >= 0 {
      assert FirstWithPid([x], x.pid) == x;
      assert ChildRecords([x], x.pid) == [x];
      SelfParentSubtreeListRepeats(x, maxDepth - 1);
      assert SubtreeLists([x], [x], maxDepth - 1) == seq(maxDepth, _ => x);
    }
  }

  /** The maximum-search-depth cases: record {pid 0, ppid 0} at depth 3. */
  lemma MaximumSearchDepthExample()
    ensures var x := ProcessInfo(0, 0, "0", None, None);
      var t := BuildProcessTree(0, [x], 3).value;
      var l := FilterProcessList(0, [x], 3).value;
      && t.pid == 0 && |t.children| == 1
      && t.children[0].pid == 0 && |t.children[0].children| == 1
      && t.children[0].children[0].pid == 0 && |t.children[0].children[0].children| == 1
      && t.children[0].children[0].children[0].pid == 0
      && t.children[0].children[0].children[0].children == []
      && |l| == 4 && l[0].pid == 0 && l[1].pid == 0 && l[2].pid == 0 && l[3].pid == 0
  {
    var x := ProcessInfo(0, 0, "0", None, None);
    SelfParentTreeIsChain(x, 3);
    SelfParentListRepeats(x, 3);
  }
}
