/**
 * How the three generations of the builders relate. lib/index.js bounds the
 * depth by a counter; lib/index.ts and index.js do not. On a snapshot whose
 * ppid chains below the root have at most `height` links, any depth of at
 * least `height` (MAX_FILTER_DEPTH = 10 included) gives what the unbounded
 * builders give, up to the fields each generation copies.
 */
module VersionAgreement {
  import opened ProcessRecords
  import B = BoundedBuilders
  import U = UnboundedBuilders
  import L = LegacyBuilder

  /** A lib/index.js node seen as a lib/index.ts node: the command line dropped. */
  function WithoutCommandLine(t: B.ProcessTreeNode): U.ProcessTreeNode
    decreases t
  {
    U.ProcessTreeNode(t.pid, t.name, t.memory, AllWithoutCommandLine(t.children))
  }

  function AllWithoutCommandLine(ts: seq<B.ProcessTreeNode>): (us: seq<U.ProcessTreeNode>)
    decreases ts
  {
    if ts == [] then [] else [WithoutCommandLine(ts[0])] + AllWithoutCommandLine(ts[1..])
  }

  /** A lib/index.ts node seen as an index.js node: the memory dropped. */
  function WithoutMemory(t: U.ProcessTreeNode): L.ProcessTreeNode
    decreases t
  {
    L.ProcessTreeNode(t.pid, t.name, AllWithoutMemory(t.children))
  }

  function AllWithoutMemory(ts: seq<U.ProcessTreeNode>): seq<L.ProcessTreeNode>
    decreases ts
  {
    if ts == [] then [] else [WithoutMemory(ts[0])] + AllWithoutMemory(ts[1..])
  }

  lemma NoChildrenAtHeightZero(list: seq<ProcessInfo>, pid: int)
    requires DepthAtMost(list, pid, 0)
    ensures ChildRecords(list, pid) == []
  {
    assert forall k | k in list :: !ChildOf(list, k, pid);
    ChildRecordsEmpty(list, pid);
  }

  lemma ChildrenWithinHeight(list: seq<ProcessInfo>, pid: int, height: nat)
    requires DepthAtMost(list, pid, height)
    ensures forall k | k in ChildRecords(list, pid) :: k in list && height > 0 && DepthAtMost(list, k.pid, height - 1)
  {
  }

  /** Bounded and unbounded lists agree below a present root when the depth covers the height. */
  lemma {:induction false} SubtreeListsAgree(list: seq<ProcessInfo>, pid: int, maxDepth: nat, height: nat)
    requires HasPid(list, pid) && DepthAtMost(list, pid, height) && height <= maxDepth
    ensures B.SubtreeList(list, pid, maxDepth) == U.SubtreeList(list, pid, height)
    decreases height, |list| + 1
  {
    ChildListsAgree(list, ChildRecords(list, pid), maxDepth - 1, height);
  }

  lemma {:induction false} ChildListsAgree(list: seq<ProcessInfo>, kids: seq<ProcessInfo>, maxDepth: int, height: nat)
    requires forall k | k in kids :: k in list && height > 0 && DepthAtMost(list, k.pid, height - 1)
    requires -1 <= maxDepth && height <= maxDepth + 1
    ensures B.SubtreeLists(list, kids, maxDepth) == U.SubtreeLists(list, kids, height)
    decreases height, |kids|
  {
    if kids != [] {
      ListedHasPid(list, kids[0]);
      SubtreeListsAgree(list, kids[0].pid, maxDepth, height - 1);
      ChildListsAgree(list, kids[1..], maxDepth, height);
    }
  }

  /**
   * lib/index.js `filterProcessList` at any depth covering the height equals
   * lib/index.ts `filterProcessList`, including on an absent root.
   */
  lemma FilterVersionsAgree(rootPid: int, list: seq<ProcessInfo>, maxDepth: nat, height: nat)
    requires HasPid(list, rootPid) ==> DepthAtMost(list, rootPid, height)
    requires height <= maxDepth
    ensures B.FilterProcessList(rootPid, list, maxDepth) == U.FilterProcessList(rootPid, list, height)
  {
    if HasPid(list, rootPid) {
      SubtreeListsAgree(list, rootPid, maxDepth, height);
    }
  }

  /** Bounded and unbounded trees agree below a present root when the depth covers the height. */
  lemma {:induction false} SubtreesAgree(list: seq<ProcessInfo>, pid: int, maxDepth: nat, height: nat)
    requires HasPid(list, pid) && DepthAtMost(list, pid, height) && height <= maxDepth
    ensures WithoutCommandLine(B.Subtree(list, pid, maxDepth)) == U.Subtree(list, pid, height)
    decreases height, |list| + 2
  {
    if maxDepth == 0 {
      LeavesAgree(list, pid, height);
    } else {
      InnerNodesAgree(list, pid, maxDepth, height);
    }
  }

  lemma LeavesAgree(list: seq<ProcessInfo>, pid: int, height: nat)
    requires HasPid(list, pid) && DepthAtMost(list, pid, height) && height == 0
    ensures WithoutCommandLine(B.Subtree(list, pid, 0)) == U.Subtree(list, pid, height)
  {
    NoChildrenAtHeightZero(list, pid);
    assert U.Subtrees(list, ChildRecords(list, pid), height) == [];
  }

  lemma {:induction false} InnerNodesAgree(list: seq<ProcessInfo>, pid: int, maxDepth: nat, height: nat)
    requires HasPid(list, pid) && DepthAtMost(list, pid, height) && height <= maxDepth && 0 < maxDepth
    ensures WithoutCommandLine(B.Subtree(list, pid, maxDepth)) == U.Subtree(list, pid, height)
    decreases height, |list| + 1
  {
    var kids := ChildRecords(list, pid);
    var b := B.Subtree(list, pid, maxDepth);
    var u := U.Subtree(list, pid, height);
    var bc := B.Subtrees(list, kids, maxDepth - 1);
    var uc := U.Subtrees(list, kids, height);
    ChildrenWithinHeight(list, pid, height);
    ChildTreesAgree(list, kids, maxDepth - 1, height);
    assert b.children == bc;
    assert u.children == uc;
    NodeAgrees(b, u, bc, uc);
  }

  lemma NodeAgrees(b: B.ProcessTreeNode, u: U.ProcessTreeNode, bc: seq<B.ProcessTreeNode>, uc: seq<U.ProcessTreeNode>)
    requires b.pid == u.pid && b.name == u.name && b.memory == u.memory
    requires b.children == bc && u.children == uc && AllWithoutCommandLine(bc) == uc
    ensures WithoutCommandLine(b) == u
  {
  }

  lemma {:induction false} ChildTreesAgree(list: seq<ProcessInfo>, kids: seq<ProcessInfo>, maxDepth: nat, height: nat)
    requires forall k | k in kids :: k in list && height > 0 && DepthAtMost(list, k.pid, height - 1)
    requires height <= maxDepth + 1
    ensures AllWithoutCommandLine(B.Subtrees(list, kids, maxDepth)) == U.Subtrees(list, kids, height)
    decreases height, |kids|
  {
    if kids != [] {
      ListedHasPid(list, kids[0]);
      var ts := B.Subtrees(list, kids, maxDepth);
      assert ts[0] == B.Subtree(list, kids[0].pid, maxDepth);
      assert ts[1..] == B.Subtrees(list, kids[1..], maxDepth);
      SubtreesAgree(list, kids[0].pid, maxDepth, height - 1);
      ChildTreesAgree(list, kids[1..], maxDepth, height);
    }
  }

  /**
   * lib/index.js `buildProcessTree` at any depth covering the height is
   * lib/index.ts `buildProcessTree` with command lines added.
   */
  lemma TreeVersionsAgree(rootPid: int, list: seq<ProcessInfo>, maxDepth: nat, height: nat)
    requires HasPid(list, rootPid) ==> DepthAtMost(list, rootPid, height)
    requires height <= maxDepth
    ensures var b := B.BuildProcessTree(rootPid, list, maxDepth);
      var u := U.BuildProcessTree(list, rootPid, height);
      (b.None? <==> u.None?) && (b.Some? ==> WithoutCommandLine(b.value) == u.value)
  {
    if HasPid(list, rootPid) {
      SubtreesAgree(list, rootPid, maxDepth, height);
    }
  }

  /** lib/index.ts and index.js build the same tree below a present root, up to memory. */
  lemma {:induction false} LegacySubtreesAgree(list: seq<ProcessInfo>, pid: int, height: nat)
    requires HasPid(list, pid) && DepthAtMost(list, pid, height)
    ensures WithoutMemory(U.Subtree(list, pid, height)) == L.BuildProcessTree(list, pid, height)
    decreases height, |list| + 1
  {
    LegacyChildrenAgree(list, ChildRecords(list, pid), height);
  }

  lemma {:induction false} LegacyChildrenAgree(list: seq<ProcessInfo>, kids: seq<ProcessInfo>, height: nat)
    requires forall k | k in kids :: k in list && height > 0 && DepthAtMost(list, k.pid, height - 1)
    ensures AllWithoutMemory(U.Subtrees(list, kids, height)) == L.BuildChildren(list, kids, height)
    decreases height, |kids|
  {
    if kids != [] {
      ListedHasPid(list, kids[0]);
      var ts := U.Subtrees(list, kids, height);
      assert ts[0] == U.Subtree(list, kids[0].pid, height - 1);
      assert ts[1..] == U.Subtrees(list, kids[1..], height);
      LegacySubtreesAgree(list, kids[0].pid, height - 1);
      LegacyChildrenAgree(list, kids[1..], height);
    }
  }

  /**
   * index.js `getProcessTree` on a snapshot whose root is present is
   * lib/index.ts `buildProcessTree` without memory; lib/index.ts added the
   * "not found" answer for the case where index.js throws.
   */
  lemma LegacyTreeAgrees(snapshot: seq<ProcessInfo>, rootPid: int, height: nat)
    requires HasPid(snapshot, rootPid) && DepthAtMost(snapshot, rootPid, height)
    ensures var u := U.BuildProcessTree(snapshot, rootPid, height);
      u.Some? && WithoutMemory(u.value) == L.GetProcessTree(snapshot, rootPid, height)
  {
    LegacySubtreesAgree(snapshot, rootPid, height);
  }
}
