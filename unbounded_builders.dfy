/**
 * The builders of lib/index.ts: `buildProcessTree(processList, rootPid)` and
 * `filterProcessList(rootPid, processList)`, with no depth bound and no
 * visited set. They stop only when the ppid chains below the root are
 * finite; each function therefore takes a ghost `height` (a bound on those
 * chains, see ProcessRecords.DepthAtMost) that serves the termination proof
 * alone and has no influence on the result.
 */
module UnboundedBuilders {
  import opened Wrappers
  import opened ProcessRecords

  /** A node of lib/index.ts's tree: pid, name and memory, no command line. */
  datatype ProcessTreeNode = ProcessTreeNode(
    pid: int,
    name: string,
    memory: Option<int>,
    children: seq<ProcessTreeNode>)

  /**
   * The tree under a present `pid`: fields from the first record with that
   * pid, then one subtree per record whose ppid is `pid`, in snapshot order.
   */
  function Subtree(list: seq<ProcessInfo>, pid: int, ghost height: nat): (t: ProcessTreeNode)
    requires HasPid(list, pid) && DepthAtMost(list, pid, height)
    ensures t.pid == pid
    ensures t.name == FirstWithPid(list, pid).name && t.memory == FirstWithPid(list, pid).memory
    ensures |t.children| == |ChildRecords(list, pid)|
    ensures forall i | 0 <= i < |t.children| :: t.children[i].pid == ChildRecords(list, pid)[i].pid
    decreases height, |list| + 1
  {
    var root := FirstWithPid(list, pid);
    ProcessTreeNode(root.pid, root.name, root.memory, Subtrees(list, ChildRecords(list, pid), height))
  }

  /** `kids.map(c => buildProcessTree(processList, c.pid))` for the children of a node of height `height`. */
  function Subtrees(list: seq<ProcessInfo>, kids: seq<ProcessInfo>, ghost height: nat): (ts: seq<ProcessTreeNode>)
    requires forall k | k in kids :: k in list && height > 0 && DepthAtMost(list, k.pid, height - 1)
    ensures |ts| == |kids|
    ensures forall i | 0 <= i < |ts| :: ts[i].pid == kids[i].pid
    decreases height, |kids|
  {
    if kids == [] then []
    else
      ListedHasPid(list, kids[0]);
      var head := Subtree(list, kids[0].pid, height - 1);
      var tail := Subtrees(list, kids[1..], height);
      assert forall i | 1 <= i < |kids| :: tail[i - 1].pid == kids[i].pid;
      [head] + tail
  }

  /**
   * lib/index.ts `buildProcessTree`: undefined exactly when the root is
   * absent; an absent root needs no bound, since nothing is walked.
   */
  function BuildProcessTree(list: seq<ProcessInfo>, rootPid: int, ghost height: nat): (r: Option<ProcessTreeNode>)
    requires HasPid(list, rootPid) ==> DepthAtMost(list, rootPid, height)
    ensures r.None? <==> !HasPid(list, rootPid)
    ensures r.Some? ==> r.value.pid == rootPid && r.value.name == FirstWithPid(list, rootPid).name
    ensures r.Some? ==> r.value.memory == FirstWithPid(list, rootPid).memory
  {
    if FindIndex(list, rootPid) == -1 then None else Some(Subtree(list, rootPid, height))
  }

  /** The pre-order list under a present `pid`: its record, then each child's list in order. */
  function SubtreeList(list: seq<ProcessInfo>, pid: int, ghost height: nat): (l: seq<ProcessInfo>)
    requires HasPid(list, pid) && DepthAtMost(list, pid, height)
    ensures l != [] && l[0] == FirstWithPid(list, pid)
    ensures |l| > |ChildRecords(list, pid)|
    ensures forall k | k in l :: k in list
    decreases height, |list| + 1
  {
    [FirstWithPid(list, pid)] + SubtreeLists(list, ChildRecords(list, pid), height)
  }

  /** The `reduce(concat)` over the children's lists. */
  function SubtreeLists(list: seq<ProcessInfo>, kids: seq<ProcessInfo>, ghost height: nat): (l: seq<ProcessInfo>)
    requires forall k | k in kids :: k in list && height > 0 && DepthAtMost(list, k.pid, height - 1)
    ensures |l| >= |kids|
    ensures forall k | k in l :: k in list
    decreases height, |kids|
  {
    if kids == [] then []
    else
      ListedHasPid(list, kids[0]);
      SubtreeList(list, kids[0].pid, height - 1) + SubtreeLists(list, kids[1..], height)
  }

  /** Every entry of the list is the first snapshot record with its pid. */
  lemma {:induction false} SubtreeListHoldsFirstRecords(list: seq<ProcessInfo>, pid: int, height: nat)
    requires HasPid(list, pid) && DepthAtMost(list, pid, height)
    ensures forall k | k in SubtreeList(list, pid, height) :: HasPid(list, k.pid) && k == FirstWithPid(list, k.pid)
    decreases height, |list| + 1
  {
    SubtreeListsHoldFirstRecords(list, ChildRecords(list, pid), height);
  }

  lemma {:induction false} SubtreeListsHoldFirstRecords(list: seq<ProcessInfo>, kids: seq<ProcessInfo>, height: nat)
    requires forall k | k in kids :: k in list && height > 0 && DepthAtMost(list, k.pid, height - 1)
    ensures forall k | k in SubtreeLists(list, kids, height) :: HasPid(list, k.pid) && k == FirstWithPid(list, k.pid)
    decreases height, |kids|
  {
    if kids != [] {
      ListedHasPid(list, kids[0]);
      SubtreeListHoldsFirstRecords(list, kids[0].pid, height - 1);
      SubtreeListsHoldFirstRecords(list, kids[1..], height);
    }
  }

  /** lib/index.ts `filterProcessList`: undefined when the root is absent, never empty otherwise. */
  function FilterProcessList(rootPid: int, list: seq<ProcessInfo>, ghost height: nat): (r: Option<seq<ProcessInfo>>)
    requires HasPid(list, rootPid) ==> DepthAtMost(list, rootPid, height)
    ensures r.None? <==> !HasPid(list, rootPid)
    ensures r.Some? ==> r.value != [] && r.value[0] == FirstWithPid(list, rootPid)
  {
    if FindIndex(list, rootPid) == -1 then None else Some(SubtreeList(list, rootPid, height))
  }
}
