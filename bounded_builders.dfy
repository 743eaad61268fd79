/**
 * The depth-bounded builders of lib/index.js: `buildProcessTree` and
 * `filterProcessList`, each taking an explicit `maxDepth` counter, and the
 * depth `MAX_FILTER_DEPTH` that the public operations pass. The counter is
 * the only guard against parent cycles: there is no visited set.
 */
module BoundedBuilders {
  import opened Wrappers
  import opened ProcessRecords

  /** MAX_FILTER_DEPTH: the depth getProcessList and getProcessTree use. */
  const MaxFilterDepth: nat := 10

  /** A node of the tree handed to getProcessTree callbacks. */
  datatype ProcessTreeNode = ProcessTreeNode(
    pid: int,
    name: string,
    memory: Option<int>,
    commandLine: Option<string>,
    children: seq<ProcessTreeNode>)

  /**
   * `buildProcessTree(pid, list, maxDepth)` once the root is known to be
   * present: the node copies its fields from the first record with `pid`;
   * at depth 0 it has no children, otherwise one subtree per record whose
   * ppid is `pid`, in snapshot order, each built one level shallower.
   */
  function Subtree(list: seq<ProcessInfo>, pid: int, maxDepth: nat): (t: ProcessTreeNode)
    requires HasPid(list, pid)
    ensures t.pid == pid
    ensures var root := FirstWithPid(list, pid);
      t.name == root.name && t.memory == root.memory && t.commandLine == root.commandLine
    ensures maxDepth == 0 ==> t.children == []
    ensures maxDepth > 0 ==> |t.children| == |ChildRecords(list, pid)|
    ensures maxDepth > 0 ==>
      forall i | 0 <= i < |t.children| :: t.children[i].pid == ChildRecords(list, pid)[i].pid
    decreases maxDepth, 0
  {
    var root := FirstWithPid(list, pid);
    ProcessTreeNode(root.pid, root.name, root.memory, root.commandLine,
      if maxDepth == 0 then [] else Subtrees(list, ChildRecords(list, pid), maxDepth - 1))
  }

  /** `kids.map(c => buildProcessTree(c.pid, list, maxDepth))`: no entry is undefined. */
  function Subtrees(list: seq<ProcessInfo>, kids: seq<ProcessInfo>, maxDepth: nat): (ts: seq<ProcessTreeNode>)
    requires forall k | k in kids :: k in list
    ensures |ts| == |kids|
    ensures forall i | 0 <= i < |ts| :: ts[i].pid == kids[i].pid
    decreases maxDepth, |kids| + 1
  {
    if kids == [] then []
    else
      ListedHasPid(list, kids[0]);
      var head := Subtree(list, kids[0].pid, maxDepth);
      var tail := Subtrees(list, kids[1..], maxDepth);
      assert forall i | 1 <= i < |kids| :: tail[i - 1].pid == kids[i].pid;
      [head] + tail
  }

  /** lib/index.js `buildProcessTree`: undefined exactly when no record has the root pid. */
  function BuildProcessTree(rootPid: int, list: seq<ProcessInfo>, maxDepth: nat): (r: Option<ProcessTreeNode>)
    ensures r.None? <==> !HasPid(list, rootPid)
    ensures r.Some? ==> r.value.pid == rootPid
    ensures r.Some? ==> r.value.name == FirstWithPid(list, rootPid).name
    ensures r.Some? ==> r.value.memory == FirstWithPid(list, rootPid).memory
    ensures r.Some? ==> r.value.commandLine == FirstWithPid(list, rootPid).commandLine
  {
    if FindIndex(list, rootPid) == -1 then None else Some(Subtree(list, rootPid, maxDepth))
  }

  /**
   * `filterProcessList(pid, list, maxDepth)` once the root is known to be
   * present: nothing at depth -1, otherwise the root record followed by the
   * lists of its ppid-children one level shallower (a pre-order walk).
   */
  function SubtreeList(list: seq<ProcessInfo>, pid: int, maxDepth: int): (l: seq<ProcessInfo>)
    requires HasPid(list, pid) && maxDepth >= -1
    ensures l == [] <==> maxDepth == -1
    ensures maxDepth >= 0 ==> l[0] == FirstWithPid(list, pid)
    ensures maxDepth == 0 ==> l == [FirstWithPid(list, pid)]
    ensures forall k | k in l :: k in list
    decreases maxDepth + 1, 0
  {
    if maxDepth == -1 then []
    else [FirstWithPid(list, pid)] + SubtreeLists(list, ChildRecords(list, pid), maxDepth - 1)
  }

  /** The `reduce(concat)` over the children's lists, in snapshot order. */
  function SubtreeLists(list: seq<ProcessInfo>, kids: seq<ProcessInfo>, maxDepth: int): (l: seq<ProcessInfo>)
    requires forall k | k in kids :: k in list
    requires maxDepth >= -1
    ensures maxDepth == -1 ==> l == []
    ensures maxDepth >= 0 ==> |l| >= |kids|
    ensures forall k | k in l :: k in list
    decreases maxDepth + 1, |kids| + 1
  {
    if kids == [] then []
    else
      ListedHasPid(list, kids[0]);
      SubtreeList(list, kids[0].pid, maxDepth) + SubtreeLists(list, kids[1..], maxDepth)
  }

  /**
   * lib/index.js `filterProcessList`: undefined when the root is absent,
   * a check made before the depth check, so depth -1 on a present root
   * gives the empty list and not undefined.
   */
  function FilterProcessList(rootPid: int, list: seq<ProcessInfo>, maxDepth: int): (r: Option<seq<ProcessInfo>>)
    requires maxDepth >= -1
    ensures r.None? <==> !HasPid(list, rootPid)
    ensures r.Some? && maxDepth == -1 ==> r.value == []
    ensures r.Some? && maxDepth >= 0 ==> r.value != [] && r.value[0] == FirstWithPid(list, rootPid)
    ensures r.Some? && maxDepth == 0 ==> r.value == [FirstWithPid(list, rootPid)]
  {
    if FindIndex(list, rootPid) == -1 then None else Some(SubtreeList(list, rootPid, maxDepth))
  }
}
