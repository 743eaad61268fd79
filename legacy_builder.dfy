/**
 * The first version, index.js: `buildProcessTree(processList, rootPid)` with
 * no "not found" check and no depth bound, and `getProcessTree(rootPid)`,
 * which applies it to one synchronous snapshot. A missing root makes the
 * source read `.pid` of `processList[-1]`, which is undefined, and throw;
 * the model states that as a precondition. As in UnboundedBuilders, the
 * ghost `height` only carries the termination argument.
 */
module LegacyBuilder {
  import opened ProcessRecords

  /** A node of index.js's tree: pid and name only. */
  datatype ProcessTreeNode = ProcessTreeNode(pid: int, name: string, children: seq<ProcessTreeNode>)

  /**
   * index.js `buildProcessTree`: the root's pid and name from the first record
   * with that pid, and one subtree per record whose ppid is the root, in order.
   */
  function BuildProcessTree(list: seq<ProcessInfo>, rootPid: int, ghost height: nat): (t: ProcessTreeNode)
    requires HasPid(list, rootPid) && DepthAtMost(list, rootPid, height)
    ensures t.pid == rootPid && t.name == FirstWithPid(list, rootPid).name
    ensures |t.children| == |ChildRecords(list, rootPid)|
    ensures forall i | 0 <= i < |t.children| :: t.children[i].pid == ChildRecords(list, rootPid)[i].pid
    decreases height, |list| + 1
  {
    var rootProcess := FirstWithPid(list, rootPid);
    ProcessTreeNode(rootProcess.pid, rootProcess.name, BuildChildren(list, ChildRecords(list, rootPid), height))
  }

  /** `childIndexes.map(c => buildProcessTree(processList, c.pid))` for a node of height `height`. */
  function BuildChildren(list: seq<ProcessInfo>, kids: seq<ProcessInfo>, ghost height: nat): (ts: seq<ProcessTreeNode>)
    requires forall k | k in kids :: k in list && height > 0 && DepthAtMost(list, k.pid, height - 1)
    ensures |ts| == |kids|
    ensures forall i | 0 <= i < |ts| :: ts[i].pid == kids[i].pid
    decreases height, |kids|
  {
    if kids == [] then []
    else
      ListedHasPid(list, kids[0]);
      var head := BuildProcessTree(list, kids[0].pid, height - 1);
      var tail := BuildChildren(list, kids[1..], height);
      assert forall i | 1 <= i < |kids| :: tail[i - 1].pid == kids[i].pid;
      [head] + tail
  }

  /**
   * index.js `getProcessTree(rootPid)`: the native list is read once,
   * synchronously, and handed to the builder; no queue, no gate.
   */
  function GetProcessTree(snapshot: seq<ProcessInfo>, rootPid: int, ghost height: nat): (t: ProcessTreeNode)
    requires HasPid(snapshot, rootPid) && DepthAtMost(snapshot, rootPid, height)
    ensures t.pid == rootPid
    ensures |t.children| == |ChildRecords(snapshot, rootPid)|
  {
    BuildProcessTree(snapshot, rootPid, height)
  }
}
