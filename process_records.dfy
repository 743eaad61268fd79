/**
 * The records of one native process snapshot (IProcessInfo) and the three
 * array queries every builder is made of: `findIndex` on the pid, the record
 * at that index, and `filter` on the ppid.
 */
module ProcessRecords {
  import opened Wrappers

  /**
   * One process as the native enumeration reports it. `memory` and
   * `commandLine` are present only when the matching flag was requested;
   * the model never inspects them, it only copies them.
   */
  datatype ProcessInfo = ProcessInfo(
    pid: int,
    ppid: int,
    name: string,
    memory: Option<int>,
    commandLine: Option<string>)

  /** Some record of the snapshot carries this pid. */
  predicate HasPid(list: seq<ProcessInfo>, pid: int)
  {
    exists i | 0 <= i < |list| :: list[i].pid == pid
  }

  /** A record of the snapshot makes its own pid present. */
  lemma ListedHasPid(list: seq<ProcessInfo>, k: ProcessInfo)
    requires k in list
    ensures HasPid(list, k.pid)
  {
  }

  /** `list.findIndex(v => v.pid === pid)`: the first matching index, or -1. */
  function FindIndex(list: seq<ProcessInfo>, pid: int): (i: int)
    ensures -1 <= i < |list|
    ensures i == -1 <==> !HasPid(list, pid)
    ensures 0 <= i ==> list[i].pid == pid
    ensures 0 <= i ==> forall j | 0 <= j < i :: list[j].pid != pid
  {
    if list == [] then -1
    else if list[0].pid == pid then 0
    else
      var k := FindIndex(list[1..], pid);
      assert HasPid(list, pid) ==> HasPid(list[1..], pid) by {
        if HasPid(list, pid) {
          var j :| 0 <= j < |list| && list[j].pid == pid;
          assert list[1..][j - 1].pid == pid;
        }
      }
      if k == -1 then -1 else k + 1
  }

  /**
   * `list[list.findIndex(v => v.pid === pid)]`: the record a builder copies
   * for `pid`. When pids repeat, the earliest record wins.
   */
  function FirstWithPid(list: seq<ProcessInfo>, pid: int): (r: ProcessInfo)
    requires HasPid(list, pid)
    ensures r.pid == pid
  {
    list[FindIndex(list, pid)]
  }

  /** The record a builder copies is the earliest one carrying the pid. */
  lemma FirstWithPidIsEarliest(list: seq<ProcessInfo>, pid: int, i: int)
    requires 0 <= i < |list| && list[i].pid == pid
    requires forall j | 0 <= j < i :: list[j].pid != pid
    ensures FirstWithPid(list, pid) == list[i]
  {
  }

  /**
   * `list.filter(v => v.ppid === ppid)`: the records naming `ppid` as their
   * parent, in snapshot order.
   */
  function ChildRecords(list: seq<ProcessInfo>, ppid: int): (kids: seq<ProcessInfo>)
    ensures |kids| <= |list|
    ensures forall k | k in kids :: ChildOf(list, k, ppid)
  {
    if list == [] then []
    else (if list[0].ppid == ppid then [list[0]] else []) + ChildRecords(list[1..], ppid)
  }

  /** `k` is a record of the snapshot naming `pid` as its parent. */
  predicate ChildOf(list: seq<ProcessInfo>, k: ProcessInfo, pid: int)
  {
    k in list && k.ppid == pid
  }

  /** The filter keeps every record whose ppid matches. */
  lemma {:induction false} ChildRecordsComplete(list: seq<ProcessInfo>, ppid: int, k: ProcessInfo)
    requires k in list && k.ppid == ppid
    ensures k in ChildRecords(list, ppid)
  {
    if list[0] != k {
      ChildRecordsComplete(list[1..], ppid, k);
    }
  }

  /** On one record the filter keeps it exactly when its ppid matches. */
  lemma ChildRecordsOfOne(r: ProcessInfo, ppid: int)
    ensures ChildRecords([r], ppid) == if r.ppid == ppid then [r] else []
  {
    assert [r][1..] == [];
  }

  /**
   * Filtering a concatenation filters each part in turn: with
   * ChildRecordsOfOne this fixes both the snapshot order of the kept
   * records and one entry per matching record.
   */
  lemma {:induction false} ChildRecordsAppend(a: seq<ProcessInfo>, b: seq<ProcessInfo>, ppid: int)
    ensures ChildRecords(a + b, ppid) == ChildRecords(a, ppid) + ChildRecords(b, ppid)
  {
    if a == [] {
      assert a + b == b;
    } else {
      var head := if a[0].ppid == ppid then [a[0]] else [];
      assert (a + b)[1..] == a[1..] + b;
      assert ChildRecords(a + b, ppid) == head + ChildRecords(a[1..] + b, ppid);
      ChildRecordsAppend(a[1..], b, ppid);
      assert ChildRecords(a, ppid) == head + ChildRecords(a[1..], ppid);
    }
  }

  /** The filter is empty when no record names `ppid`. */
  lemma {:induction false} ChildRecordsEmpty(list: seq<ProcessInfo>, ppid: int)
    requires forall k | k in list :: k.ppid != ppid
    ensures ChildRecords(list, ppid) == []
  {
    if list != [] {
      assert list[0] in list;
      ChildRecordsEmpty(list[1..], ppid);
    }
  }

  /**
   * Every chain of ppid links running down from `pid` has at most `height`
   * links. The builders without a depth bound terminate on exactly the
   * snapshots where some such height exists for the root.
   */
  ghost predicate DepthAtMost(list: seq<ProcessInfo>, pid: int, height: nat)
    decreases height
  {
    forall k {:trigger ChildOf(list, k, pid)} | ChildOf(list, k, pid) :: height > 0 && DepthAtMost(list, k.pid, height - 1)
  }

  /** A bound that holds keeps holding when it is raised. */
  lemma {:induction false} DepthAtMostMonotone(list: seq<ProcessInfo>, pid: int, height: nat, higher: nat)
    requires DepthAtMost(list, pid, height) && height <= higher
    ensures DepthAtMost(list, pid, higher)
    decreases height
  {
    forall k | ChildOf(list, k, pid)
      ensures higher > 0 && DepthAtMost(list, k.pid, higher - 1)
    {
      DepthAtMostMonotone(list, k.pid, height - 1, higher - 1);
    }
  }

  /**
   * Each record of `cycle` is listed and names the one before it as its
   * parent, the first naming the last: a ppid cycle of the snapshot.
   */
  predicate IsCycle(list: seq<ProcessInfo>, cycle: seq<ProcessInfo>)
  {
    0 < |cycle| &&
    (forall j | 0 <= j < |cycle| :: cycle[j] in list) &&
    (forall j | 0 < j < |cycle| :: cycle[j].ppid == cycle[j - 1].pid) &&
    cycle[0].ppid == cycle[|cycle| - 1].pid
  }

  /** No pid on a ppid cycle has a bound on its chains. */
  lemma {:induction false} CycleHasNoHeight(list: seq<ProcessInfo>, cycle: seq<ProcessInfo>, i: nat, height: nat)
    requires IsCycle(list, cycle) && i < |cycle|
    ensures !DepthAtMost(list, cycle[i].pid, height)
    decreases height
  {
    var next := if i + 1 == |cycle| then 0 else i + 1;
    assert ChildOf(list, cycle[next], cycle[i].pid);
    if height > 0 {
      CycleHasNoHeight(list, cycle, next, height - 1);
    }
  }

  /**
   * `path` is a chain of listed records running down from `pid`, each the
   * ppid-child of the one before.
   */
  predicate IsDescent(list: seq<ProcessInfo>, pid: int, path: seq<ProcessInfo>)
  {
    (forall j | 0 <= j < |path| :: path[j] in list) &&
    (0 < |path| ==> path[0].ppid == pid) &&
    (forall j | 0 < j < |path| :: path[j].ppid == path[j - 1].pid)
  }

  /**
   * A chain of `|path|` links below `pid` whose last record has no bound
   * of the remaining height leaves `pid` without a bound of `height`.
   */
  lemma {:induction false} DescentKeepsNoHeight(list: seq<ProcessInfo>, pid: int, path: seq<ProcessInfo>, height: nat)
    requires IsDescent(list, pid, path) && 0 < |path|
    requires height >= |path| ==> !DepthAtMost(list, path[|path| - 1].pid, height - |path|)
    ensures !DepthAtMost(list, pid, height)
    decreases |path|
  {
    assert ChildOf(list, path[0], pid);
    if height > 0 && 1 < |path| {
      DescentKeepsNoHeight(list, path[0].pid, path[1..], height - 1);
    }
  }

  /**
   * A root from which a chain of ppid-children reaches a ppid cycle has no
   * bound: the builders without a depth bound never finish on it.
   */
  lemma RootReachingCycleHasNoHeight(list: seq<ProcessInfo>, root: int, path: seq<ProcessInfo>,
                                     cycle: seq<ProcessInfo>, height: nat)
    requires IsCycle(list, cycle) && IsDescent(list, root, path)
    requires if path == [] then root == cycle[0].pid else path[|path| - 1] == cycle[0]
    ensures !DepthAtMost(list, root, height)
  {
    if height >= |path| {
      CycleHasNoHeight(list, cycle, 0, height - |path|);
    }
    if path != [] {
      DescentKeepsNoHeight(list, root, path, height);
    }
  }

  /** The smallest cycle through two records: pid 1 under pid 2 under pid 1. */
  lemma TwoRecordCycleHasNoHeight(height: nat)
    ensures !DepthAtMost([ProcessInfo(1, 2, "a", None, None), ProcessInfo(2, 1, "b", None, None)], 1, height)
  {
    var list := [ProcessInfo(1, 2, "a", None, None), ProcessInfo(2, 1, "b", None, None)];
    assert IsCycle(list, list);
    CycleHasNoHeight(list, list, 0, height);
  }

  /**
   * A record that is its own parent makes every height fail: the recursion
   * without a depth bound never ends on its pid.
   */
  lemma {:induction false} SelfParentHasNoHeight(list: seq<ProcessInfo>, k: ProcessInfo, height: nat)
    requires k in list && k.ppid == k.pid
    ensures !DepthAtMost(list, k.pid, height)
    decreases height
  {
    assert ChildOf(list, k, k.pid);
    if height > 0 {
      SelfParentHasNoHeight(list, k, height - 1);
    }
  }
}
