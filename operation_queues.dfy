/**
 * The request queues of lib/index.ts: `requestQueue` holds one queue per
 * public operation. `getProcessList` and `getProcessTree` share the gate
 * `requestInProgress` (one native process-list fetch at a time) and
 * `getProcessCpuUsage` has a gate of its own, `cpuUsageRequestInProgress`.
 * Each native callback drains its own operation's queue.
 *
 * As in SharedGateCoalescer, starting a native call is reported to the
 * caller and its completion is a method taking the native result; the calls
 * the callbacks make while a queue is drained are parameters.
 */
module OperationQueues {
  import opened Wrappers
  import opened ProcessRecords
  import opened UnboundedBuilders
  import opened QueuedCalls

  /** IProcessCpuInfo: a record with the cpu percentage the native sampler adds. */
  datatype ProcessCpuInfo = ProcessCpuInfo(process: ProcessInfo, cpu: Option<real>)

  /** An entry `{callback}` of `requestQueue.getProcessCpuUsage`. */
  datatype CpuRequest = CpuRequest(callback: nat)

  /** A `getProcessCpuUsage(processList, callback)` call. */
  datatype CpuCall = CpuCall(callback: nat, processList: seq<ProcessInfo>)

  /** What a list or tree callback receives: the lib/index.ts builder for its root pid. */
  datatype Answer =
    | ListAnswer(list: Option<seq<ProcessInfo>>)
    | TreeAnswer(tree: Option<ProcessTreeNode>)

  datatype Delivery = Delivery(callback: nat, answer: Answer)

  datatype CpuDelivery = CpuDelivery(callback: nat, annotated: seq<ProcessCpuInfo>)

  /**
   * The builders walk every root a drain serves to the end: each present
   * root has a bound `height` on its ppid chains.
   */
  ghost predicate WalksEnd(snapshot: seq<ProcessInfo>, served: seq<Request>, height: nat)
  {
    forall i | 0 <= i < |served| ::
      HasPid(snapshot, served[i].rootPid) ==> DepthAtMost(snapshot, served[i].rootPid, height)
  }

  /** `filterProcessList(r.rootPid, processList)` or `buildProcessTree(processList, r.rootPid)`. */
  function AnswerFor(op: Operation, rootPid: int, snapshot: seq<ProcessInfo>, ghost height: nat): Answer
    requires HasPid(snapshot, rootPid) ==> DepthAtMost(snapshot, rootPid, height)
  {
    match op
    case ListOp => ListAnswer(FilterProcessList(rootPid, snapshot, height))
    case TreeOp => TreeAnswer(BuildProcessTree(snapshot, rootPid, height))
  }

  /** The answers a drain of `served` hands out, callback by callback. */
  ghost predicate ServedInOrder(delivered: seq<Delivery>, served: seq<Request>, op: Operation,
                                snapshot: seq<ProcessInfo>, height: nat)
  {
    WalksEnd(snapshot, served, height) &&
    |delivered| == |served| &&
    forall i | 0 <= i < |served| ::
      delivered[i] == Delivery(served[i].callback, AnswerFor(op, served[i].rootPid, snapshot, height))
  }

  /** Serving the next entry extends the deliveries by its answer. */
  lemma ServedInOrderStep(delivered: seq<Delivery>, served: seq<Request>, i: nat, op: Operation,
                          snapshot: seq<ProcessInfo>, height: nat)
    requires i < |served| && WalksEnd(snapshot, served, height)
    requires ServedInOrder(delivered, served[..i], op, snapshot, height)
    ensures ServedInOrder(delivered + [Delivery(served[i].callback, AnswerFor(op, served[i].rootPid, snapshot, height))],
      served[..i + 1], op, snapshot, height)
  {
  }

  /** The annotated list every served cpu callback receives. */
  predicate AllReceive(delivered: seq<CpuDelivery>, served: seq<CpuRequest>, annotated: seq<ProcessCpuInfo>)
  {
    |delivered| == |served| &&
    forall i | 0 <= i < |served| :: delivered[i] == CpuDelivery(served[i].callback, annotated)
  }

  /** The cpu entries `calls`, made one after the other, push. */
  function CpuPushed(calls: seq<CpuCall>): (rs: seq<CpuRequest>)
    ensures |rs| == |calls|
    ensures forall i | 0 <= i < |calls| :: rs[i] == CpuRequest(calls[i].callback)
  {
    if calls == [] then []
    else CpuPushed(calls[..|calls| - 1]) + [CpuRequest(calls[|calls| - 1].callback)]
  }

  /** Pushing two batches of cpu calls in turn appends their entries in turn. */
  lemma {:induction false} CpuPushedAppend(a: seq<CpuCall>, b: seq<CpuCall>)
    ensures CpuPushed(a + b) == CpuPushed(a) + CpuPushed(b)
    decreases |b|
  {
    if b == [] {
      assert a + b == a;
    } else {
      var front := b[..|b| - 1];
      assert (a + b)[..|a + b| - 1] == a + front;
      CpuPushedAppend(a, front);
    }
  }

  class RequestQueue {
    var requestInProgress: bool
    var cpuUsageRequestInProgress: bool
    var processListQueue: seq<Request>
    var processTreeQueue: seq<Request>
    var cpuUsageQueue: seq<CpuRequest>
    /** The operation whose native process-list callback is outstanding, if any. */
    var pendingFetch: Option<Operation>

    function Queue(op: Operation): seq<Request>
      reads this
    {
      if op == ListOp then processListQueue else processTreeQueue
    }

    /**
     * Each gate is closed exactly while its native callback is
     * outstanding. The process-list callback's queue holds the request that
     * started it; the cpu queue is never left behind, since every cpu call
     * either starts a fetch or joins one that will drain it.
     */
    ghost predicate Valid()
      reads this
    {
      (requestInProgress <==> pendingFetch.Some?) &&
      (pendingFetch.Some? ==> Queue(pendingFetch.value) != []) &&
      (cpuUsageRequestInProgress <==> cpuUsageQueue != [])
    }

    /** The state at module load: both gates open, the three queues empty. */
    constructor()
      ensures Valid() && !requestInProgress && !cpuUsageRequestInProgress && pendingFetch == None
      ensures processListQueue == [] && processTreeQueue == [] && cpuUsageQueue == []
    {
      requestInProgress := false;
      cpuUsageRequestInProgress := false;
      processListQueue := [];
      processTreeQueue := [];
      cpuUsageQueue := [];
      pendingFetch := None;
    }

    /**
     * `getProcessList`: the request joins the list queue; a native fetch
     * starts, with `flags || 0`, only when the shared gate is open.
     */
    method GetProcessList(rootPid: int, callback: nat, flags: Option<int>) returns (fetch: Option<int>)
      requires Valid()
      modifies this
      ensures Valid() && requestInProgress
      ensures processListQueue == old(processListQueue) + [Request(callback, rootPid)]
      ensures processTreeQueue == old(processTreeQueue)
      ensures cpuUsageQueue == old(cpuUsageQueue) && cpuUsageRequestInProgress == old(cpuUsageRequestInProgress)
      ensures fetch.Some? <==> !old(requestInProgress)
      ensures fetch.Some? ==> fetch.value == FlagsOrZero(flags) && pendingFetch == Some(ListOp)
      ensures fetch.None? ==> pendingFetch == old(pendingFetch)
    {
      processListQueue := processListQueue + [Request(callback, rootPid)];
      if !requestInProgress {
        requestInProgress := true;
        pendingFetch := Some(ListOp);
        fetch := Some(FlagsOrZero(flags));
      } else {
        fetch := None;
      }
    }

    /**
     * `getProcessTree`: the request joins the tree queue; a native fetch
     * starts, with `flags || 0`, only when the shared gate is open, so a
     * list fetch in flight keeps it waiting.
     */
    method GetProcessTree(rootPid: int, callback: nat, flags: Option<int>) returns (fetch: Option<int>)
      requires Valid()
      modifies this
      ensures Valid() && requestInProgress
      ensures processTreeQueue == old(processTreeQueue) + [Request(callback, rootPid)]
      ensures processListQueue == old(processListQueue)
      ensures cpuUsageQueue == old(cpuUsageQueue) && cpuUsageRequestInProgress == old(cpuUsageRequestInProgress)
      ensures fetch.Some? <==> !old(requestInProgress)
      ensures fetch.Some? ==> fetch.value == FlagsOrZero(flags) && pendingFetch == Some(TreeOp)
      ensures fetch.None? ==> pendingFetch == old(pendingFetch)
    {
      processTreeQueue := processTreeQueue + [Request(callback, rootPid)];
      if !requestInProgress {
        requestInProgress := true;
        pendingFetch := Some(TreeOp);
        fetch := Some(FlagsOrZero(flags));
      } else {
        fetch := None;
      }
    }

    /**
     * `getProcessCpuUsage`: the callback joins the cpu queue; the native
     * sampler is called, with this caller's list, only when the cpu gate is
     * open. `sent` is the list handed to it, if it was called.
     */
    method GetProcessCpuUsage(processList: seq<ProcessInfo>, callback: nat) returns (sent: Option<seq<ProcessInfo>>)
      requires Valid()
      modifies this
      ensures Valid() && cpuUsageRequestInProgress
      ensures cpuUsageQueue == old(cpuUsageQueue) + [CpuRequest(callback)]
      ensures processListQueue == old(processListQueue) && processTreeQueue == old(processTreeQueue)
      ensures requestInProgress == old(requestInProgress) && pendingFetch == old(pendingFetch)
      ensures sent.Some? <==> !old(cpuUsageRequestInProgress)
      ensures sent.Some? ==> sent.value == processList
    {
      cpuUsageQueue := cpuUsageQueue + [CpuRequest(callback)];
      if !cpuUsageRequestInProgress {
        cpuUsageRequestInProgress := true;
        sent := Some(processList);
      } else {
        sent := None;
      }
    }

    /** A list or tree call, sent to `getProcessList` or `getProcessTree` by its operation. */
    method Dispatch(c: Call) returns (fetch: Option<int>)
      requires Valid()
      modifies this
      ensures Valid() && requestInProgress
      ensures processListQueue == old(processListQueue) + (if c.op == ListOp then [c.request] else [])
      ensures processTreeQueue == old(processTreeQueue) + (if c.op == TreeOp then [c.request] else [])
      ensures cpuUsageQueue == old(cpuUsageQueue) && cpuUsageRequestInProgress == old(cpuUsageRequestInProgress)
      ensures fetch.Some? <==> !old(requestInProgress)
      ensures fetch.Some? ==> fetch.value == FlagsOrZero(c.flags) && pendingFetch == Some(c.op)
      ensures fetch.None? ==> pendingFetch == old(pendingFetch)
    {
      if c.op == ListOp {
        fetch := GetProcessList(c.request.rootPid, c.request.callback, c.flags);
      } else {
        fetch := GetProcessTree(c.request.rootPid, c.request.callback, c.flags);
      }
    }

    /**
     * The list and tree calls one callback makes while the shared gate is
     * closed: none starts a fetch. `fetches[j]` is what call j reports.
     */
    method Reenter(calls: seq<Call>) returns (fetches: seq<Option<int>>)
      requires Valid() && requestInProgress
      modifies this
      ensures Valid() && requestInProgress && pendingFetch == old(pendingFetch)
      ensures fetches == Nones(|calls|)
      ensures processListQueue == old(processListQueue) + Pushed(calls, ListOp)
      ensures processTreeQueue == old(processTreeQueue) + Pushed(calls, TreeOp)
      ensures cpuUsageQueue == old(cpuUsageQueue) && cpuUsageRequestInProgress == old(cpuUsageRequestInProgress)
    {
      fetches := [];
      var j := 0;
      while j < |calls|
        invariant 0 <= j <= |calls|
        invariant Valid() && requestInProgress && pendingFetch == old(pendingFetch)
        invariant processListQueue == old(processListQueue) + Pushed(calls[..j], ListOp)
        invariant processTreeQueue == old(processTreeQueue) + Pushed(calls[..j], TreeOp)
        invariant cpuUsageQueue == old(cpuUsageQueue) && cpuUsageRequestInProgress == old(cpuUsageRequestInProgress)
        invariant fetches == Nones(j)
      {
        var fetch := Dispatch(calls[j]);
        assert fetch == None;
        assert Nones<int>(j + 1) == Nones<int>(j) + [None];
        fetches := fetches + [fetch];
        PushedStep(old(processListQueue), calls, j, ListOp);
        PushedStep(old(processTreeQueue), calls, j, TreeOp);
        j := j + 1;
      }
      assert calls[..j] == calls;
    }

    /**
     * `requestQueue[op].forEach(...)` while the shared gate stays closed:
     * the entries present when it starts are visited in order, each
     * callback receiving the answer for its own root pid, and the callback
     * at index i makes the calls `pushedBy[i]`, which start no fetch.
     */
    method ForEachRequest(op: Operation, snapshot: seq<ProcessInfo>, pushedBy: seq<seq<Call>>, ghost height: nat)
      returns (delivered: seq<Delivery>, fetches: seq<Option<int>>)
      requires Valid() && pendingFetch == Some(op)
      requires |pushedBy| == |Queue(op)| && WalksEnd(snapshot, Queue(op), height)
      modifies this
      ensures Valid() && pendingFetch == Some(op)
      ensures fetches == Nones(|Flat(pushedBy)|)
      ensures ServedInOrder(delivered, old(Queue(op)), op, snapshot, height)
      ensures processListQueue == old(processListQueue) + Pushed(Flat(pushedBy), ListOp)
      ensures processTreeQueue == old(processTreeQueue) + Pushed(Flat(pushedBy), TreeOp)
      ensures cpuUsageQueue == old(cpuUsageQueue) && cpuUsageRequestInProgress == old(cpuUsageRequestInProgress)
    {
      var served := Queue(op);
      delivered, fetches := [], [];
      var i := 0;
      while i < |served|
        invariant 0 <= i <= |served|
        invariant Valid() && pendingFetch == Some(op)
        invariant processListQueue == old(processListQueue) + Pushed(Flat(pushedBy[..i]), ListOp)
        invariant processTreeQueue == old(processTreeQueue) + Pushed(Flat(pushedBy[..i]), TreeOp)
        invariant cpuUsageQueue == old(cpuUsageQueue) && cpuUsageRequestInProgress == old(cpuUsageRequestInProgress)
        invariant ServedInOrder(delivered, served[..i], op, snapshot, height)
        invariant fetches == Nones(|Flat(pushedBy[..i])|)
      {
        delivered, fetches := ServeNext(op, snapshot, served, pushedBy, i, height,
                                        old(processListQueue), old(processTreeQueue), delivered, fetches);
        i := i + 1;
      }
      assert served[..i] == served;
      assert pushedBy[..i] == pushedBy;
    }

    /**
     * One step of the `forEach`: the callback of entry i receives its
     * answer, then makes the calls `pushedBy[i]`, which start no fetch.
     */
    method ServeNext(op: Operation, snapshot: seq<ProcessInfo>, served: seq<Request>, pushedBy: seq<seq<Call>>,
                     i: nat, ghost height: nat, ghost listStart: seq<Request>, ghost treeStart: seq<Request>,
                     delivered: seq<Delivery>, fetches: seq<Option<int>>)
      returns (delivered': seq<Delivery>, fetches': seq<Option<int>>)
      requires i < |served| == |pushedBy| && WalksEnd(snapshot, served, height)
      requires Valid() && pendingFetch == Some(op)
      requires processListQueue == listStart + Pushed(Flat(pushedBy[..i]), ListOp)
      requires processTreeQueue == treeStart + Pushed(Flat(pushedBy[..i]), TreeOp)
      requires ServedInOrder(delivered, served[..i], op, snapshot, height)
      requires fetches == Nones(|Flat(pushedBy[..i])|)
      modifies this
      ensures Valid() && pendingFetch == Some(op)
      ensures processListQueue == listStart + Pushed(Flat(pushedBy[..i + 1]), ListOp)
      ensures processTreeQueue == treeStart + Pushed(Flat(pushedBy[..i + 1]), TreeOp)
      ensures cpuUsageQueue == old(cpuUsageQueue) && cpuUsageRequestInProgress == old(cpuUsageRequestInProgress)
      ensures ServedInOrder(delivered', served[..i + 1], op, snapshot, height)
      ensures fetches' == Nones(|Flat(pushedBy[..i + 1])|)
    {
      var r := served[i];
      ServedInOrderStep(delivered, served, i, op, snapshot, height);
      delivered' := delivered + [Delivery(r.callback, AnswerFor(op, r.rootPid, snapshot, height))];
      var more := Reenter(pushedBy[i]);
      NonesByNext<Call, int>(pushedBy, i);
      fetches' := fetches + more;
      PushedByNext(listStart, pushedBy, i, ListOp);
      PushedByNext(treeStart, pushedBy, i, TreeOp);
    }

    /**
     * The native process-list callback: drain the queue of the operation
     * that started the fetch, then `length = 0`, which also erases what the
     * callbacks added to it, then open the shared gate. Entries added to the
     * other queue stay; none of the callbacks' calls started a second
     * fetch; the cpu queue and gate are untouched.
     */
    method CompleteFetch(snapshot: seq<ProcessInfo>, pushedBy: seq<seq<Call>>, ghost height: nat)
      returns (delivered: seq<Delivery>, fetches: seq<Option<int>>)
      requires Valid() && pendingFetch.Some?
      requires |pushedBy| == |Queue(pendingFetch.value)|
      requires WalksEnd(snapshot, Queue(pendingFetch.value), height)
      modifies this
      ensures Valid() && !requestInProgress && pendingFetch == None
      ensures fetches == Nones(|Flat(pushedBy)|)
      ensures ServedInOrder(delivered, old(Queue(pendingFetch.value)), old(pendingFetch.value), snapshot, height)
      ensures Queue(old(pendingFetch.value)) == []
      ensures var other := Other(old(pendingFetch.value));
        Queue(other) == old(Queue(other)) + Pushed(Flat(pushedBy), other)
      ensures cpuUsageQueue == old(cpuUsageQueue) && cpuUsageRequestInProgress == old(cpuUsageRequestInProgress)
    {
      var op := pendingFetch.value;
      delivered, fetches := ForEachRequest(op, snapshot, pushedBy, height);
      if op == ListOp {
        processListQueue := [];
      } else {
        processTreeQueue := [];
      }
      requestInProgress := false;
      pendingFetch := None;
    }

    /**
     * The cpu calls one callback makes while the cpu gate is closed: none
     * reaches the sampler. `sents[j]` is what call j reports.
     */
    method ReenterCpu(calls: seq<CpuCall>) returns (sents: seq<Option<seq<ProcessInfo>>>)
      requires Valid() && cpuUsageRequestInProgress
      modifies this
      ensures Valid() && cpuUsageRequestInProgress
      ensures sents == Nones(|calls|)
      ensures cpuUsageQueue == old(cpuUsageQueue) + CpuPushed(calls)
      ensures processListQueue == old(processListQueue) && processTreeQueue == old(processTreeQueue)
      ensures requestInProgress == old(requestInProgress) && pendingFetch == old(pendingFetch)
    {
      sents := [];
      var j := 0;
      while j < |calls|
        invariant 0 <= j <= |calls|
        invariant Valid() && cpuUsageRequestInProgress
        invariant cpuUsageQueue == old(cpuUsageQueue) + CpuPushed(calls[..j])
        invariant sents == Nones(j)
        invariant processListQueue == old(processListQueue) && processTreeQueue == old(processTreeQueue)
        invariant requestInProgress == old(requestInProgress) && pendingFetch == old(pendingFetch)
      {
        var sent := GetProcessCpuUsage(calls[j].processList, calls[j].callback);
        sents := sents + [sent];
        assert calls[..j + 1][..j] == calls[..j];
        j := j + 1;
      }
      assert calls[..j] == calls;
    }

    /**
     * The native cpu callback, given the annotated list: every callback
     * queued when `forEach` starts receives that same list, in order, and
     * the callback at index i makes the cpu calls `pushedBy[i]`, none of
     * which reaches the sampler; then `length = 0` erases them and the cpu
     * gate opens.
     */
    method CompleteCpuUsage(annotated: seq<ProcessCpuInfo>, pushedBy: seq<seq<CpuCall>>)
      returns (delivered: seq<CpuDelivery>, sents: seq<Option<seq<ProcessInfo>>>)
      requires Valid() && cpuUsageRequestInProgress
      requires |pushedBy| == |cpuUsageQueue|
      modifies this
      ensures Valid() && !cpuUsageRequestInProgress && cpuUsageQueue == []
      ensures sents == Nones(|Flat(pushedBy)|)
      ensures AllReceive(delivered, old(cpuUsageQueue), annotated)
      ensures processListQueue == old(processListQueue) && processTreeQueue == old(processTreeQueue)
      ensures requestInProgress == old(requestInProgress) && pendingFetch == old(pendingFetch)
    {
      var served := cpuUsageQueue;
      ghost var erased: seq<CpuRequest> := [];
      delivered, sents := [], [];
      var i := 0;
      while i < |served|
        invariant 0 <= i <= |served|
        invariant Valid() && cpuUsageRequestInProgress
        invariant cpuUsageQueue == served + erased
        invariant sents == Nones(|Flat(pushedBy[..i])|)
        invariant processListQueue == old(processListQueue) && processTreeQueue == old(processTreeQueue)
        invariant requestInProgress == old(requestInProgress) && pendingFetch == old(pendingFetch)
        invariant AllReceive(delivered, served[..i], annotated)
      {
        var r := served[i];
        delivered := delivered + [CpuDelivery(r.callback, annotated)];
        var more := ReenterCpu(pushedBy[i]);
        NonesByNext<CpuCall, seq<ProcessInfo>>(pushedBy, i);
        sents := sents + more;
        assert cpuUsageQueue == served + (erased + CpuPushed(pushedBy[i]));
        erased := erased + CpuPushed(pushedBy[i]);
        i := i + 1;
      }
      assert served[..i] == served;
      assert pushedBy[..i] == pushedBy;
      cpuUsageQueue := [];
      cpuUsageRequestInProgress := false;
    }
  }

  /**
   * Two cpu calls before the sample arrives: only the first list reaches
   * the native sampler, and both callbacks receive the one annotated list.
   */
  method CpuCallersShareFirstList(first: seq<ProcessInfo>, second: seq<ProcessInfo>, annotated: seq<ProcessCpuInfo>)
    returns (sent: seq<Option<seq<ProcessInfo>>>, delivered: seq<CpuDelivery>, gateClosed: bool, left: seq<CpuRequest>)
    ensures sent == [Some(first), None]
    ensures delivered == [CpuDelivery(1, annotated), CpuDelivery(2, annotated)]
    ensures !gateClosed && left == []
  {
    var q := new RequestQueue();
    var s1 := q.GetProcessCpuUsage(first, 1);
    var s2 := q.GetProcessCpuUsage(second, 2);
    var none;
    delivered, none := q.CompleteCpuUsage(annotated, [[], []]);
    sent := [s1, s2];
    gateClosed := q.cpuUsageRequestInProgress;
    left := q.cpuUsageQueue;
  }

  /**
   * A tree call made while a list fetch is in flight does not start a fetch
   * and is not answered by the list fetch; it waits with the gate open.
   */
  method TreeWaitsBehindListFetch(snapshot: seq<ProcessInfo>, ghost height: nat)
    returns (fetches: seq<Option<int>>, delivered: seq<Delivery>, waiting: seq<Request>, gateClosed: bool)
    requires HasPid(snapshot, 4) ==> DepthAtMost(snapshot, 4, height)
    ensures fetches == [Some(1), None]
    ensures delivered == [Delivery(1, ListAnswer(FilterProcessList(4, snapshot, height)))]
    ensures waiting == [Request(2, 4)] && !gateClosed
  {
    var q := new RequestQueue();
    var f1 := q.GetProcessList(4, 1, Some(1));
    var f2 := q.GetProcessTree(4, 2, None);
    var none;
    delivered, none := q.CompleteFetch(snapshot, [[]], height);
    fetches := [f1, f2];
    waiting := q.processTreeQueue;
    gateClosed := q.requestInProgress;
  }
}
