/**
 * The request coalescer of lib/index.js: `getRawProcessList`, which both
 * `getProcessList` and `getProcessTree` go through. One module-level gate,
 * `requestInProgress`, guards both queues, so at most one native snapshot
 * is ever in flight. The native callback that answers a fetch drains only
 * the queue of the call that started the fetch.
 *
 * The event loop is made explicit: starting a fetch is reported to the
 * caller, and the later arrival of the snapshot is the method CompleteFetch.
 * What each callback does when it runs is a parameter: the calls it makes
 * into the coalescer, which CompleteFetch performs in its place.
 */
module SharedGateCoalescer {
  import opened Wrappers
  import opened ProcessRecords
  import opened BoundedBuilders
  import opened QueuedCalls

  /** What a callback receives: the `filter` of its queue applied to its root pid. */
  datatype Answer =
    | ListAnswer(list: Option<seq<ProcessInfo>>)
    | TreeAnswer(tree: Option<ProcessTreeNode>)

  /** One callback invocation, in the order the drain makes them. */
  datatype Delivery = Delivery(callback: nat, answer: Answer)

  /** `filter(r.rootPid, processList, MAX_FILTER_DEPTH)` for the queue of `op`. */
  function AnswerFor(op: Operation, rootPid: int, snapshot: seq<ProcessInfo>): Answer
  {
    match op
    case ListOp => ListAnswer(FilterProcessList(rootPid, snapshot, MaxFilterDepth))
    case TreeOp => TreeAnswer(BuildProcessTree(rootPid, snapshot, MaxFilterDepth))
  }

  /** The answers a drain of `served` hands out, callback by callback. */
  predicate ServedInOrder(delivered: seq<Delivery>, served: seq<Request>, op: Operation, snapshot: seq<ProcessInfo>)
  {
    |delivered| == |served| &&
    forall i | 0 <= i < |served| ::
      delivered[i] == Delivery(served[i].callback, AnswerFor(op, served[i].rootPid, snapshot))
  }

  /** Serving the next entry extends the deliveries by its answer. */
  lemma ServedInOrderStep(delivered: seq<Delivery>, served: seq<Request>, i: nat, op: Operation, snapshot: seq<ProcessInfo>)
    requires i < |served| && ServedInOrder(delivered, served[..i], op, snapshot)
    ensures ServedInOrder(delivered + [Delivery(served[i].callback, AnswerFor(op, served[i].rootPid, snapshot))],
      served[..i + 1], op, snapshot)
  {
  }

  class Coalescer {
    var requestInProgress: bool
    var processListRequestQueue: seq<Request>
    var processTreeRequestQueue: seq<Request>
    /** The queue captured by the native callback still outstanding, if any. */
    var pendingFetch: Option<Operation>

    function Queue(op: Operation): seq<Request>
      reads this
    {
      if op == ListOp then processListRequestQueue else processTreeRequestQueue
    }

    /**
     * The gate is closed exactly while a native callback is outstanding,
     * and the queue that callback will drain holds the request that
     * started it.
     */
    ghost predicate Valid()
      reads this
    {
      (requestInProgress <==> pendingFetch.Some?) &&
      (pendingFetch.Some? ==> Queue(pendingFetch.value) != [])
    }

    /** The state at module load: gate open, both queues empty. */
    constructor()
      ensures Valid() && !requestInProgress && pendingFetch == None
      ensures processListRequestQueue == [] && processTreeRequestQueue == []
    {
      requestInProgress := false;
      processListRequestQueue := [];
      processTreeRequestQueue := [];
      pendingFetch := None;
    }

    /**
     * `getRawProcessList`: the request always joins the queue of `op`; a
     * native fetch starts, with `flags || 0`, only when the gate is open,
     * and the gate is then closed. `fetch` is the flags argument of the
     * fetch started, if one was.
     */
    method GetRawProcessList(op: Operation, callback: nat, rootPid: int, flags: Option<int>) returns (fetch: Option<int>)
      requires Valid()
      modifies this
      ensures Valid() && requestInProgress
      ensures processListRequestQueue ==
        old(processListRequestQueue) + (if op == ListOp then [Request(callback, rootPid)] else [])
      ensures processTreeRequestQueue ==
        old(processTreeRequestQueue) + (if op == TreeOp then [Request(callback, rootPid)] else [])
      ensures fetch.Some? <==> !old(requestInProgress)
      ensures fetch.Some? ==> fetch.value == FlagsOrZero(flags) && pendingFetch == Some(op)
      ensures fetch.None? ==> pendingFetch == old(pendingFetch)
    {
      if op == ListOp {
        processListRequestQueue := processListRequestQueue + [Request(callback, rootPid)];
      } else {
        processTreeRequestQueue := processTreeRequestQueue + [Request(callback, rootPid)];
      }
      if !requestInProgress {
        requestInProgress := true;
        pendingFetch := Some(op);
        fetch := Some(FlagsOrZero(flags));
      } else {
        fetch := None;
      }
    }

    /** `getProcessList(rootPid, callback, flags)`. */
    method GetProcessList(rootPid: int, callback: nat, flags: Option<int>) returns (fetch: Option<int>)
      requires Valid()
      modifies this
      ensures Valid() && requestInProgress
      ensures processListRequestQueue == old(processListRequestQueue) + [Request(callback, rootPid)]
      ensures processTreeRequestQueue == old(processTreeRequestQueue)
      ensures fetch.Some? <==> !old(requestInProgress)
      ensures fetch.Some? ==> fetch.value == FlagsOrZero(flags) && pendingFetch == Some(ListOp)
      ensures fetch.None? ==> pendingFetch == old(pendingFetch)
    {
      fetch := GetRawProcessList(ListOp, callback, rootPid, flags);
    }

    /** `getProcessTree(rootPid, callback, flags)`. */
    method GetProcessTree(rootPid: int, callback: nat, flags: Option<int>) returns (fetch: Option<int>)
      requires Valid()
      modifies this
      ensures Valid() && requestInProgress
      ensures processTreeRequestQueue == old(processTreeRequestQueue) + [Request(callback, rootPid)]
      ensures processListRequestQueue == old(processListRequestQueue)
      ensures fetch.Some? <==> !old(requestInProgress)
      ensures fetch.Some? ==> fetch.value == FlagsOrZero(flags) && pendingFetch == Some(TreeOp)
      ensures fetch.None? ==> pendingFetch == old(pendingFetch)
    {
      fetch := GetRawProcessList(TreeOp, callback, rootPid, flags);
    }

    /**
     * The calls one callback makes while the gate is closed: each joins
     * its queue and none starts a fetch. `fetches[j]` is what call j
     * reports.
     */
    method Reenter(calls: seq<Call>) returns (fetches: seq<Option<int>>)
      requires Valid() && requestInProgress
      modifies this
      ensures Valid() && requestInProgress && pendingFetch == old(pendingFetch)
      ensures fetches == Nones(|calls|)
      ensures processListRequestQueue == old(processListRequestQueue) + Pushed(calls, ListOp)
      ensures processTreeRequestQueue == old(processTreeRequestQueue) + Pushed(calls, TreeOp)
    {
      fetches := [];
      var j := 0;
      while j < |calls|
        invariant 0 <= j <= |calls|
        invariant Valid() && requestInProgress && pendingFetch == old(pendingFetch)
        invariant processListRequestQueue == old(processListRequestQueue) + Pushed(calls[..j], ListOp)
        invariant processTreeRequestQueue == old(processTreeRequestQueue) + Pushed(calls[..j], TreeOp)
        invariant fetches == Nones(j)
      {
        var c := calls[j];
        var fetch := GetRawProcessList(c.op, c.request.callback, c.request.rootPid, c.flags);
        fetches := fetches + [fetch];
        PushedStep(old(processListRequestQueue), calls, j, ListOp);
        PushedStep(old(processTreeRequestQueue), calls, j, TreeOp);
        j := j + 1;
      }
      assert calls[..j] == calls;
    }

    /**
     * `queue.forEach(...)` over the queue of `op` while the gate stays
     * closed: the entries present when it starts are visited in order, each
     * callback receiving the answer for its own root pid, and the callback
     * at index i makes the calls `pushedBy[i]`, which only join queues:
     * `fetches`, what those calls report in order, holds no started fetch.
     */
    method ForEachRequest(op: Operation, snapshot: seq<ProcessInfo>, pushedBy: seq<seq<Call>>)
      returns (delivered: seq<Delivery>, fetches: seq<Option<int>>)
      requires Valid() && pendingFetch == Some(op)
      requires |pushedBy| == |Queue(op)|
      modifies this
      ensures Valid() && pendingFetch == Some(op)
      ensures fetches == Nones(|Flat(pushedBy)|)
      ensures ServedInOrder(delivered, old(Queue(op)), op, snapshot)
      ensures processListRequestQueue == old(processListRequestQueue) + Pushed(Flat(pushedBy), ListOp)
      ensures processTreeRequestQueue == old(processTreeRequestQueue) + Pushed(Flat(pushedBy), TreeOp)
    {
      var served := Queue(op);
      delivered, fetches := [], [];
      var i := 0;
      while i < |served|
        invariant 0 <= i <= |served|
        invariant Valid() && pendingFetch == Some(op)
        invariant processListRequestQueue == old(processListRequestQueue) + Pushed(Flat(pushedBy[..i]), ListOp)
        invariant processTreeRequestQueue == old(processTreeRequestQueue) + Pushed(Flat(pushedBy[..i]), TreeOp)
        invariant ServedInOrder(delivered, served[..i], op, snapshot)
        invariant fetches == Nones(|Flat(pushedBy[..i])|)
      {
        var r := served[i];
        ServedInOrderStep(delivered, served, i, op, snapshot);
        delivered := delivered + [Delivery(r.callback, AnswerFor(op, r.rootPid, snapshot))];
        var more := Reenter(pushedBy[i]);
        NonesByNext<Call, int>(pushedBy, i);
        fetches := fetches + more;
        PushedByNext(old(processListRequestQueue), pushedBy, i, ListOp);
        PushedByNext(old(processTreeRequestQueue), pushedBy, i, TreeOp);
        i := i + 1;
      }
      assert served[..i] == served;
      assert pushedBy[..i] == pushedBy;
    }

    /**
     * The native callback of the outstanding fetch, given the snapshot: the
     * `forEach` over the queue its call captured, then `queue.length = 0`,
     * which also erases the entries the callbacks added to that queue, then
     * the gate opens. Entries the callbacks added to the other queue stay,
     * and none of the callbacks' calls started a second fetch.
     */
    method CompleteFetch(snapshot: seq<ProcessInfo>, pushedBy: seq<seq<Call>>)
      returns (delivered: seq<Delivery>, fetches: seq<Option<int>>)
      requires Valid() && pendingFetch.Some?
      requires |pushedBy| == |Queue(pendingFetch.value)|
      modifies this
      ensures Valid() && !requestInProgress && pendingFetch == None
      ensures fetches == Nones(|Flat(pushedBy)|)
      ensures ServedInOrder(delivered, old(Queue(pendingFetch.value)), old(pendingFetch.value), snapshot)
      ensures Queue(old(pendingFetch.value)) == []
      ensures var other := Other(old(pendingFetch.value));
        Queue(other) == old(Queue(other)) + Pushed(Flat(pushedBy), other)
    {
      var op := pendingFetch.value;
      delivered, fetches := ForEachRequest(op, snapshot, pushedBy);
      if op == ListOp {
        processListRequestQueue := [];
      } else {
        processTreeRequestQueue := [];
      }
      requestInProgress := false;
      pendingFetch := None;
    }
  }

  /**
   * Three calls before the snapshot arrives: only the first starts a fetch,
   * with its own flags. That fetch answers both list requests in call order
   * and leaves the tree request waiting with the gate open; the next tree
   * call starts a fetch of its own, which answers both tree requests.
   */
  method ConcurrentCallsShareOneFetch(first: seq<ProcessInfo>, second: seq<ProcessInfo>)
    returns (fetches: seq<Option<int>>, delivered: seq<Delivery>, waiting: seq<Request>, later: seq<Delivery>)
    ensures fetches == [Some(1), None, None, Some(0)]
    ensures delivered == [
      Delivery(1, ListAnswer(FilterProcessList(4, first, MaxFilterDepth))),
      Delivery(3, ListAnswer(FilterProcessList(5, first, MaxFilterDepth)))]
    ensures waiting == [Request(2, 4)]
    ensures later == [
      Delivery(2, TreeAnswer(BuildProcessTree(4, second, MaxFilterDepth))),
      Delivery(4, TreeAnswer(BuildProcessTree(6, second, MaxFilterDepth)))]
  {
    var c := new Coalescer();
    var f1 := c.GetProcessList(4, 1, Some(1));
    var f2 := c.GetProcessTree(4, 2, None);
    var f3 := c.GetProcessList(5, 3, Some(2));
    var none;
    delivered, none := c.CompleteFetch(first, [[], []]);
    waiting := c.processTreeRequestQueue;
    var f4 := c.GetProcessTree(6, 4, None);
    later, none := c.CompleteFetch(second, [[], []]);
    fetches := [f1, f2, f3, f4];
  }

  /**
   * A callback that asks again while its queue is drained: the request on
   * its own queue is erased unanswered, the one on the other queue waits,
   * and neither starts a fetch.
   */
  method ReentrantRequestIsErased(snapshot: seq<ProcessInfo>)
    returns (fetch: Option<int>, refetches: seq<Option<int>>, delivered: seq<Delivery>,
             listQueue: seq<Request>, treeQueue: seq<Request>, gateClosed: bool)
    ensures fetch == Some(0) && refetches == [None, None]
    ensures delivered == [Delivery(1, ListAnswer(FilterProcessList(7, snapshot, MaxFilterDepth)))]
    ensures listQueue == [] && treeQueue == [Request(3, 7)]
    ensures !gateClosed
  {
    var c := new Coalescer();
    fetch := c.GetProcessList(7, 1, None);
    var again := [Call(ListOp, Request(2, 7), None), Call(TreeOp, Request(3, 7), Some(1))];
    delivered, refetches := c.CompleteFetch(snapshot, [again]);
    assert [again][..0] == [];
    assert |refetches| == 2 && refetches[0] in refetches && refetches[1] in refetches;
    listQueue := c.processListRequestQueue;
    treeQueue := c.processTreeRequestQueue;
    gateClosed := c.requestInProgress;
  }
}
