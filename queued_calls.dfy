/**
 * The entries the request coalescers of lib/index.js and lib/index.ts keep in
 * their queues, and the calls a callback can make while its own queue is
 * being drained. Callbacks are JavaScript closures in the source; here each
 * is an opaque number that identifies it.
 */
module QueuedCalls {
  import opened Wrappers

  /** The two operations answered from one native process-list fetch. */
  datatype Operation = ListOp | TreeOp

  /** The operation whose queue shares the gate with `op`. */
  function Other(op: Operation): Operation
  {
    if op == ListOp then TreeOp else ListOp
  }

  /** A queue entry `{callback, rootPid}`. */
  datatype Request = Request(callback: nat, rootPid: int)

  /**
   * A `getProcessList` or `getProcessTree` call: the queue it targets, the
   * entry it pushes and the optional `flags` argument.
   */
  datatype Call = Call(op: Operation, request: Request, flags: Option<int>)

  /** `flags || 0`: a missing flags argument becomes ProcessDataFlag.None. */
  function FlagsOrZero(flags: Option<int>): int
  {
    match flags
    case None => 0
    case Some(f) => f
  }

  /** The entries `calls`, made one after the other, push onto the queue of `op`. */
  function Pushed(calls: seq<Call>, op: Operation): (rs: seq<Request>)
    ensures |rs| <= |calls|
  {
    if calls == [] then []
    else
      var last := calls[|calls| - 1];
      Pushed(calls[..|calls| - 1], op) + (if last.op == op then [last.request] else [])
  }

  /**
   * A queue that held `start` before `calls` began, after the calls before
   * index j, extended by what call j pushes.
   */
  lemma PushedStep(start: seq<Request>, calls: seq<Call>, j: nat, op: Operation)
    requires j < |calls|
    ensures start + Pushed(calls[..j], op) + (if calls[j].op == op then [calls[j].request] else []) ==
      start + Pushed(calls[..j + 1], op)
  {
    assert calls[..j + 1][..j] == calls[..j];
  }

  /** Pushing in two rounds leaves what pushing in one round leaves. */
  lemma {:induction false} PushedAppend(a: seq<Call>, b: seq<Call>, op: Operation)
    ensures Pushed(a + b, op) == Pushed(a, op) + Pushed(b, op)
    decreases |b|
  {
    if b == [] {
      assert a + b == a;
    } else {
      var front := b[..|b| - 1];
      assert (a + b)[..|a + b| - 1] == a + front;
      PushedAppend(a, front, op);
    }
  }

  /** Every call lands on exactly one of the two queues: none is lost, none is doubled. */
  lemma {:induction false} PushedSplits(calls: seq<Call>)
    ensures |Pushed(calls, ListOp)| + |Pushed(calls, TreeOp)| == |calls|
  {
    if calls != [] {
      PushedSplits(calls[..|calls| - 1]);
    }
  }

  /** An entry lands on the queue of `op` exactly when some call for `op` pushed it. */
  lemma {:induction false} PushedMembers(calls: seq<Call>, op: Operation, r: Request)
    ensures r in Pushed(calls, op) <==> exists i | 0 <= i < |calls| :: calls[i].op == op && calls[i].request == r
  {
    if calls != [] {
      var front := calls[..|calls| - 1];
      PushedMembers(front, op, r);
      assert forall i | 0 <= i < |front| :: front[i] == calls[i];
    }
  }

  /** The calls, in order, made by callbacks that each made `pushedBy[i]`. */
  function Flat<T>(pushedBy: seq<seq<T>>): seq<T>
  {
    if pushedBy == [] then [] else Flat(pushedBy[..|pushedBy| - 1]) + pushedBy[|pushedBy| - 1]
  }

  /** The calls of one more callback come after all earlier ones. */
  lemma FlatStep<T>(pushedBy: seq<seq<T>>, i: nat)
    requires i < |pushedBy|
    ensures Flat(pushedBy[..i + 1]) == Flat(pushedBy[..i]) + pushedBy[i]
  {
    assert pushedBy[..i + 1][..i] == pushedBy[..i];
  }

  /**
   * A queue that held `start` before the callbacks ran, after the callbacks
   * up to index i have run, extended by what callback i pushes.
   */
  lemma PushedByNext(start: seq<Request>, pushedBy: seq<seq<Call>>, i: nat, op: Operation)
    requires i < |pushedBy|
    ensures start + Pushed(Flat(pushedBy[..i]), op) + Pushed(pushedBy[i], op) ==
      start + Pushed(Flat(pushedBy[..i + 1]), op)
  {
    FlatStep(pushedBy, i);
    PushedAppend(Flat(pushedBy[..i]), pushedBy[i], op);
  }

  /**
   * The absent results the calls of the callbacks up to index i report,
   * extended by those of callback i's calls.
   */
  lemma NonesByNext<T, U>(pushedBy: seq<seq<T>>, i: nat)
    requires i < |pushedBy|
    ensures Nones<U>(|Flat(pushedBy[..i])|) + Nones<U>(|pushedBy[i]|) == Nones<U>(|Flat(pushedBy[..i + 1])|)
  {
    FlatStep(pushedBy, i);
    NonesAppend<U>(|Flat(pushedBy[..i])|, |pushedBy[i]|);
  }
}
