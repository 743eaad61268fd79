# windows-process-tree: builders and request coalescers in Dafny

This project models the JavaScript/TypeScript layer of vscode-windows-process-tree.
The native Win32 enumeration is left out: each native result is an input snapshot,
a sequence of `{pid, ppid, name, memory?, commandLine?}` records.

The layer has two parts.

- **Builders.** These turn a snapshot into the tree under a root pid (`buildProcessTree`)
  or into the flat pre-order list of that tree (`filterProcessList`). There are three
  generations.
  - `lib/index.js` bounds the recursion by a `maxDepth` counter. The public operations
    pass `MAX_FILTER_DEPTH = 10`. Modules `BoundedBuilders` and `BoundedProperties`.
  - `lib/index.ts` has no bound. It stops only when the ppid chains below the root are
    finite. Module `UnboundedBuilders`.
  - `index.js` has no bound and no "not found" answer. Module `LegacyBuilder`.

  Module `ProcessRecords` holds the record type and the array queries every builder uses:
  `findIndex` on the pid, the record at that index, and `filter` on the ppid. It also
  defines `DepthAtMost`, the bound on the ppid chains that the unbounded builders need to
  stop. Module `VersionAgreement` proves how the three generations relate: on a snapshot
  whose chains below the root have at most `height` links, every depth of at least
  `height` gives the unbounded answer, up to the fields each generation copies.

- **Request coalescers.** These run at most one native snapshot at a time and fan its
  result out to the queued callers.
  - `lib/index.js` `getRawProcessList` is module `SharedGateCoalescer`, class `Coalescer`.
  - `lib/index.ts` `getProcessList`, `getProcessTree` and `getProcessCpuUsage` are module
    `OperationQueues`, class `RequestQueue`.

  The module-level gates and queues are the class fields. The JavaScript event loop is
  made explicit:
  - a call reports whether it started a native fetch, and with which flags;
  - the arrival of the native result is a separate method (`CompleteFetch`,
    `CompleteCpuUsage`) that takes the result as a parameter;
  - callbacks are opaque numbers;
  - what a callback does when it runs is a parameter: the calls it makes back into the
    coalescer, which the completion method performs in its place.

  Module `QueuedCalls` holds the queue entries and the calls shared by both coalescers.

Termination of the unbounded builders rests on a ghost `height` parameter. It has no
influence on any result. A present root must satisfy `DepthAtMost(list, root, height)`.
No such height exists exactly when a chain of ppid-children running down from the root
reaches a ppid cycle, which is where the source recurses forever. The model proves the
direction that matters for the builders:
- `CycleHasNoHeight`: no pid on a ppid cycle has a bound.
- `RootReachingCycleHasNoHeight`: no root that reaches such a cycle has a bound.
- `SelfParentHasNoHeight` and `TwoRecordCycleHasNoHeight` are the two smallest cases:
  a record that is its own parent, and `[{pid 1, ppid 2}, {pid 2, ppid 1}]` with root 1.

A self-parenting record that the root cannot reach does not stop the recursion, and the
model does not exclude it.

### Draining and the shared gate

Both coalescers follow the code as written in two respects.

- **The drain does not loop until the queue is empty.** A completion runs one `forEach`
  over the queue and then sets `length = 0`.
  - A request that a callback adds to the queue being drained is never visited, and is then
    erased without an answer.
  - `CompleteFetch` states this in both coalescers. `ReentrantRequestIsErased` shows it on a
    concrete call sequence.
  - `forEach` reads the live array, but entries below the length it started with never
    change during the drain. The model therefore reads each entry from the queue as it
    stood when the drain began.
- **The list and tree queues share one gate.** A fetch answers only the queue of the call
  that started it.
  - A request on the other queue waits until a call on its own queue starts a later fetch.
  - `ConcurrentCallsShareOneFetch` and `TreeWaitsBehindListFetch` show a tree request
    waiting behind a list fetch.

## Model

| member | source | states |
|---|---|---|
| ProcessRecords.FindIndex | lib/index.js:27-30 | `findIndex` on the pid: -1 exactly when no record has the pid, otherwise an index holding the pid with no earlier record holding it |
| ProcessRecords.FirstWithPid | lib/index.js:31 | the record a builder copies for a present pid carries that pid |
| ProcessRecords.FirstWithPidIsEarliest | lib/index.js:27-31 | when pids repeat, the copied record is the earliest one carrying the pid |
| ProcessRecords.ListedHasPid | lib/index.js:38 | a child record's own pid is present, so no child subtree is undefined |
| ProcessRecords.ChildRecords | lib/index.js:32 | `filter` on the ppid keeps only records of the snapshot whose ppid is the parent, and never more records than the snapshot has |
| ProcessRecords.ChildRecordsComplete | lib/index.js:32 | every record whose ppid is the parent is kept |
| ProcessRecords.ChildRecordsOfOne | lib/index.js:32 | on a one-record snapshot the filter keeps that record exactly when its ppid is the parent |
| ProcessRecords.ChildRecordsAppend | lib/index.js:32 | filtering a concatenation filters each part in turn, so kept records stay in snapshot order, one entry per matching record |
| ProcessRecords.ChildRecordsEmpty | lib/index.js:32 | with no record naming the parent, the filter is empty |
| ProcessRecords.DepthAtMostMonotone | lib/index.ts:36-42 | a bound on the ppid chains below a pid still holds when it is raised |
| ProcessRecords.CycleHasNoHeight | lib/index.ts:36-42 | no pid on a ppid cycle of the snapshot has a finite chain bound |
| ProcessRecords.DescentKeepsNoHeight | lib/index.ts:42 | a pid with a chain of ppid-children down to a pid without a bound has no bound either |
| ProcessRecords.RootReachingCycleHasNoHeight | lib/index.ts:30-44 | a root from which a chain of ppid-children reaches a ppid cycle has no bound, so the unbounded builders never finish on it |
| ProcessRecords.TwoRecordCycleHasNoHeight | lib/index.ts:36-42 | `[{pid 1, ppid 2}, {pid 2, ppid 1}]` with root 1 has no bound of any height |
| ProcessRecords.SelfParentHasNoHeight | lib/index.ts:36-42 | a record that is its own parent has no finite chain bound: the unbounded recursion never ends on it |
| BoundedBuilders.Subtree | lib/index.js:31-38 | node fields come from the first record with the pid; at depth 0 there are no children even when child records exist; otherwise one child per ppid-child, in snapshot order, with that child's pid |
| BoundedBuilders.Subtrees | lib/index.js:38 | the `map` over the child records yields one tree per child, in order, each with the child's pid |
| BoundedBuilders.BuildProcessTree | lib/index.js:26-40 | undefined exactly when no record has the root pid; otherwise the root's pid and the name, memory and command line of its first record |
| BoundedBuilders.SubtreeList | lib/index.js:53-58 | empty exactly at depth -1; otherwise it starts with the root's first record; exactly `[root]` at depth 0; holds only snapshot records |
| BoundedBuilders.SubtreeLists | lib/index.js:58 | the concatenation of the children's lists is at least one entry per child when the depth is not -1, and empty at depth -1 |
| BoundedBuilders.FilterProcessList | lib/index.js:48-59 | undefined exactly when the root is absent, a check made before the depth check; `[]` at depth -1 on a present root; otherwise non-empty, root first, and exactly `[root]` at depth 0 |
| BoundedProperties.SubtreeDepthBounded | lib/index.js:38 | a tree built at depth d has no root-to-leaf path longer than d links |
| BoundedProperties.SubtreesDepthBounded | lib/index.js:38 | every child tree built at depth d has no path longer than d links |
| BoundedProperties.BuildProcessTreeDepthBounded | lib/index.js:26-40 | every tree `buildProcessTree` returns stays within `maxDepth` links of its root, on any snapshot, cyclic ones included |
| BoundedProperties.SubtreeListIsPreorder | lib/index.js:26-59 | the flat list under a present root is the same-depth tree read in pre-order |
| BoundedProperties.SubtreeListsArePreorder | lib/index.js:58 | the concatenated child lists are the child trees read in pre-order, one after the other |
| BoundedProperties.FilterMatchesTree | lib/index.js:26-59 | for the same root, snapshot and depth, list and tree are both undefined or both present, the list is the tree's pre-order walk, and its length is the tree's node count |
| BoundedProperties.PreorderLength | lib/index.js:38 | a tree's pre-order walk has one entry per node |
| BoundedProperties.SubtreeListHoldsFirstRecords | lib/index.js:56-58 | every entry of the flat list is the first snapshot record with its pid |
| BoundedProperties.SubtreeListsHoldFirstRecords | lib/index.js:58 | every entry of the concatenated child lists is the first snapshot record with its pid |
| BoundedProperties.SelfParentTreeIsChain | lib/test.ts:285-297 | a lone self-parenting record at depth d gives a chain of d + 1 nodes with its pid, the last one childless |
| BoundedProperties.SelfParentListRepeats | lib/test.ts:301-310 | a lone self-parenting record at depth d is listed d + 1 times |
| BoundedProperties.MaximumSearchDepthExample | lib/test.ts:285-310 | the depth-3 cases for record {pid 0, ppid 0}: a four-node chain whose last node is childless, and a four-entry list of pid 0 (also lib/testWorker.ts:6-13) |
| UnboundedBuilders.Subtree | lib/index.ts:35-42 | node pid, name and memory come from the first record with the pid; one child per ppid-child, in order, with that child's pid |
| UnboundedBuilders.Subtrees | lib/index.ts:42 | one child tree per child record, in order, each with the child's pid |
| UnboundedBuilders.BuildProcessTree | lib/index.ts:30-44 | undefined exactly when the root is absent; otherwise the root's pid and the name and memory of its first record |
| UnboundedBuilders.SubtreeList | lib/index.ts:57-59 | non-empty, starts with the root's first record, longer than the root's child count, only snapshot records |
| UnboundedBuilders.SubtreeLists | lib/index.ts:59 | at least one entry per child, only snapshot records |
| UnboundedBuilders.SubtreeListHoldsFirstRecords | lib/index.ts:57-59 | every entry of the list is the first snapshot record with its pid |
| UnboundedBuilders.SubtreeListsHoldFirstRecords | lib/index.ts:59 | every entry of the concatenated child lists is the first snapshot record with its pid |
| UnboundedBuilders.FilterProcessList | lib/index.ts:51-60 | undefined exactly when the root is absent; otherwise non-empty with the root's first record first |
| LegacyBuilder.BuildProcessTree | index.js:3-19 | for a present root, a node with the root pid, the name of its first record, and one child per ppid-child, in order, with the child's pid |
| LegacyBuilder.BuildChildren | index.js:15-16 | one subtree per child record, in order, each with the child's pid |
| LegacyBuilder.GetProcessTree | index.js:21-23 | the tree for the root of one synchronous snapshot, with the root pid and one child per ppid-child |
| VersionAgreement.NoChildrenAtHeightZero | lib/index.ts:36 | a pid whose chains have no links has no child records |
| VersionAgreement.SubtreeListsAgree | lib/index.ts:51-60 | below a present root, the bounded list at any depth covering the chain height equals the unbounded list |
| VersionAgreement.ChildListsAgree | lib/index.ts:59 | the concatenated child lists agree between the two versions |
| VersionAgreement.FilterVersionsAgree | lib/index.js:48-59 | lib/index.js `filterProcessList` at a depth covering the height equals lib/index.ts `filterProcessList`, absent roots included |
| VersionAgreement.SubtreesAgree | lib/index.ts:30-44 | below a present root, the bounded tree without command lines equals the unbounded tree |
| VersionAgreement.LeavesAgree | lib/index.js:38 | at depth 0 and height 0 the two versions give the same childless node |
| VersionAgreement.InnerNodesAgree | lib/index.js:38 | at a positive depth covering the height, the two versions give the same node and the same children |
| VersionAgreement.ChildTreesAgree | lib/index.ts:42 | the child trees agree between the two versions, one by one |
| VersionAgreement.TreeVersionsAgree | lib/index.js:26-40 | lib/index.js `buildProcessTree` at a depth covering the height is lib/index.ts `buildProcessTree` plus command lines, both undefined on an absent root |
| VersionAgreement.LegacySubtreesAgree | index.js:3-19 | below a present root, index.js builds the lib/index.ts tree without memory |
| VersionAgreement.LegacyChildrenAgree | index.js:16 | the child trees of index.js are those of lib/index.ts without memory |
| VersionAgreement.LegacyTreeAgrees | index.js:21-23 | index.js `getProcessTree` on a snapshot with the root present is lib/index.ts `buildProcessTree` without memory, which is never undefined there |
| QueuedCalls.Pushed | lib/index.js:62-65 | a sequence of calls pushes at most one entry per call onto a queue |
| QueuedCalls.PushedAppend | lib/index.js:62-65 | pushing two batches of calls in turn appends their entries in turn |
| QueuedCalls.PushedSplits | lib/index.js:87-108 | every call lands on exactly one of the list and tree queues: none lost, none doubled |
| QueuedCalls.PushedMembers | lib/index.js:62-65 | an entry is on a queue exactly when some call for that queue pushed it |
| SharedGateCoalescer.Coalescer.constructor | lib/index.js:16-18 | at module load the gate is open and both queues are empty |
| SharedGateCoalescer.Coalescer.GetRawProcessList | lib/index.js:61-80 | the entry always joins its own queue and no other; a fetch starts exactly when the gate was open, with the caller's `flags` or 0; the gate is closed afterwards, so at most one fetch is outstanding across both queues |
| SharedGateCoalescer.Coalescer.GetProcessList | lib/index.js:87-89 | `getRawProcessList` on the list queue |
| SharedGateCoalescer.Coalescer.GetProcessTree | lib/index.js:106-108 | `getRawProcessList` on the tree queue |
| SharedGateCoalescer.Coalescer.Reenter | lib/index.js:62-71 | calls made while the gate is closed only append, in call order, to their queues; one `None` per call states that none starts a fetch |
| SharedGateCoalescer.Coalescer.ForEachRequest | lib/index.js:73-75 | the `forEach` visits exactly the entries present when it starts, in order, each callback getting `filter(rootPid, snapshot, 10)` for its own root pid; what callbacks push is appended behind and starts no fetch |
| SharedGateCoalescer.Coalescer.CompleteFetch | lib/index.js:72-78 | the fetch answers every entry of the captured queue once, in enqueue order; that queue ends empty, so same-queue requests pushed during the drain are erased unanswered; the other queue keeps its entries plus those pushed during the drain; none of those calls starts a second fetch; the gate opens |
| SharedGateCoalescer.ConcurrentCallsShareOneFetch | lib/index.js:61-80 | of list, tree, list calls, only the first starts a fetch, with its own flags; the fetch answers both list calls in call order and leaves the tree call waiting; the next tree call starts a fetch of its own that answers both tree calls |
| SharedGateCoalescer.ReentrantRequestIsErased | lib/index.js:73-77 | a list request made by a list callback during the drain is erased unanswered, a tree request made there waits, and the gate ends open |
| OperationQueues.CpuPushed | lib/index.ts:98-100 | cpu calls push one `{callback}` entry each; entry i holds call i's callback, by induction on the calls |
| OperationQueues.CpuPushedAppend | lib/index.ts:98-100 | two batches of cpu calls made in turn push their entries in turn |
| OperationQueues.RequestQueue.constructor | lib/index.ts:16-23 | at module load both gates are open and the three queues are empty |
| OperationQueues.RequestQueue.GetProcessList | lib/index.ts:68-89 | the entry joins the list queue only; a fetch starts exactly when the shared gate was open, with `flags` or 0; the cpu gate and queue are untouched |
| OperationQueues.RequestQueue.GetProcessTree | lib/index.ts:120-141 | the entry joins the tree queue only; a fetch starts exactly when the shared gate was open, so a list fetch in flight keeps it waiting |
| OperationQueues.RequestQueue.GetProcessCpuUsage | lib/index.ts:96-112 | the callback joins the cpu queue; the sampler is called exactly when the cpu gate was open, and with this caller's list; the list/tree gate and queues are untouched |
| OperationQueues.RequestQueue.Dispatch | lib/index.ts:70-79 | a list or tree call appends to its own queue and starts a fetch exactly when the shared gate was open; that fetch carries `flags || 0` and answers the call's own queue |
| OperationQueues.RequestQueue.Reenter | lib/index.ts:70-79 | list and tree calls made while the shared gate is closed only append, in call order; one `None` per call states that none starts a fetch |
| OperationQueues.RequestQueue.ForEachRequest | lib/index.ts:82-84 | the entries present when `forEach` starts are served once each, in order, with the lib/index.ts builder for their root pid; the calls the callbacks make start no fetch |
| OperationQueues.RequestQueue.ServeNext | lib/index.ts:82-84 | one visit of the `forEach`: entry i's callback gets its answer, then its calls append behind and start no fetch; the drain's invariants hold one entry further on |
| OperationQueues.RequestQueue.CompleteFetch | lib/index.ts:81-87 | the fetch answers its own operation's queue in order and empties it, erasing what callbacks pushed there; the other queue keeps its entries plus those pushed; none of those calls starts a fetch; the shared gate opens; the cpu state is untouched |
| OperationQueues.RequestQueue.ReenterCpu | lib/index.ts:98-102 | cpu calls made while the cpu gate is closed only append, in call order; one `None` per call states that none reaches the sampler |
| OperationQueues.RequestQueue.CompleteCpuUsage | lib/index.ts:104-110 | every callback queued when the `forEach` starts receives the same annotated list, in order; the cpu queue ends empty, erasing cpu calls made by callbacks, none of which reached the sampler; the cpu gate opens; the list/tree state is untouched |
| OperationQueues.CpuCallersShareFirstList | lib/index.ts:96-110 | of two cpu calls, only the first caller's list reaches the sampler, and both callbacks receive the one annotated list; the gate ends open and the queue empty |
| OperationQueues.TreeWaitsBehindListFetch | lib/index.ts:79-87 | a tree call made while a list fetch is in flight starts no fetch and is not answered by it; it waits with the gate open |

## Left out

- Native code is not part of this model. That covers the Win32 process enumeration, the cpu sampler and the v8/N-API marshalling. Each native result is a parameter: the snapshot passed to `CompleteFetch`, and the annotated list passed to `CompleteCpuUsage`.
- The cpu percentages are real numbers the model only carries. Their sampling involves timing and floating point.
- lib/index.js `getProcessCpuUsage` (lines 96-98) is a direct call into native code with no queue or gate. It has nothing to model beyond the native call.
- `lib/promises.ts` and the typings are thin promise wrappers and declarations only.
- `flags` decide natively whether memory and command lines are filled in. The model passes `flags || 0` on to the native fetch and never inspects it. Records carry `memory` and `commandLine` as optional values that are copied as given.
- Callbacks are opaque numbers. A callback's effect on the coalescer is modelled only as the list, tree or cpu calls it makes back into the same coalescer. Calls across the two gates of lib/index.ts during a drain are not modelled: a list or tree callback calling `getProcessCpuUsage`, or a cpu callback calling `getProcessList`.
- The JavaScript event loop, worker threads and any concurrency are left out. The arrival of a native result is an explicit method call.
- Exceptions thrown by callbacks are left out. One would abort the `forEach` part-way. The `length = 0` and the gate reset after it would then never run. The gate would stay closed, and later calls would queue without starting a fetch.
- BoundedBuilders.Subtree, BoundedBuilders.SubtreeList, BoundedBuilders.FilterProcessList: the tree builder's `maxDepth` is a `nat`. A negative depth is never passed to the tree builder, and its recursion stops only at 0. The list builder's depth is an `int`, and its precondition is a depth from -1 up. No caller passes less: the public depth is 10, and the recursion steps down only as far as -1. From -2 down, the source's `=== -1` check would never stop the recursion.
- LegacyBuilder.BuildProcessTree, LegacyBuilder.GetProcessTree: when the root is absent, index.js reads `.pid` of `undefined` and throws. The model makes a present root a precondition instead of modelling the exception.
- UnboundedBuilders.Subtree, UnboundedBuilders.Subtrees, UnboundedBuilders.SubtreeList, UnboundedBuilders.SubtreeLists, UnboundedBuilders.BuildProcessTree, UnboundedBuilders.FilterProcessList, LegacyBuilder.BuildProcessTree, LegacyBuilder.BuildChildren and LegacyBuilder.GetProcessTree require a finite bound `height` on the ppid chains below the root. On snapshots without one, the source overflows its stack; the model proves that every root reaching a ppid cycle is such a snapshot (`RootReachingCycleHasNoHeight`) rather than modelling the overflow.
- OperationQueues.RequestQueue.CompleteFetch, OperationQueues.RequestQueue.ForEachRequest, OperationQueues.RequestQueue.ServeNext and OperationQueues.AnswerFor require the same bound for every root pid a drain serves, for the same reason.
- Pids are unbounded integers; JavaScript numbers are doubles, but no arithmetic is done on pids.
