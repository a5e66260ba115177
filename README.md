# Adjustable operation queue, modelled in Dafny

The repository provides `OperationQueue`, a bounded-concurrency queue for
asynchronous operations, in two revisions:

- **index.js** is the current queue. `addOperation` and `addOperations` append
  work to a pending array. `start` begins a run that moves operations from
  pending into an in-flight array, never more than `parallelism` at once. The
  operations are taken from the front (FIFO), or from a random index when
  `options.randomize` is set. The promise returned by `start` settles through
  an outcome callback (`_callback`) once both arrays are empty. That callback
  starts as the run's resolve callback; `cancel` and a failed operation switch
  it to the reject callback and drain pending, while in-flight work runs on.
- **limit.js** is the earlier queue. It has no cancel, no failure path and no
  random mode. It pops operations from the back of pending (LIFO), records
  every completed operation in a finished array, and calls the stored resolve
  callback when both arrays are empty after an operation finishes.

The model has four files:

- `wrappers.dfy` (module `Wrappers`) defines the `Option` type both queues use.
- `js_array.dfy` (module `JsArray`) gives the two array built-ins whose
  results matter, `indexOf` and `splice(i, 1)`, as functions on sequences.
- `index_queue.dfy` (module `Index`) models the index.js queue as a class whose
  fields are the arrays, the running flag and the outcome sink.
- `limit_queue.dfy` (module `Limit`) models the limit.js queue as a class.
  Its operations are objects whose `started` flag `Operation.start` sets.

Asynchrony is made explicit. A promise continuation runs in a later microtask,
never in the middle of `_start`. So each continuation of index.js
(`_taskFailed`, then `_taskFinished`) and of limit.js (`_taskFinished`) is an
atomic method that the environment calls for an operation that is in flight.
The random pick of index.js is a nondeterministic index into pending.

Each queue's invariant says:

- in-flight never holds more than the limit;
- an active run always has a callback to report to;
- in limit.js, the multiset of everything added equals the multisets of pending,
  in-flight and finished together;
- in index.js in FIFO mode, the operations started since pending was last
  drained, followed by those still pending, are exactly the ones added since
  then, in order. This holds across runs of a reused queue;
- in limit.js, a promise whose `start` left nothing in flight, or whose
  callback a later `start` replaced, is abandoned: every event keeps it
  abandoned, and `_taskFinished` never resolves an abandoned promise;
- in index.js, a run with a positive limit always has an operation in flight,
  so it cannot get stuck. With a limit of 0 a non-empty run never settles; the
  model allows this, as the source does.

## Model

| member | source | states |
|---|---|---|
| JsArray.IndexOf | index.js:78-79 | the result is -1 exactly when the element is absent; otherwise it is the first position holding it |
| JsArray.RemoveAt | index.js:80 | exactly the element at the index leaves: one element shorter, the same multiset less that element, the rest in order |
| Index.Filter | index.js:36 | the Operations of the input, each as often as it occurs there, and no more elements than the input |
| Index.FilterAppend | index.js:36-37 | filtering distributes over concatenation, so the kept operations keep their input order |
| Index.FilterKeepsOperations | index.js:36-37 | a batch made only of Operations is kept whole and in order |
| Index.MovedNothing | index.js:93-116 | zero iterations of the dispatch loop satisfy the moved-from relation |
| Index.MoveOne | index.js:98-114 | one iteration (splice at any index, or shift in FIFO mode, then push) keeps the moved-from relation: old in-flight entries untouched, nothing lost or duplicated, what stays pending in its order, and in FIFO mode a prefix of pending moved in order |
| Index.SubseqRefl | index.js:93-116 | every pending array is an order-preserving subsequence of itself, so the relation holds before the first iteration |
| Index.SubseqRemoveAt | index.js:100 | `splice(index, 1)` on an order-preserving subsequence of the original pending leaves one |
| Index.MoveAny | index.js:98-100 | removing any one pending element and pushing it onto in-flight keeps the multiset balance |
| Index.MoveFront | index.js:101-102 | shift then push extends the moved prefix of pending by its next element |
| Index.MovedKeepsOrder | index.js:101-114 | FIFO dispatch keeps the started-so-far plus still-pending sequence equal to the insertion order |
| Index.OperationQueue.constructor | index.js:10-21 | a new queue is not running, both arrays are empty and the callback is undefined |
| Index.OperationQueue.AddOperation | index.js:29-33 | appends exactly one element to the end of pending; in-flight, running and the sink are unchanged; returns the queue itself |
| Index.OperationQueue.AddOperations | index.js:35-39 | appends exactly the filtered Operations, in input order; nothing else changes; returns the queue |
| Index.OperationQueue.Start | index.js:41-54 | with nothing pending after the merge, an already-resolved result, running and sink untouched; otherwise running, sink at resolve, and one dispatch from empty in-flight over the merged pending |
| Index.OperationQueue.Cancel | index.js:58-62 | the sink becomes the reject callback (still undefined if no run ever began), pending is empty, in-flight and running are unchanged; the FIFO ledger starts afresh |
| Index.OperationQueue.Drain | index.js:64-69 | pending becomes empty and nothing else changes; the FIFO ledger starts afresh, so insertion order is kept again for the next run |
| Index.OperationQueue.TaskFailed | index.js:71-75 | the sink becomes the reject callback and pending is empty; in-flight and running are unchanged; the FIFO ledger starts afresh |
| Index.OperationQueue.TaskFinished | index.js:77-91 | removes the first in-flight entry of the operation; it settles, through the sink as it was, exactly when that leaves in-flight and pending empty; running is false exactly then; then it dispatches again |
| Index.OperationQueue.Dispatch | index.js:93-116 | afterwards in-flight is within the limit and either full or pending is empty; the old in-flight entries are untouched and followed by exactly the operations pending lost; what stays pending keeps its order in both modes; in FIFO mode the moved operations are pending's front, in order |
| Limit.Operation.constructor | limit.js:62-66 | a new operation is not started |
| Limit.Operation.Start | limit.js:69-72 | the operation is marked started |
| Limit.PopOrderStep | limit.js:46-55 | popping one more element from the back of pending appends it to the pop order |
| Limit.PopOrderPermutes | limit.js:46-55 | the pop order is a permutation of the popped elements |
| Limit.PopConserves | limit.js:44-56 | cutting a tail off pending and appending it, in pop order, to in-flight loses and duplicates nothing |
| Limit.OperationQueue.constructor | limit.js:6-15 | a new queue has empty pending, in-flight and finished arrays and no resolve callback |
| Limit.OperationQueue.AddOperation | limit.js:17-19 | appends the operation to the end of pending; nothing else changes, so every abandoned promise stays abandoned |
| Limit.OperationQueue.Start | limit.js:21-26 | stores the resolve callback of a new promise, replacing any earlier one, then dispatches; popped operations are started, no flag is cleared and operations left pending keep their flag; the new promise is stranded exactly when nothing is in flight afterwards, and every earlier promise is abandoned |
| Limit.OperationQueue.TaskFinished | limit.js:28-42 | removes the first in-flight entry of the task and appends the task to finished; resolves, through the stored callback, exactly when in-flight and pending are then empty; then dispatches again, starting exactly the operations it pops; it never resolves an abandoned promise, and keeps abandoned ones abandoned |
| Limit.OperationQueue.Retire | limit.js:29-39 | the first half of `_taskFinished`: the task's first in-flight entry is removed and it is appended to finished; the stored callback is answered exactly when in-flight and pending are then empty; the ledger is kept |
| Limit.OperationQueue.Dispatch | limit.js:44-57 | pending is cut back from its end; in-flight is extended by the cut-off operations, last first; in-flight stays within the limit and is full or pending is empty; the popped operations are started and every operation left pending keeps its flag; the multiset balance is kept |
| Limit.OperationQueue.PopAndStart | limit.js:45-56 | the loop of `_start`: pop, start, push until in-flight reaches the limit or pending is empty; exactly the popped operations are started, every other pending operation keeps its flag |
| Limit.EmptyStartLeavesNothingToFinish | limit.js:21-26 | `start` on a new queue stores a resolve callback but leaves nothing in flight, so the returned promise is abandoned; with the preservation clauses of AddOperation, Start and TaskFinished, no later `_taskFinished` resolves it |

## Left out

- Promises, `setTimeout` and the task executors (index.js:137-140, limit.js:69-72) are not modelled. Completion is an explicit event that the caller invokes for an in-flight operation; the order of completions is arbitrary.
- Index: `Operation.start` of index.js only returns the task's promise and changes no state, so it has no counterpart.
- Index.OperationQueue.Dispatch: `op.start()` runs the task executor synchronously inside the loop (index.js:109, 139). The model assumes an executor does not call `addOperation`, `cancel` or any other queue method while `_start` runs. A re-entrant call that changes pending in the middle of the loop is not captured.
- `Math.random` in `_generateUID` (index.js:129-135) is not modelled. An Operation's identity is an integer uid.
- `Math.random` in the random pick (index.js:99) is not modelled. The pick is any index below the length of pending.
- `console.log` and the `verbose` option (index.js:23-27) have no effect on the queue and are not modelled.
- Index.OperationQueue.Start: calling `start` while a run is active overwrites the callbacks (index.js:48-51). It is a precondition here (`!running`).
- `this._pendingOperations == 0` (index.js:84, limit.js:36) compares an array with 0. For the arrays of operations used here it holds exactly when the array is empty, and it is modelled that way.
- Index.OperationQueue.Dispatch: index.js keeps the caller's `options` object by reference (index.js:16) and reads `options.randomize` on every loop iteration (index.js:98). A caller who changes it after construction switches the selection policy. The model fixes the policy at construction and does not capture this aliasing.
- Limit.OperationQueue.Dispatch: `_start` is internal, called only from `start` and `_taskFinished` (limit.js:24, 41). Its precondition `!stranded` encodes that calling context. A direct call from outside the queue is not modelled.
- Index.OperationQueue.TaskFailed and Index.OperationQueue.TaskFinished are separate events, as in the source's promise chain. Nothing forces a `_taskFailed` to be followed by its `_taskFinished`.
- Index.OperationQueue.Start: a truthy `operations` argument that is not an array (index.js:42) is not modelled. The batch is either absent or a sequence of values.
- Limit: values in pending that are not operations are not modelled. A falsy value would stop the limit.js loop early (limit.js:47).
- Index.OperationQueue.AddOperation: it takes an Operation, while index.js:29-33 accepts any value. Other values are not modelled. A falsy value such as `0` or `""` would stop `_start` early and leave later operations pending (index.js:105-107). A truthy non-Operation would throw at `op.start()` (index.js:109). `null` or `undefined` would be pushed and then throw at `toString` (index.js:31).
- Index: `parallelism` is a natural number. A fractional limit such as 2.5 would let three operations into flight (index.js:94), so the in-flight bound would not hold. That is not modelled.
- Limit: a missing or non-numeric `concurrency` is not modelled. It is a natural number.
- Limit: the fields `_started` and `_rejectCallback` (limit.js:7, 14) are never read. `cancelled` (limit.js:65) is never set to true and is read only by the diagnostic `toString` (limit.js:74-76). None of them is modelled.
- Limit.OperationQueue.Start: in-flight and finished operations are not carried as started in the queue invariant. Dispatch and PopAndStart state that popped operations are started and that no pending operation's flag is cleared. Operations outside pending are outside their frame.
- Index.OperationQueue.Dispatch: the conservation of operations is stated per dispatch (nothing lost or duplicated between the two arrays). It is not a queue-wide ledger, because drained operations leave the model.
- The tests and the two examples (test/*.js, example.js, example-fail.js) are not modelled.

## Findings

| source | as written | input that shows it | evidently intended | confidence | as-written member | corrected member |
|---|---|---|---|---|---|---|
| limit.js:21-26 | `start` stores the resolve callback and dispatches, but only `_taskFinished` ever calls the callback; with nothing pending nothing is in flight, so the returned promise never settles | a new queue, no operation added, then `start()` | settle at once when nothing is pending, as index.js:43-45 does | not executed | Limit.EmptyStartLeavesNothingToFinish | Index.OperationQueue.Start |
