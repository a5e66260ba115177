/**
 * The OperationQueue of index.js: a bounded-concurrency queue with an
 * outcome sink that a cancel or a failed operation switches to rejection.
 *
 * Asynchrony is made explicit: the promise continuations of index.js become
 * the events `TaskFailed` and `TaskFinished`, each an atomic method, called by
 * the environment for an operation that is in flight. The random selection
 * of the dispatch loop is a nondeterministic index into the pending array.
 */
module Index {
  import opened JsArray
  import opened Wrappers

  /** An Operation. Its identity (an object reference in JavaScript) is its uid. */
  datatype Operation = Operation(uid: int)

  /** A JavaScript value handed to `addOperations`: an Operation or anything else. */
  datatype Value = Op(op: Operation) | NotAnOperation

  /**
   * Where `_callback` points: nowhere before the first run began, otherwise
   * at the resolve or the reject callback of the latest run's promise.
   */
  datatype Sink = Unset | Resolve | Reject

  /** How the promise returned by `start` settles. */
  datatype Outcome = Resolved | Rejected

  function Settlement(s: Sink): Outcome
    requires s != Unset
  {
    if s == Resolve then Resolved else Rejected
  }

  /**
   * `operations.filter((op) => op instanceof Operation)`: the Operations of
   * `values`, each as often as it occurs there.
   */
  function Filter(values: seq<Value>): (ops: seq<Operation>)
    ensures |ops| <= |values|
    ensures forall o :: multiset(ops)[o] == multiset(values)[Op(o)]
  {
    if values == [] then []
    else
      assert values == [values[0]] + values[1..];
      Keep(values[0]) + Filter(values[1..])
  }

  function Keep(v: Value): seq<Operation> {
    if v.Op? then [v.op] else []
  }

  /** Filtering keeps the input order: it distributes over concatenation. */
  lemma {:induction false} FilterAppend(a: seq<Value>, b: seq<Value>)
    ensures Filter(a + b) == Filter(a) + Filter(b)
  {
    if a == [] {
      assert a + b == b;
    } else {
      calc {
        Filter(a + b);
        { assert (a + b)[0] == a[0] && (a + b)[1..] == a[1..] + b; }
        Keep(a[0]) + Filter(a[1..] + b);
        { FilterAppend(a[1..], b); }
        Keep(a[0]) + (Filter(a[1..]) + Filter(b));
        Filter(a) + Filter(b);
      }
    }
  }

  /** A batch made only of Operations is added whole and in order. */
  lemma {:induction false} FilterKeepsOperations(values: seq<Value>)
    requires forall i :: 0 <= i < |values| ==> values[i].Op?
    ensures |Filter(values)| == |values|
    ensures forall i :: 0 <= i < |values| ==> Filter(values)[i] == values[i].op
  {
    if values != [] {
      FilterKeepsOperations(values[1..]);
    }
  }

  /** `a` is `b` with some elements left out and the rest in their order. */
  ghost predicate Subseq<T>(a: seq<T>, b: seq<T>)
    decreases |b|
  {
    if b == [] then a == []
    else (a != [] && a[0] == b[0] && Subseq(a[1..], b[1..])) || Subseq(a, b[1..])
  }

  lemma {:induction false} SubseqRefl<T>(a: seq<T>)
    ensures Subseq(a, a)
  {
    if a != [] {
      SubseqRefl(a[1..]);
    }
  }

  /** `splice(i, 1)` on a subsequence leaves a subsequence. */
  lemma {:induction false} SubseqRemoveAt<T>(a: seq<T>, b: seq<T>, i: nat)
    requires Subseq(a, b) && i < |a|
    ensures Subseq(RemoveAt(a, i), b)
    decreases |b|
  {
    if a != [] && a[0] == b[0] && Subseq(a[1..], b[1..]) {
      if i == 0 {
        assert RemoveAt(a, 0) == a[1..];
      } else {
        SubseqRemoveAt(a[1..], b[1..], i - 1);
        assert RemoveAt(a, i) == [a[0]] + RemoveAt(a[1..], i - 1);
      }
    } else {
      SubseqRemoveAt(a, b[1..], i);
    }
  }

  /**
   * The dispatch loop has moved operations from `pending0` to the end of
   * `inFlight0`, giving `inFlight` and `pending`: the old in-flight entries
   * are untouched and followed by exactly what pending lost; what stays in
   * pending keeps its order; in FIFO mode what moved is a prefix of pending,
   * in order.
   */
  ghost predicate Moved(inFlight0: seq<Operation>, pending0: seq<Operation>,
                        inFlight: seq<Operation>, pending: seq<Operation>, fifo: bool)
  {
    && |inFlight0| <= |inFlight|
    && |inFlight| - |inFlight0| + |pending| == |pending0|
    && inFlight[..|inFlight0|] == inFlight0
    && multiset(inFlight[|inFlight0|..]) + multiset(pending) == multiset(pending0)
    && Subseq(pending, pending0)
    && (fifo ==>
          && |inFlight| - |inFlight0| <= |pending0|
          && inFlight == inFlight0 + pending0[..|inFlight| - |inFlight0|]
          && pending == pending0[|inFlight| - |inFlight0|..])
  }

  lemma MovedNothing(inFlight: seq<Operation>, pending: seq<Operation>, fifo: bool)
    ensures Moved(inFlight, pending, inFlight, pending, fifo)
  {
    assert inFlight[|inFlight|..] == [];
    assert pending[..0] == [] && pending[0..] == pending;
    SubseqRefl(pending);
  }

  /**
   * One iteration of the dispatch loop (`splice(index, 1)`, or `shift` in
   * FIFO mode, then `push`) keeps the moved-from relation.
   */
  lemma {:induction false} MoveOne(inFlight0: seq<Operation>, pending0: seq<Operation>,
                                   inFlight: seq<Operation>, pending: seq<Operation>, fifo: bool, i: nat)
    requires Moved(inFlight0, pending0, inFlight, pending, fifo)
    requires i < |pending| && (fifo ==> i == 0)
    ensures Moved(inFlight0, pending0, inFlight + [pending[i]], RemoveAt(pending, i), fifo)
  {
    MoveAny(inFlight0, pending0, inFlight, pending, i);
    SubseqRemoveAt(pending, pending0, i);
    if fifo {
      MoveFront(inFlight0, pending0, inFlight, pending);
    }
  }

  /** The half of MoveOne that holds in both modes: nothing lost, nothing duplicated. */
  lemma MoveAny(inFlight0: seq<Operation>, pending0: seq<Operation>,
                inFlight: seq<Operation>, pending: seq<Operation>, i: nat)
    requires |inFlight0| <= |inFlight| && inFlight[..|inFlight0|] == inFlight0
    requires multiset(inFlight[|inFlight0|..]) + multiset(pending) == multiset(pending0)
    requires i < |pending|
    ensures (inFlight + [pending[i]])[..|inFlight0|] == inFlight0
    ensures multiset((inFlight + [pending[i]])[|inFlight0|..]) + multiset(RemoveAt(pending, i)) == multiset(pending0)
  {
    var op := pending[i];
    assert (inFlight + [op])[..|inFlight0|] == inFlight[..|inFlight0|];
    assert (inFlight + [op])[|inFlight0|..] == inFlight[|inFlight0|..] + [op];
  }

  /** The FIFO half of MoveOne: `shift` then `push` extends the moved prefix by one. */
  lemma MoveFront(inFlight0: seq<Operation>, pending0: seq<Operation>,
                  inFlight: seq<Operation>, pending: seq<Operation>)
    requires |inFlight0| <= |inFlight| && pending != []
    requires |inFlight| - |inFlight0| <= |pending0|
    requires inFlight == inFlight0 + pending0[..|inFlight| - |inFlight0|]
    requires pending == pending0[|inFlight| - |inFlight0|..]
    ensures |inFlight| + 1 - |inFlight0| <= |pending0|
    ensures inFlight + [pending[0]] == inFlight0 + pending0[..|inFlight| + 1 - |inFlight0|]
    ensures RemoveAt(pending, 0) == pending0[|inFlight| + 1 - |inFlight0|..]
  {
    var k := |inFlight| - |inFlight0|;
    assert pending0[..k + 1] == pending0[..k] + [pending0[k]];
  }

  /**
   * FIFO dispatch keeps the start order equal to the insertion order: the
   * operations started so far followed by those still pending are the ones
   * added, in order.
   */
  lemma MovedKeepsOrder(added: seq<Operation>, dispatched: seq<Operation>,
                        inFlight0: seq<Operation>, pending0: seq<Operation>,
                        inFlight: seq<Operation>, pending: seq<Operation>)
    requires dispatched + pending0 == added
    requires Moved(inFlight0, pending0, inFlight, pending, true)
    ensures dispatched + inFlight[|inFlight0|..] + pending == added
  {
    var k := |inFlight| - |inFlight0|;
    assert inFlight[|inFlight0|..] == pending0[..k];
    assert pending0 == pending0[..k] + pending0[k..];
  }

  class OperationQueue {
    const parallelism: nat
    /** `options.randomize`: take a random pending operation instead of the front one. */
    const randomize: bool

    var pending: seq<Operation>
    var inFlight: seq<Operation>
    var running: bool
    var sink: Sink

    /** The operations appended to pending since it was last drained, in order. */
    ghost var added: seq<Operation>
    /** The operations the dispatch loop started since pending was last drained, in order. */
    ghost var dispatched: seq<Operation>

    /** The invariant that holds inside an event, between its steps. */
    ghost predicate Consistent()
      reads this
    {
      && |inFlight| <= parallelism
      && (inFlight != [] ==> running)
      && (running ==> sink != Unset)
      && (!randomize ==> dispatched + pending == added)
    }

    /**
     * The invariant between events. Besides Consistent: a run with a
     * positive limit always has an operation in flight whose completion
     * will drive it on, so it is never stuck.
     */
    ghost predicate Valid()
      reads this
    {
      Consistent() && (running && parallelism > 0 ==> inFlight != [])
    }

    /**
     * What one pass of the dispatch loop leaves, from the arrays it started
     * with: in-flight full or pending exhausted, and the operations moved as
     * Moved says.
     */
    ghost predicate DispatchedFrom(inFlight0: seq<Operation>, pending0: seq<Operation>)
      reads this
    {
      && |inFlight| <= parallelism
      && (|inFlight| == parallelism || pending == [])
      && Moved(inFlight0, pending0, inFlight, pending, !randomize)
    }

    constructor (parallelism: nat, randomize: bool)
      ensures Valid()
      ensures this.parallelism == parallelism && this.randomize == randomize
      ensures pending == [] && inFlight == [] && !running && sink == Unset
      ensures added == [] && dispatched == []
    {
      this.parallelism := parallelism;
      this.randomize := randomize;
      pending, inFlight := [], [];
      running := false;
      sink := Unset;
      added, dispatched := [], [];
    }

    /** `addOperation`: append to pending, return the queue for chaining. */
    method AddOperation(op: Operation) returns (self: OperationQueue)
      requires Valid()
      modifies this
      ensures Valid() && self == this
      ensures pending == old(pending) + [op]
      ensures inFlight == old(inFlight) && running == old(running) && sink == old(sink)
      ensures added == old(added) + [op]
      ensures dispatched == old(dispatched)
    {
      pending := pending + [op];
      added := added + [op];
      self := this;
    }

    /** `addOperations`: add, in input order, the values that are Operations. */
    method AddOperations(values: seq<Value>) returns (self: OperationQueue)
      requires Valid()
      modifies this
      ensures Valid() && self == this
      ensures pending == old(pending) + Filter(values)
      ensures inFlight == old(inFlight) && running == old(running) && sink == old(sink)
      ensures added == old(added) + Filter(values)
      ensures dispatched == old(dispatched)
    {
      var ops := Filter(values);
      for i := 0 to |ops|
        invariant Valid()
        invariant pending == old(pending) + ops[..i] && added == old(added) + ops[..i]
        invariant inFlight == old(inFlight) && running == old(running) && sink == old(sink)
        invariant dispatched == old(dispatched)
      {
        assert ops[..i + 1] == ops[..i] + [ops[i]];
        self := AddOperation(ops[i]);
      }
      assert ops[..|ops|] == ops;
      self := this;
    }

    /**
     * `start(operations)`: merge the optional batch; with nothing pending,
     * answer an already-resolved promise and change nothing else; otherwise
     * begin a run that settles through the resolve callback unless a cancel
     * or a failure switches the sink.
     */
    method Start(batch: Option<seq<Value>>) returns (immediate: Option<Outcome>)
      requires Valid() && !running
      modifies this
      ensures Valid()
      ensures var merged := old(pending) + (if batch.Some? then Filter(batch.value) else []);
        if merged == [] then
          immediate == Some(Resolved) && !running && sink == old(sink) && pending == [] && inFlight == []
        else
          immediate == None && running && sink == Resolve && DispatchedFrom([], merged)
      ensures added == old(added) + (if batch.Some? then Filter(batch.value) else [])
      ensures dispatched == old(dispatched) + inFlight
    {
      if batch.Some? {
        var _ := AddOperations(batch.value);
      }
      if pending == [] {
        immediate := Some(Resolved);
        return;
      }
      ghost var merged := pending;
      assert merged == old(pending) + (if batch.Some? then Filter(batch.value) else []);
      assert inFlight == [];
      running := true;
      sink := Resolve;
      Dispatch();
      assert DispatchedFrom([], merged);
      immediate := None;
    }

    /**
     * `cancel`: the sink becomes the reject callback (still undefined if no
     * run ever began) and pending is drained; in-flight work runs on.
     */
    method Cancel()
      requires Valid()
      modifies this
      ensures Valid()
      ensures sink == (if old(sink) == Unset then Unset else Reject)
      ensures pending == [] && inFlight == old(inFlight) && running == old(running)
      ensures added == [] && dispatched == []
    {
      sink := if sink == Unset then Unset else Reject;
      Drain();
    }

    /** `_drain`: empty pending in place. */
    method Drain()
      requires Valid()
      modifies this
      ensures Valid()
      ensures pending == [] && added == [] && dispatched == []
      ensures inFlight == old(inFlight) && running == old(running) && sink == old(sink)
    {
      pending := [];
      added, dispatched := [], [];
    }

    /**
     * `_taskFailed`, run by the rejection handler of an in-flight operation
     * before its `_taskFinished`: a run is active, so the sink becomes its
     * reject callback, and nothing still pending will start.
     */
    method TaskFailed(op: Operation)
      requires Valid() && op in inFlight
      modifies this
      ensures Valid()
      ensures sink == Reject
      ensures pending == [] && inFlight == old(inFlight) && running == old(running)
      ensures added == [] && dispatched == []
    {
      sink := Reject;
      Drain();
    }

    /**
     * `_taskFinished`: remove the operation's entry from in-flight (it must
     * be there: the source asserts it); if nothing is left in flight or
     * pending, stop running and settle through the sink; then dispatch again.
     */
    method TaskFinished(op: Operation) returns (settled: Option<Outcome>)
      requires Valid() && op in inFlight
      modifies this
      ensures Valid()
      ensures var rest := RemoveAt(old(inFlight), IndexOf(old(inFlight), op));
        && settled == (if rest == [] && old(pending) == [] then Some(Settlement(old(sink))) else None)
        && running == (settled == None)
        && DispatchedFrom(rest, old(pending))
      ensures sink == old(sink)
      ensures dispatched == old(dispatched) + inFlight[|old(inFlight)| - 1..]
      ensures added == old(added)
    {
      var idx := IndexOf(inFlight, op);
      inFlight := RemoveAt(inFlight, idx);
      settled := None;
      if inFlight == [] && pending == [] {
        running := false;
        settled := Some(Settlement(sink));
      }
      ghost var rest, queued := inFlight, pending;
      assert running == (settled == None);
      Dispatch();
      assert DispatchedFrom(rest, queued);
    }

    /**
     * `_start`: while in-flight is below the limit, take an operation from
     * pending (the front, or any index in random mode), start it and append
     * it to in-flight; stop when pending is empty.
     */
    method Dispatch()
      requires Consistent() && (running || pending == [])
      modifies this
      ensures Consistent()
      ensures DispatchedFrom(old(inFlight), old(pending))
      ensures dispatched == old(dispatched) + inFlight[|old(inFlight)|..]
      ensures running == old(running) && sink == old(sink)
      ensures added == old(added)
    {
      // The loop works on local copies, stored back when it ends. This
      // assumes that no task executor, which `op.start()` runs synchronously
      // inside the loop, calls back into the queue.
      var queue, flight := pending, inFlight;
      MovedNothing(inFlight, pending, !randomize);
      while |flight| < parallelism
        modifies {}
        invariant |flight| <= parallelism
        invariant Moved(inFlight, pending, flight, queue, !randomize)
        decreases parallelism - |flight|
      {
        if queue == [] {
          break;
        }
        var index: nat;
        if randomize {
          index :| index < |queue|;
        } else {
          index := 0;
        }
        var op := queue[index];
        MoveOne(inFlight, pending, flight, queue, !randomize, index);
        queue := RemoveAt(queue, index);
        flight := flight + [op];
      }
      if !randomize {
        MovedKeepsOrder(added, dispatched, inFlight, pending, flight, queue);
      }
      dispatched := dispatched + flight[|inFlight|..];
      pending, inFlight := queue, flight;
    }
  }
}
