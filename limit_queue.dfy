/**
 * The OperationQueue of limit.js, the earlier revision of the queue: no
 * failure path and no cancel, dispatch from the back of pending (`pop`), and
 * every completed operation recorded in `_finishedOperations`.
 *
 * Operations are objects whose `started` flag the queue sets, so they are a
 * class here, and the queue holds references to them. The completion of an
 * operation's promise is the event `TaskFinished`, called by the environment
 * for an operation that is in flight. The promise that `start` returns is
 * named by a number: the n-th call of `start` returns promise n, and
 * `resolver` says whose resolve callback `_resolveCallback` holds.
 */
module Limit {
  import opened JsArray
  import opened Wrappers

  class Operation {
    var started: bool

    constructor ()
      ensures !started
    {
      started := false;
    }

    /** `start`: mark the operation started (the task itself runs outside the model). */
    method Start()
      modifies this
      ensures started
    {
      started := true;
    }
  }

  /**
   * The order in which repeated `pop` hands out the elements of s: last
   * first. The dispatch loop starts the popped operations in this order.
   */
  function PopOrder<T>(s: seq<T>): (r: seq<T>)
    ensures |r| == |s|
  {
    seq(|s|, i requires 0 <= i < |s| => s[|s| - 1 - i])
  }

  /** Popping one more element from the back of pending extends the pop order by it. */
  lemma PopOrderStep<T>(pending0: seq<T>, k: nat)
    requires 0 < k <= |pending0|
    ensures PopOrder(pending0[k - 1..]) == PopOrder(pending0[k..]) + [pending0[k - 1]]
  {
  }

  /** Popping hands out every element exactly as often as it occurs: a permutation. */
  lemma {:induction false} PopOrderPermutes<T>(s: seq<T>)
    ensures multiset(PopOrder(s)) == multiset(s)
  {
    if s != [] {
      PopOrderStep(s, 1);
      assert s[0..] == s;
      PopOrderPermutes(s[1..]);
      assert s == [s[0]] + s[1..];
    }
  }

  /**
   * Cutting a tail off pending and appending it, in pop order, to in-flight
   * neither loses nor duplicates an operation.
   */
  lemma PopConserves<T>(inFlight0: seq<T>, pending0: seq<T>, inFlight: seq<T>, pending: seq<T>)
    requires |pending| <= |pending0| && pending == pending0[..|pending|]
    requires inFlight == inFlight0 + PopOrder(pending0[|pending|..])
    ensures multiset(pending) + multiset(inFlight) == multiset(pending0) + multiset(inFlight0)
  {
    PopOrderPermutes(pending0[|pending|..]);
    assert pending0 == pending + pending0[|pending|..];
  }

  class OperationQueue {
    const concurrency: nat

    var pending: seq<Operation>
    var inFlight: seq<Operation>
    var finished: seq<Operation>
    /** The promise whose resolve callback `_resolveCallback` holds, if any. */
    var resolver: Option<nat>
    /** How many promises `start` has returned so far. */
    var promises: nat

    /** Every operation ever added, in order. */
    ghost var added: seq<Operation>
    /**
     * The run of the stored resolve callback left nothing in flight. Only
     * `_taskFinished` calls that callback, so it never will.
     */
    ghost var stranded: bool

    /**
     * In-flight stays within the limit, an operation in flight has a
     * callback to report to, and no operation is lost or duplicated between
     * pending, in-flight and finished.
     */
    ghost predicate Valid()
      reads this
    {
      && |inFlight| <= concurrency
      && (inFlight != [] ==> resolver.Some?)
      && (resolver.Some? ==> resolver.value < promises)
      && multiset(added) == multiset(pending) + multiset(inFlight) + multiset(finished)
      && (stranded ==> inFlight == [] && resolver.Some?)
    }

    /**
     * Promise p was handed out, and its resolve callback is either replaced
     * by a later `start` or stranded: no `_taskFinished` can resolve it.
     */
    ghost predicate Abandoned(p: nat)
      reads this
    {
      p < promises && (resolver == Some(p) ==> stranded)
    }

    /**
     * What one pass of the dispatch loop leaves, from the arrays it started
     * with: in-flight full or pending exhausted, pending cut back from its
     * end, and in-flight extended by the cut-off operations in pop order.
     */
    ghost predicate DispatchedFrom(inFlight0: seq<Operation>, pending0: seq<Operation>)
      reads this
    {
      && |inFlight| <= concurrency
      && (|inFlight| == concurrency || pending == [])
      && |pending| <= |pending0|
      && pending == pending0[..|pending|]
      && inFlight == inFlight0 + PopOrder(pending0[|pending|..])
    }

    constructor (concurrency: nat)
      ensures Valid()
      ensures this.concurrency == concurrency
      ensures pending == [] && inFlight == [] && finished == []
      ensures resolver == None && promises == 0 && added == [] && !stranded
    {
      this.concurrency := concurrency;
      pending, inFlight, finished := [], [], [];
      resolver := None;
      promises := 0;
      added := [];
      stranded := false;
    }

    /** `addOperation`: append to pending; nothing else changes. */
    method AddOperation(op: Operation)
      requires Valid()
      modifies this
      ensures Valid()
      ensures pending == old(pending) + [op]
      ensures inFlight == old(inFlight) && finished == old(finished)
      ensures resolver == old(resolver) && promises == old(promises)
      ensures added == old(added) + [op] && stranded == old(stranded)
      ensures forall p :: old(Abandoned(p)) ==> Abandoned(p)
    {
      pending := pending + [op];
      added := added + [op];
    }

    /**
     * `start`: create the next promise, store its resolve callback
     * (replacing any earlier one) and run the dispatch loop.
     */
    method Start() returns (promise: nat)
      requires Valid()
      modifies this, pending
      ensures Valid()
      ensures promise == old(promises) && promises == promise + 1 && resolver == Some(promise)
      ensures DispatchedFrom(old(inFlight), old(pending))
      ensures forall i :: 0 <= i < |old(pending)| ==> (|pending| <= i || old(pending[i].started)) ==> old(pending)[i].started
      ensures forall o :: o in old(pending) && o !in old(pending)[|pending|..] ==> o.started == old(o.started)
      ensures finished == old(finished) && added == old(added)
      ensures stranded == (inFlight == [])
      ensures forall p :: old(Abandoned(p)) ==> Abandoned(p)
    {
      promise := promises;
      promises := promises + 1;
      resolver := Some(promise);
      stranded := false;
      ghost var objs: seq<object> := pending;
      assert this !in objs;  // as in Dispatch
      Dispatch();
      stranded := inFlight == [];
    }

    /**
     * `_taskFinished`: remove the operation's entry from in-flight (it must
     * be there: the source asserts it) and record it as finished; if nothing
     * is left in flight or pending, call the stored resolve callback; then
     * dispatch again.
     */
    method TaskFinished(task: Operation) returns (resolved: Option<nat>)
      requires Valid() && task in inFlight
      modifies this, pending
      ensures Valid()
      ensures var rest := RemoveAt(old(inFlight), IndexOf(old(inFlight), task));
        && (resolved.Some? <==> rest == [] && old(pending) == [])
        && DispatchedFrom(rest, old(pending))
      ensures resolved.Some? ==> resolved == old(resolver)
      ensures forall i :: 0 <= i < |old(pending)| ==> (|pending| <= i || old(pending[i].started)) ==> old(pending)[i].started
      ensures forall o :: o in old(pending) && o !in old(pending)[|pending|..] ==> o.started == old(o.started)
      ensures finished == old(finished) + [task]
      ensures resolver == old(resolver) && promises == old(promises) && added == old(added)
      ensures stranded == old(stranded)
      ensures forall p :: old(Abandoned(p)) ==> Abandoned(p)
      ensures resolved.Some? ==> !old(Abandoned(resolved.value))
    {
      resolved := Retire(task);
      // The queue is not one of the operations the loop may start, so its
      // own fields survive the call.
      ghost var objs: seq<object> := pending;
      assert this !in objs;
      Dispatch();
    }

    /**
     * The first half of `_taskFinished`: take the task out of in-flight,
     * record it as finished and answer the stored callback if nothing is
     * left in flight or pending.
     */
    method Retire(task: Operation) returns (resolved: Option<nat>)
      requires Valid() && task in inFlight
      modifies this
      ensures Valid() && resolver.Some?
      ensures inFlight == RemoveAt(old(inFlight), IndexOf(old(inFlight), task))
      ensures resolved.Some? <==> inFlight == [] && pending == []
      ensures resolved.Some? ==> resolved == resolver
      ensures pending == old(pending) && finished == old(finished) + [task]
      ensures resolver == old(resolver) && promises == old(promises) && added == old(added)
      ensures !stranded && stranded == old(stranded)
    {
      var idx := IndexOf(inFlight, task);
      inFlight := RemoveAt(inFlight, idx);
      finished := finished + [task];
      resolved := None;
      if |inFlight| == 0 && |pending| == 0 {
        resolved := resolver;
      }
    }

    /**
     * `_start`: while in-flight is below the limit, pop the last pending
     * operation, start it and append it to in-flight; stop when pending is
     * empty. `_start` is internal: only `start` (just after storing a new
     * callback) and `_taskFinished` (for a run with a task in flight) call
     * it, so it never runs for a stranded callback.
     */
    method Dispatch()
      requires Valid() && !stranded && (resolver.Some? || pending == [])
      modifies this, pending
      ensures Valid()
      ensures DispatchedFrom(old(inFlight), old(pending))
      ensures forall i :: 0 <= i < |old(pending)| ==> (|pending| <= i || old(pending[i].started)) ==> old(pending)[i].started
      ensures forall o :: o in old(pending) && o !in old(pending)[|pending|..] ==> o.started == old(o.started)
      ensures finished == old(finished) && resolver == old(resolver) && promises == old(promises)
      ensures added == old(added) && stranded == old(stranded)
    {
      // The queue is not one of the operations the loop may start, so its
      // own fields survive the call.
      ghost var objs: seq<object> := pending;
      assert this !in objs;
      var queue, flight := PopAndStart(pending, inFlight, concurrency);
      PopConserves(inFlight, pending, flight, queue);
      pending, inFlight := queue, flight;
    }

    /**
     * The loop of `_start`, on the two arrays: pop from the back of pending,
     * start, append to in-flight, until in-flight reaches the limit or
     * pending runs out. Only the operations it pops are touched.
     */
    static method PopAndStart(pending0: seq<Operation>, inFlight0: seq<Operation>, limit: nat)
      returns (queue: seq<Operation>, flight: seq<Operation>)
      requires |inFlight0| <= limit
      modifies pending0
      ensures |flight| <= limit && (|flight| == limit || queue == [])
      ensures |queue| <= |pending0| && queue == pending0[..|queue|]
      ensures flight == inFlight0 + PopOrder(pending0[|queue|..])
      ensures forall i :: 0 <= i < |pending0| ==> (|queue| <= i || old(pending0[i].started)) ==> pending0[i].started
      ensures forall o :: o in pending0 && o !in pending0[|queue|..] ==> o.started == old(o.started)
    {
      // `pop` shortens pending by one each round: n is its length.
      var n: nat := |pending0|;
      flight := inFlight0;
      while |flight| < limit
        invariant n <= |pending0| && |flight| <= limit
        invariant flight == inFlight0 + PopOrder(pending0[n..])
        invariant forall i :: 0 <= i < |pending0| ==> (n <= i || old(pending0[i].started)) ==> pending0[i].started
        invariant forall o :: o in pending0 && o !in pending0[n..] ==> o.started == old(o.started)
        decreases limit - |flight|
      {
        if n == 0 {
          break;
        }
        var op := pending0[n - 1];
        PopOrderStep(pending0, n);
        n := n - 1;
        op.Start();
        flight := flight + [op];
      }
      queue := pending0[..n];
    }
  }

  /**
   * `start` on a queue with nothing pending and nothing in flight: the
   * promise it returns waits on a resolve callback that only `_taskFinished`
   * calls, yet no operation is in flight to finish. The promise is
   * abandoned, and every later event keeps it so.
   */
  method EmptyStartLeavesNothingToFinish(concurrency: nat) returns (q: OperationQueue, promise: nat)
    ensures fresh(q) && q.Valid()
    ensures q.resolver == Some(promise)
    ensures q.pending == [] && q.inFlight == []
    ensures q.Abandoned(promise)
  {
    q := new OperationQueue(concurrency);
    promise := q.Start();
  }
}
