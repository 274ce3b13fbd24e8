/** The mutex-protected FIFO queue that carries log messages from the
    caller's thread to the dispatcher and sink workers. Every operation
    holds the queue's mutex for its whole duration, so a run of several
    threads is some interleaving of whole operations; the model is the
    queue's contents (front first) and that interleaving. */
module ConcurrentQueues {
  import opened Wrappers

  /** One whole operation on the queue, as some thread performs it. */
  datatype Op<T> = Enqueue(value: T) | TryDequeue

  /** The values an interleaving of operations enqueues, in order. */
  function Pushed<T>(ops: seq<Op<T>>): (r: seq<T>)
    ensures |r| <= |ops|
  {
    if ops == [] then []
    else (if ops[0].Enqueue? then [ops[0].value] else []) + Pushed(ops[1..])
  }

  /** What an interleaving leaves: the values the successful dequeues
      returned, in the order they were returned, and what the queue holds
      afterwards. */
  datatype Outcome<T> = Outcome(dequeued: seq<T>, left: seq<T>)

  /** Runs an interleaving of operations on a queue holding `q`. */
  function Apply<T>(q: seq<T>, ops: seq<Op<T>>): (r: Outcome<T>)
    decreases |ops|
  {
    if ops == [] then Outcome([], q)
    else if ops[0].Enqueue? then Apply(q + [ops[0].value], ops[1..])
    else if q == [] then Apply(q, ops[1..])
    else var r := Apply(q[1..], ops[1..]); Outcome([q[0]] + r.dequeued, r.left)
  }

  /** FIFO with nothing lost or invented: what was dequeued, followed by
      what is left, is exactly what was there plus what was enqueued, in
      the same order. */
  lemma {:induction false} DequeuedThenLeftIsEnqueued<T>(q: seq<T>, ops: seq<Op<T>>)
    ensures Apply(q, ops).dequeued + Apply(q, ops).left == q + Pushed(ops)
    decreases |ops|
  {
    if ops != [] {
      var rest := Pushed(ops[1..]);
      if ops[0].Enqueue? {
        assert Pushed(ops) == [ops[0].value] + rest;
        DequeuedThenLeftIsEnqueued(q + [ops[0].value], ops[1..]);
        assert q + [ops[0].value] + rest == q + ([ops[0].value] + rest);
      } else if q == [] {
        assert Pushed(ops) == [] + rest;
        DequeuedThenLeftIsEnqueued(q, ops[1..]);
      } else {
        assert Pushed(ops) == [] + rest;
        DequeuedThenLeftIsEnqueued(q[1..], ops[1..]);
        var r := Apply(q[1..], ops[1..]);
        assert [q[0]] + r.dequeued + r.left == [q[0]] + (r.dequeued + r.left);
        assert q == [q[0]] + q[1..];
      }
    }
  }

  /** When every enqueued value has been dequeued by someone, the queue is
      empty: the multi-threaded property that consumers which together
      dequeue as many values as the producers enqueue leave nothing
      behind, and that they received exactly the values enqueued. */
  lemma AllDequeuedLeavesEmpty<T>(ops: seq<Op<T>>)
    requires |Apply([], ops).dequeued| == |Pushed(ops)|
    ensures Apply([], ops).left == []
    ensures Apply([], ops).dequeued == Pushed(ops)
  {
    DequeuedThenLeftIsEnqueued([], ops);
    assert [] + Pushed(ops) == Pushed(ops);
  }

  /** The queue object. `items` is the content of the `std::queue`, front
      first; the mutex and the condition variable are left out because
      every method below is one whole critical section. */
  class ConcurrentQueue<T> {
    var items: seq<T>

    constructor ()
      ensures items == []
    {
      items := [];
    }

    /** Takes the front value if there is one; never blocks. */
    method TryDequeue() returns (r: Option<T>)
      modifies this
      ensures old(items) == [] ==> r == None && items == []
      ensures old(items) != [] ==> r == Some(old(items)[0]) && items == old(items)[1..]
    {
      if items == [] {
        r := None;
      } else {
        r := Some(items[0]);
        items := items[1..];
      }
    }

    /** Blocks until the queue is non-empty, then takes the front value.
        Only the state in which the wait has ended is modelled: a caller
        reaches the dequeue with a value in the queue. */
    method WaitAndDequeue() returns (v: T)
      requires items != []
      modifies this
      ensures v == old(items)[0] && items == old(items)[1..]
    {
      v := items[0];
      items := items[1..];
    }

    /** Waits at most `timeout` seconds. No other thread exists in the
        model, so a queue that is empty when the wait starts stays empty
        and the wait times out. */
    method WaitAndDequeueFor(timeout: nat) returns (r: Option<T>)
      modifies this
      ensures old(items) == [] ==> r == None && items == []
      ensures old(items) != [] ==> r == Some(old(items)[0]) && items == old(items)[1..]
    {
      if items == [] {
        r := None;
      } else {
        r := Some(items[0]);
        items := items[1..];
      }
    }

    /** Adds a value at the back. */
    method Enqueue(value: T)
      modifies this
      ensures items == old(items) + [value]
    {
      items := items + [value];
    }

    /** Drops everything queued. */
    method Clear()
      modifies this
      ensures items == []
    {
      items := [];
    }

    method Empty() returns (b: bool)
      ensures b <==> items == []
    {
      b := items == [];
    }

    method Size() returns (n: nat)
      ensures n == |items|
    {
      n := |items|;
    }

    /** One operation of an interleaving, performed on this queue; the
        dequeued value, if any, is returned. */
    method Perform(op: Op<T>) returns (r: Option<T>)
      modifies this
      ensures op.Enqueue? ==> r == None && items == old(items) + [op.value]
      ensures op.TryDequeue? ==> r == (if old(items) == [] then None else Some(old(items)[0]))
      ensures op.TryDequeue? ==> items == (if old(items) == [] then [] else old(items)[1..])
    {
      match op
      case Enqueue(x) => Enqueue(x); r := None;
      case TryDequeue => r := TryDequeue();
    }
  }

  /** Runs an interleaving of operations on a fresh queue and collects the
      values dequeued; the queue object does what `Apply` says. */
  method Replay<T>(ops: seq<Op<T>>) returns (out: seq<T>, left: seq<T>)
    ensures Outcome(out, left) == Apply([], ops)
  {
    var q := new ConcurrentQueue<T>();
    out := [];
    var i := 0;
    assert ops[0..] == ops;
    while i < |ops|
      invariant 0 <= i <= |ops|
      invariant Apply([], ops).dequeued == out + Apply(q.items, ops[i..]).dequeued
      invariant Apply([], ops).left == Apply(q.items, ops[i..]).left
    {
      assert ops[i..][0] == ops[i] && ops[i..][1..] == ops[i + 1..];
      ghost var before := q.items;
      var r := q.Perform(ops[i]);
      if r.Some? {
        assert Apply(before, ops[i..]).dequeued == [r.value] + Apply(q.items, ops[i + 1..]).dequeued;
        assert out + ([r.value] + Apply(q.items, ops[i + 1..]).dequeued)
            == (out + [r.value]) + Apply(q.items, ops[i + 1..]).dequeued;
        out := out + [r.value];
      }
      i := i + 1;
    }
    assert ops[i..] == [];
    left := q.items;
  }

  /** Values come out of the queue in the order they went in. */
  method FifoOrder<T>(xs: seq<T>) returns (out: seq<T>)
    ensures out == xs
  {
    var q := new ConcurrentQueue<T>();
    var i := 0;
    while i < |xs|
      invariant 0 <= i <= |xs|
      invariant q.items == xs[..i]
    {
      q.Enqueue(xs[i]);
      i := i + 1;
    }
    assert xs[..i] == xs;
    out := [];
    while q.items != []
      invariant out + q.items == xs
      decreases |q.items|
    {
      var v := q.WaitAndDequeue();
      out := out + [v];
    }
  }

  /** `Empty()` answers true exactly when `Size()` answers zero, on any
      queue. */
  method EmptyMatchesSize<T>(q: ConcurrentQueue<T>) returns (empty: bool, size: nat)
    ensures empty <==> size == 0
    ensures size == |q.items|
  {
    empty := q.Empty();
    size := q.Size();
  }

  /** The single-threaded test: empty at first, size one after one
      enqueue, the value comes back and the queue is empty again. */
  method SingleThreaded() returns (emptyBefore: bool, size: nat, got: Option<int>, emptyAfter: bool)
    ensures emptyBefore && size == 1 && got == Some(1) && emptyAfter
  {
    var q := new ConcurrentQueue<int>();
    emptyBefore := q.Empty();
    q.Enqueue(1);
    size := q.Size();
    got := q.TryDequeue();
    emptyAfter := q.Empty();
  }

  /** The timeout test: waiting on an empty queue gives up. */
  method TimeoutOnEmpty() returns (got: Option<int>)
    ensures got == None
  {
    var q := new ConcurrentQueue<int>();
    got := q.WaitAndDequeueFor(1);
  }

  /** The clearing test: two values in, size two, empty after `Clear`. */
  method ClearEmpties() returns (size: nat, emptyAfter: bool)
    ensures size == 2 && emptyAfter
  {
    var q := new ConcurrentQueue<int>();
    q.Enqueue(1);
    q.Enqueue(2);
    size := q.Size();
    q.Clear();
    emptyAfter := q.Empty();
  }

  /** The wait-and-dequeue test, with the producer's enqueue placed before
      the consumer's wait ends: the consumer receives 42. */
  method WaitReceivesProduced() returns (got: int)
    ensures got == 42
  {
    var q := new ConcurrentQueue<int>();
    q.Enqueue(42);
    got := q.WaitAndDequeue();
  }
}
