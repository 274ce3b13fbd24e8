/** An asynchronous sink: the channel's dispatcher hands it messages with
    `Log`, which only queues them; a worker of its own takes them off the
    queue and counts them in `total`. `Shutdown` sends a null sentinel,
    lets the worker finish and waits for it.

    The worker is modelled by explicit steps. While the sink runs and no
    shutdown is under way, `RunStep` is one turn of the worker's loop;
    `Shutdown` runs the worker to its end, as the join in the source waits
    for it. */
module Sinks {
  import opened Wrappers
  import opened Declare
  import opened Formatter
  import opened ConcurrentQueues

  /** A queue entry: a message, or the null pointer `Shutdown` sends to
      wake the worker. */
  type Entry = Option<LogMessage>

  /** What the worker adds to `total` for one entry: one for a message,
      nothing for the sentinel. */
  function Weight(e: Entry): (n: nat)
    ensures n == (if e.Some? then 1 else 0)
  {
    if e.Some? then 1 else 0
  }

  /** The number of messages (non-null entries) in a queue. */
  function Count(q: seq<Entry>): (n: nat)
    ensures n <= |q|
  {
    if q == [] then 0 else Weight(q[0]) + Count(q[1..])
  }

  lemma {:induction false} CountAppend(q: seq<Entry>, e: Entry)
    ensures Count(q + [e]) == Count(q) + Weight(e)
  {
    if q != [] {
      assert (q + [e])[1..] == q[1..] + [e];
      CountAppend(q[1..], e);
    }
  }

  /** A queue of messages only: no sentinel. */
  predicate NoSentinel(q: seq<Entry>)
  {
    forall i :: 0 <= i < |q| ==> q[i].Some?
  }

  lemma {:induction false} CountNoSentinel(q: seq<Entry>)
    requires NoSentinel(q)
    ensures Count(q) == |q|
  {
    if q != [] {
      assert NoSentinel(q[1..]) by {
        forall i | 0 <= i < |q[1..]| ensures q[1..][i].Some? { assert q[1..][i] == q[i + 1]; }
      }
      CountNoSentinel(q[1..]);
    }
  }

  /** The sink's fields that the source updates: its queue (front first),
      `running_`, `prepare_shutdown_` and `total_`. */
  datatype SinkState = SinkState(
    queue: seq<Entry>, running: bool, prepareShutdown: bool, total: int)

  /** Between calls no sentinel waits in the queue, and a running sink is
      not half-way through a shutdown. */
  predicate SinkValid(s: SinkState)
  {
    NoSentinel(s.queue) && (s.running ==> !s.prepareShutdown)
  }

  /** The constructor: not running, not preparing a shutdown, nothing
      queued. */
  function NewSink(): (s: SinkState)
    ensures SinkValid(s) && !s.running && !s.prepareShutdown && s.queue == []
  {
    SinkState([], false, false, 0)
  }

  /** `Log`: the message goes to the back of the queue; nothing else
      changes. */
  function SinkLog(s: SinkState, m: LogMessage): (r: SinkState)
    ensures r.queue == s.queue + [Some(m)]
    ensures r.running == s.running && r.prepareShutdown == s.prepareShutdown && r.total == s.total
  {
    s.(queue := s.queue + [Some(m)])
  }

  /** `Start`: a running sink is left alone; otherwise it runs again with
      its count reset and no shutdown pending. Queued messages stay. */
  function SinkStart(s: SinkState): (r: SinkState)
    ensures s.running ==> r == s
    ensures !s.running ==> r == SinkState(s.queue, true, false, 0)
  {
    if s.running then s else s.(running := true, total := 0, prepareShutdown := false)
  }

  /** One turn of the worker's loop while the sink runs: take the front
      entry and count it if it is a message. */
  function WorkerStep(s: SinkState): (r: SinkState)
    requires s.running && s.queue != []
  {
    s.(queue := s.queue[1..], total := s.total + Weight(s.queue[0]))
  }

  /** The drain phase: every remaining entry is taken off and the
      messages among them are counted; the result is the final count. */
  function Drain(q: seq<Entry>, total: int): int
  {
    if q == [] then total else Drain(q[1..], total + Weight(q[0]))
  }

  /** The drain counts each message once. */
  lemma {:induction false} DrainCountsAll(q: seq<Entry>, total: int)
    ensures Drain(q, total) == total + Count(q)
  {
    if q != [] {
      DrainCountsAll(q[1..], total + Weight(q[0]));
    }
  }

  /** `Shutdown`, with the worker's exit test placed as the dispatcher of
      the channel places its own: after any dequeued entry, null or not,
      the worker leaves its loop once a shutdown is pending. The caller
      sets `prepare_shutdown_` and queues the sentinel; the worker takes
      one entry, leaves the loop and drains the rest; then `running_` is
      false. */
  function SinkShutdown(s: SinkState): SinkState
  {
    if !s.running then s
    else
      var q := s.queue + [None];
      SinkState([], false, true, Drain(q[1..], s.total + Weight(q[0])))
  }

  /** Shutting a running sink down always completes, counts every message
      that was queued exactly once, and leaves the queue empty and the
      sink stopped. A stopped sink is left alone. */
  lemma ShutdownCountsEverything(s: SinkState)
    ensures !s.running ==> SinkShutdown(s) == s
    ensures s.running ==>
      SinkShutdown(s) == SinkState([], false, true, s.total + Count(s.queue))
  {
    if s.running {
      var q := s.queue + [None];
      DrainCountsAll(q[1..], s.total + Weight(q[0]));
      CountAppend(s.queue, None);
      assert q == [q[0]] + q[1..];
    }
  }

  /** The worker's loop as the source writes it, once a shutdown is
      pending: a null entry is skipped without looking at the flag, and
      only after a message does the worker leave the loop. When the queue
      runs dry first, the worker waits for ever (`None`); otherwise the
      result is what is left in the queue and the count so far. */
  function RunLoopAsWritten(q: seq<Entry>, total: int): Option<(seq<Entry>, int)>
  {
    if q == [] then None
    else if q[0].Some? then Some((q[1..], total + 1))
    else RunLoopAsWritten(q[1..], total)
  }

  /** `Shutdown` as written; `None` when it never returns (the worker
      waits on an empty queue, so the join never ends). */
  function SinkShutdownAsWritten(s: SinkState): Option<SinkState>
  {
    if !s.running then Some(s)
    else match RunLoopAsWritten(s.queue + [None], s.total)
      case None => None
      case Some((rest, t)) => Some(SinkState([], false, true, Drain(rest, t)))
  }

  lemma {:induction false} RunLoopAsWrittenEnds(q: seq<Entry>, total: int)
    ensures RunLoopAsWritten(q, total).Some? <==> Count(q) > 0
    ensures RunLoopAsWritten(q, total).Some? ==>
      Drain(RunLoopAsWritten(q, total).value.0, RunLoopAsWritten(q, total).value.1)
        == total + Count(q)
  {
    if q != [] {
      if q[0].Some? {
        DrainCountsAll(q[1..], total + 1);
      } else {
        RunLoopAsWrittenEnds(q[1..], total);
      }
    }
  }

  /** As written, shutting down a running sink returns exactly when a
      message is still queued, and then agrees with `SinkShutdown`; a
      running sink whose queue is empty never finishes its shutdown. */
  lemma ShutdownAsWrittenHangsWhenIdle(s: SinkState)
    requires SinkValid(s)
    ensures s.running ==> (SinkShutdownAsWritten(s).Some? <==> s.queue != [])
    ensures SinkShutdownAsWritten(s).Some? ==> SinkShutdownAsWritten(s).value == SinkShutdown(s)
  {
    if s.running {
      RunLoopAsWrittenEnds(s.queue + [None], s.total);
      CountAppend(s.queue, None);
      CountNoSentinel(s.queue);
      ShutdownCountsEverything(s);
    }
  }

  /** The concrete case: start a new sink and shut it down at once. */
  lemma StartThenShutdownHangs()
    ensures SinkShutdownAsWritten(SinkStart(NewSink())) == None
    ensures SinkShutdown(SinkStart(NewSink())) == SinkState([], false, true, 0)
  {
    ShutdownCountsEverything(SinkStart(NewSink()));
    assert SinkStart(NewSink()).queue + [None] == [None];
    assert RunLoopAsWritten([None], 0) == RunLoopAsWritten([], 0);
  }

  /** Every message is accounted for: counted, or still queued. */
  function Accounted(s: SinkState): int
  {
    s.total + Count(s.queue)
  }

  /** The operations keep `SinkValid`; `Log` accounts for one more
      message; a worker step and a shutdown lose none. */
  lemma SinkOperationsAccount(s: SinkState, m: LogMessage)
    requires SinkValid(s)
    ensures SinkValid(SinkLog(s, m)) && Accounted(SinkLog(s, m)) == Accounted(s) + 1
    ensures SinkValid(SinkStart(s))
    ensures SinkValid(SinkShutdown(s)) && Accounted(SinkShutdown(s)) == Accounted(s)
    ensures s.running && s.queue != [] ==>
      SinkValid(WorkerStep(s)) && Accounted(WorkerStep(s)) == Accounted(s)
  {
    CountAppend(s.queue, Some(m));
    ShutdownCountsEverything(s);
    var q := SinkLog(s, m).queue;
    assert NoSentinel(q) by {
      forall i | 0 <= i < |q| ensures q[i].Some? {
        if i < |s.queue| { assert q[i] == s.queue[i]; }
      }
    }
    if s.running && s.queue != [] {
      assert s.queue == [s.queue[0]] + s.queue[1..];
      assert NoSentinel(s.queue[1..]) by {
        forall i | 0 <= i < |s.queue[1..]| ensures s.queue[1..][i].Some? {
          assert s.queue[1..][i] == s.queue[i + 1];
        }
      }
    }
  }

  /** The sink object. The worker thread is not an object of the model:
      its loop turns are `RunStep` and, within `Shutdown`, the exit and
      drain of the loop. */
  class AsyncSink {
    const queue: ConcurrentQueue<Entry>
    var running: bool
    var prepareShutdown: bool
    var total: int
    /** The formatter installed with `SetFormatter`; `None` is the null
        function pointer. */
    var formatter: Option<FormatFn>

    function State(): SinkState
      reads this, queue
    {
      SinkState(queue.items, running, prepareShutdown, total)
    }

    constructor ()
      ensures State() == NewSink() && formatter == None && fresh(queue)
    {
      queue := new ConcurrentQueue<Entry>();
      running := false;
      prepareShutdown := false;
      total := 0;
      formatter := None;
    }

    method SetFormatter(f: FormatFn)
      modifies this
      ensures formatter == Some(f) && State() == old(State())
    {
      formatter := Some(f);
    }

    method Log(m: LogMessage)
      modifies queue
      ensures State() == SinkLog(old(State()), m)
    {
      queue.Enqueue(Some(m));
    }

    method Start()
      modifies this
      ensures State() == SinkStart(old(State())) && formatter == old(formatter)
    {
      if running {
        return;
      }
      running := true;
      total := 0;
      prepareShutdown := false;
    }

    method IsRun() returns (b: bool)
      ensures b == running
    {
      b := running;
    }

    /** One turn of the worker's loop while the sink runs. */
    method RunStep()
      requires running && queue.items != []
      modifies this, queue
      ensures State() == WorkerStep(old(State())) && formatter == old(formatter)
    {
      var e := queue.WaitAndDequeue();
      if e.Some? {
        total := total + 1;
      }
    }

    method Shutdown()
      modifies this, queue
      ensures State() == SinkShutdown(old(State())) && formatter == old(formatter)
    {
      if !running {
        return;
      }
      prepareShutdown := true;
      queue.Enqueue(None);
      ghost var q := queue.items;
      // The worker: one more turn of its loop, which ends it.
      var e := queue.WaitAndDequeue();
      if e.Some? {
        total := total + 1;
      }
      // The drain phase.
      ghost var final := Drain(queue.items, total);
      assert final == Drain(q[1..], old(total) + Weight(q[0]));
      var empty := queue.Empty();
      while !empty
        invariant empty <==> queue.items == []
        invariant Drain(queue.items, total) == final
        invariant running && prepareShutdown && formatter == old(formatter)
        decreases |queue.items|
      {
        ghost var before := queue.items;
        ghost var totalBefore := total;
        var entry := queue.TryDequeue();
        if entry.Some? && entry.value.Some? {
          total := total + 1;
        }
        assert Drain(before, totalBefore) == Drain(queue.items, total);
        empty := queue.Empty();
      }
      running := false;
    }
  }
}
