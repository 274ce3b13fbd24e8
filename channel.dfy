/** The channel: the logger's front door. `Enqueue` offers a message to
    the rate limiter and queues it when admitted; a dispatcher of its own
    takes messages off the queue and hands each to every registered sink,
    in registration order. `Shutdown` sends a null sentinel, shuts the
    sinks down, and sends a second sentinel to end the dispatcher.

    The sinks are held as their states (`SinkState`), and the limiter as
    its state; a null limiter pointer is `None`. The dispatcher is modelled
    by explicit steps: `DispatchStep` is one turn of its loop while the
    channel runs, and `Shutdown` runs it to its end in one fixed
    interleaving, stated at `ChannelShutdown`. */
module Channels {
  import opened Wrappers
  import opened Declare
  import opened RateLimiters
  import opened ConcurrentQueues
  import opened Sinks

  datatype ChannelState = ChannelState(
    queue: seq<Entry>, sinks: seq<SinkState>, limiter: Option<Limiter>,
    running: bool, prepareShutdown: bool)

  predicate LimiterOk(l: Option<Limiter>)
  {
    l.Some? ==> LimiterValid(l.value)
  }

  predicate AllSinksValid(ss: seq<SinkState>)
  {
    forall i :: 0 <= i < |ss| ==> SinkValid(ss[i])
  }

  /** Between calls no sentinel waits in the channel's queue, no shutdown
      is half done, and every sink and the limiter are in a valid state. */
  predicate ChannelValid(c: ChannelState)
  {
    NoSentinel(c.queue) && !c.prepareShutdown && AllSinksValid(c.sinks) && LimiterOk(c.limiter)
  }

  /** Both constructors (the first with no sinks): not running, nothing
      queued. `prepare_shutdown_` is left uninitialised by the source and
      is false here. */
  function NewChannel(limiter: Option<Limiter>, sinks: seq<SinkState>): (c: ChannelState)
    ensures c.queue == [] && c.sinks == sinks && c.limiter == limiter
    ensures !c.running && !c.prepareShutdown
  {
    ChannelState([], sinks, limiter, false, false)
  }

  /** The gate of `Enqueue`: no limiter admits everything; otherwise the
      limiter is asked once and its new state is kept. */
  function Gate(l: Option<Limiter>, now: int): (r: (bool, Option<Limiter>))
    requires LimiterOk(l)
    ensures LimiterOk(r.1)
    ensures l.None? ==> r == (true, None)
    ensures l.Some? ==> r == (LimiterAllow(l.value, now).0, Some(LimiterAllow(l.value, now).1))
  {
    match l
    case None => (true, None)
    case Some(lim) => var (ok, after) := LimiterAllow(lim, now); (ok, Some(after))
  }

  /** `Enqueue`: the message goes to the back of the queue when the gate
      admits it. */
  function ChannelEnqueue(c: ChannelState, m: LogMessage, now: int): ChannelState
    requires LimiterOk(c.limiter)
  {
    var (ok, after) := Gate(c.limiter, now);
    c.(queue := if ok then c.queue + [Some(m)] else c.queue, limiter := after)
  }

  /** `Enqueue` queues exactly the admitted message and changes nothing
      but the queue and the limiter. */
  lemma EnqueueEffect(c: ChannelState, m: LogMessage, now: int)
    requires ChannelValid(c)
    ensures var r := ChannelEnqueue(c, m, now);
      && ChannelValid(r)
      && r.sinks == c.sinks && r.running == c.running && r.prepareShutdown == c.prepareShutdown
      && r.limiter == Gate(c.limiter, now).1
      && (Gate(c.limiter, now).0 ==> r.queue == c.queue + [Some(m)])
      && (!Gate(c.limiter, now).0 ==> r.queue == c.queue)
  {
    var r := ChannelEnqueue(c, m, now);
    assert NoSentinel(r.queue) by {
      forall i | 0 <= i < |r.queue| ensures r.queue[i].Some? {
        if i < |c.queue| { assert r.queue[i] == c.queue[i]; }
      }
    }
  }

  /** A message offered to the channel and the time of the offer. */
  datatype Offer = Offer(msg: LogMessage, now: int)

  function EnqueueAll(c: ChannelState, offers: seq<Offer>): ChannelState
    requires LimiterOk(c.limiter)
    ensures LimiterOk(EnqueueAll(c, offers).limiter)
    decreases |offers|
  {
    if offers == [] then c
    else EnqueueAll(ChannelEnqueue(c, offers[0].msg, offers[0].now), offers[1..])
  }

  /** What a run of offers queues when every one is admitted. */
  function Offered(offers: seq<Offer>): (q: seq<Entry>)
    ensures |q| == |offers|
    ensures forall i :: 0 <= i < |offers| ==> q[i] == Some(offers[i].msg)
  {
    seq(|offers|, i requires 0 <= i < |offers| => Some(offers[i].msg))
  }

  /** A channel with no limiter, or gated by `NullLimiter`, queues every
      message it is offered, in order. */
  lemma {:induction false} NullLimiterQueuesEverything(c: ChannelState, offers: seq<Offer>)
    requires c.limiter == None || c.limiter == Some(NullLimiter)
    ensures EnqueueAll(c, offers).queue == c.queue + Offered(offers)
    ensures EnqueueAll(c, offers).limiter == c.limiter
    decreases |offers|
  {
    if offers != [] {
      var next := ChannelEnqueue(c, offers[0].msg, offers[0].now);
      NullGateAdmits(c, offers[0].msg, offers[0].now);
      NullLimiterQueuesEverything(next, offers[1..]);
      assert Offered(offers) == [Some(offers[0].msg)] + Offered(offers[1..]);
      assert c.queue + [Some(offers[0].msg)] + Offered(offers[1..])
          == c.queue + ([Some(offers[0].msg)] + Offered(offers[1..]));
    }
  }

  lemma NullGateAdmits(c: ChannelState, m: LogMessage, now: int)
    requires c.limiter == None || c.limiter == Some(NullLimiter)
    ensures ChannelEnqueue(c, m, now) == c.(queue := c.queue + [Some(m)])
  {
  }

  /** `AddSink`: the sink goes at the end of the list. */
  function ChannelAddSink(c: ChannelState, s: SinkState): (r: ChannelState)
    ensures |r.sinks| == |c.sinks| + 1 && r.sinks[..|c.sinks|] == c.sinks && r.sinks[|c.sinks|] == s
    ensures r.queue == c.queue && r.limiter == c.limiter
    ensures r.running == c.running && r.prepareShutdown == c.prepareShutdown
  {
    c.(sinks := c.sinks + [s])
  }

  /** Every sink started, in order. */
  function StartAll(ss: seq<SinkState>): (r: seq<SinkState>)
    ensures |r| == |ss|
    ensures forall i :: 0 <= i < |ss| ==> r[i] == SinkStart(ss[i])
  {
    seq(|ss|, i requires 0 <= i < |ss| => SinkStart(ss[i]))
  }

  /** `Start`: a running channel is left alone; otherwise it runs and
      starts every registered sink. */
  function ChannelStart(c: ChannelState): ChannelState
  {
    if c.running then c else c.(running := true, sinks := StartAll(c.sinks))
  }

  /** After `Start` the channel runs and so does every sink that was
      registered when it started; `Start` keeps `ChannelValid`. */
  lemma StartRunsEverySink(c: ChannelState)
    requires ChannelValid(c)
    ensures ChannelValid(ChannelStart(c)) && ChannelStart(c).running
    ensures !c.running ==> forall i :: 0 <= i < |c.sinks| ==> ChannelStart(c).sinks[i].running
    ensures c.running ==> ChannelStart(c) == c
  {
    if !c.running {
      forall i | 0 <= i < |c.sinks| ensures SinkValid(ChannelStart(c).sinks[i]) {
        assert ChannelStart(c).sinks[i] == SinkStart(c.sinks[i]);
      }
    }
  }

  /** What the dispatcher does with one dequeued entry: a message is
      logged on every sink; the sentinel on none. */
  function ForwardEntry(ss: seq<SinkState>, e: Entry): (r: seq<SinkState>)
    ensures |r| == |ss|
  {
    if e.None? then ss else seq(|ss|, i requires 0 <= i < |ss| => SinkLog(ss[i], e.value))
  }

  /** One turn of the dispatcher's loop while the channel runs and no
      shutdown is pending. */
  function DispatchTurn(c: ChannelState): ChannelState
    requires c.running && !c.prepareShutdown && c.queue != []
  {
    c.(queue := c.queue[1..], sinks := ForwardEntry(c.sinks, c.queue[0]))
  }

  /** The dispatcher forwards each entry of a queue in turn. */
  function Deliver(ss: seq<SinkState>, q: seq<Entry>): (r: seq<SinkState>)
    ensures |r| == |ss|
    decreases |q|
  {
    if q == [] then ss else Deliver(ForwardEntry(ss, q[0]), q[1..])
  }

  /** The messages of a queue, sentinels removed, in order. */
  function Messages(q: seq<Entry>): (m: seq<Entry>)
    ensures NoSentinel(m)
  {
    if q == [] then []
    else if q[0].Some? then [q[0]] + Messages(q[1..])
    else Messages(q[1..])
  }

  lemma {:induction false} MessagesAppend(q: seq<Entry>, e: Entry)
    ensures Messages(q + [e]) == Messages(q) + (if e.Some? then [e] else [])
  {
    if q != [] {
      assert (q + [e])[1..] == q[1..] + [e];
      MessagesAppend(q[1..], e);
    } else {
      assert [] + [e] == [e];
    }
  }

  lemma {:induction false} MessagesOfMessages(q: seq<Entry>)
    requires NoSentinel(q)
    ensures Messages(q) == q
  {
    if q != [] {
      assert NoSentinel(q[1..]) by {
        forall i | 0 <= i < |q[1..]| ensures q[1..][i].Some? { assert q[1..][i] == q[i + 1]; }
      }
      MessagesOfMessages(q[1..]);
      assert q == [q[0]] + q[1..];
    }
  }

  /** Fan-out: delivering a queue appends its messages, and no sentinel,
      to every sink's queue, in order; nothing else about a sink changes. */
  lemma {:induction false} DeliverAppendsMessages(ss: seq<SinkState>, q: seq<Entry>)
    ensures forall i :: 0 <= i < |ss| ==>
      Deliver(ss, q)[i] == ss[i].(queue := ss[i].queue + Messages(q))
    decreases |q|
  {
    if q == [] {
      forall i | 0 <= i < |ss| ensures Deliver(ss, q)[i] == ss[i].(queue := ss[i].queue + Messages(q)) {
        assert ss[i].queue + [] == ss[i].queue;
      }
    } else {
      var next := ForwardEntry(ss, q[0]);
      DeliverAppendsMessages(next, q[1..]);
      forall i | 0 <= i < |ss|
        ensures Deliver(ss, q)[i] == ss[i].(queue := ss[i].queue + Messages(q))
      {
        if q[0].Some? {
          assert next[i] == SinkLog(ss[i], q[0].value);
          assert Messages(q) == [q[0]] + Messages(q[1..]);
          assert ss[i].queue + [q[0]] + Messages(q[1..]) == ss[i].queue + ([q[0]] + Messages(q[1..]));
        }
      }
    }
  }

  /** Every sink shut down, in order. */
  function ShutdownAll(ss: seq<SinkState>): (r: seq<SinkState>)
    ensures |r| == |ss|
    ensures forall i :: 0 <= i < |ss| ==> r[i] == SinkShutdown(ss[i])
  {
    seq(|ss|, i requires 0 <= i < |ss| => SinkShutdown(ss[i]))
  }

  /** `Shutdown` of a running channel, in this interleaving: the caller
      sets `prepare_shutdown_` and queues a sentinel; the dispatcher, woken,
      takes one entry, leaves its loop and forwards every entry still
      queued, the sentinel included (it is never forwarded); the caller
      shuts each sink down in list order, clears `running_` and queues a
      second sentinel; the dispatcher takes it, sees `running_` false,
      clears `prepare_shutdown_` and ends, and the join returns. A channel
      that is not running is left alone. */
  function ChannelShutdown(c: ChannelState): ChannelState
  {
    if !c.running then c
    else
      var delivered := Deliver(c.sinks, c.queue + [None]);
      ChannelState([], ShutdownAll(delivered), c.limiter, false, false)
  }

  /** Shutting a running channel down delivers every message that was
      queued to every sink: a sink that was running ends stopped, with
      everything counted that it held and everything the channel held; a
      sink that was never started (one added after `Start`) keeps the
      messages queued, uncounted. The channel ends stopped and empty, and
      `ChannelValid` holds again. */
  lemma ShutdownDeliversEverything(c: ChannelState)
    requires ChannelValid(c)
    ensures var r := ChannelShutdown(c);
      && ChannelValid(r) && !r.running && |r.sinks| == |c.sinks|
      && (c.running ==> r.queue == [])
      && (!c.running ==> r == c)
      && (c.running ==> forall i :: 0 <= i < |c.sinks| ==>
            r.sinks[i] == (if c.sinks[i].running
              then SinkState([], false, true, c.sinks[i].total + Count(c.sinks[i].queue) + |c.queue|)
              else c.sinks[i].(queue := c.sinks[i].queue + c.queue)))
  {
    if c.running {
      var delivered := Deliver(c.sinks, c.queue + [None]);
      DeliveredBeforeShutdown(c);
      var r := ChannelShutdown(c);
      forall i | 0 <= i < |c.sinks|
        ensures r.sinks[i] == (if c.sinks[i].running
              then SinkState([], false, true, c.sinks[i].total + Count(c.sinks[i].queue) + |c.queue|)
              else c.sinks[i].(queue := c.sinks[i].queue + c.queue))
        ensures SinkValid(r.sinks[i])
      {
        ShutdownCountsEverything(delivered[i]);
        CountAppendAll(c.sinks[i].queue, c.queue);
        CountNoSentinel(c.queue);
      }
    }
  }

  /** What each sink holds when the caller of `Shutdown` reaches it: its
      own queue followed by the channel's, and it is still valid. */
  lemma DeliveredBeforeShutdown(c: ChannelState)
    requires ChannelValid(c)
    ensures var d := Deliver(c.sinks, c.queue + [None]);
      forall i :: 0 <= i < |c.sinks| ==>
        d[i] == c.sinks[i].(queue := c.sinks[i].queue + c.queue) && SinkValid(d[i])
  {
    var q := c.queue + [None];
    MessagesAppend(c.queue, None);
    MessagesOfMessages(c.queue);
    DeliverAppendsMessages(c.sinks, q);
    var d := Deliver(c.sinks, q);
    forall i | 0 <= i < |c.sinks| ensures SinkValid(d[i]) {
      var s := d[i];
      assert s.queue == c.sinks[i].queue + c.queue;
      forall k | 0 <= k < |s.queue| ensures s.queue[k].Some? {
        if k < |c.sinks[i].queue| {
          assert s.queue[k] == c.sinks[i].queue[k];
        } else {
          assert s.queue[k] == c.queue[k - |c.sinks[i].queue|];
        }
      }
    }
  }

  /** The sinks shut down in list order with `Shutdown` as the source
      writes it: `None` when one of them never returns. */
  function ShutdownAllAsWritten(ss: seq<SinkState>): Option<seq<SinkState>>
    decreases |ss|
  {
    if ss == [] then Some([])
    else match (SinkShutdownAsWritten(ss[0]), ShutdownAllAsWritten(ss[1..]))
      case (Some(s), Some(rest)) => Some([s] + rest)
      case _ => None
  }

  /** As written, shutting the sinks down returns exactly when every
      running one still holds an entry, and then agrees with
      `ShutdownAll`. */
  lemma {:induction false} ShutdownAllAsWrittenReturns(ss: seq<SinkState>)
    requires AllSinksValid(ss)
    ensures ShutdownAllAsWritten(ss).Some?
        <==> forall i :: 0 <= i < |ss| && ss[i].running ==> ss[i].queue != []
    ensures ShutdownAllAsWritten(ss).Some? ==> ShutdownAllAsWritten(ss).value == ShutdownAll(ss)
    decreases |ss|
  {
    if ss != [] {
      var tl := ss[1..];
      assert forall i :: 0 <= i < |tl| ==> tl[i] == ss[i + 1];
      ShutdownAsWrittenHangsWhenIdle(ss[0]);
      ShutdownAllAsWrittenReturns(tl);
      if ShutdownAllAsWritten(ss).Some? {
        assert ShutdownAllAsWritten(ss).value == ShutdownAll(ss);
      }
    }
  }

  /** `Shutdown` as the source writes it: the schedule of
      `ChannelShutdown`, with each sink's own `Shutdown` as written. */
  function ChannelShutdownAsWritten(c: ChannelState): Option<ChannelState>
  {
    if !c.running then Some(c)
    else match ShutdownAllAsWritten(Deliver(c.sinks, c.queue + [None]))
      case None => None
      case Some(ss) => Some(ChannelState([], ss, c.limiter, false, false))
  }

  /** As written, shutting a running channel down returns exactly when
      every running sink holds a message when its `Shutdown` is called
      (one of its own or one the channel forwarded), and then agrees with
      `ChannelShutdown`. */
  lemma ChannelShutdownAsWrittenReturns(c: ChannelState)
    requires ChannelValid(c)
    ensures c.running ==> (ChannelShutdownAsWritten(c).Some?
      <==> forall i :: 0 <= i < |c.sinks| && c.sinks[i].running ==>
             c.sinks[i].queue + c.queue != [])
    ensures ChannelShutdownAsWritten(c).Some? ==>
      ChannelShutdownAsWritten(c).value == ChannelShutdown(c)
  {
    if c.running {
      var d := Deliver(c.sinks, c.queue + [None]);
      DeliveredBeforeShutdown(c);
      ShutdownAllAsWrittenReturns(d);
    }
  }

  /** The concrete case: a channel with one sink, started and shut down
      with nothing logged, never returns as written; corrected, the sink
      ends stopped with a count of 0. */
  lemma IdleChannelShutdownHangs()
    ensures ChannelShutdownAsWritten(ChannelStart(NewChannel(None, [NewSink()]))) == None
    ensures ChannelShutdown(ChannelStart(NewChannel(None, [NewSink()]))).sinks
         == [SinkState([], false, true, 0)]
  {
    var c := ChannelStart(NewChannel(None, [NewSink()]));
    StartRunsEverySink(NewChannel(None, [NewSink()]));
    ChannelShutdownAsWrittenReturns(c);
    ShutdownDeliversEverything(c);
  }

  lemma {:induction false} CountAppendAll(p: seq<Entry>, q: seq<Entry>)
    ensures Count(p + q) == Count(p) + Count(q)
  {
    if p != [] {
      assert (p + q)[1..] == p[1..] + q;
      CountAppendAll(p[1..], q);
    } else {
      assert [] + q == q;
    }
  }

  /** Dispatching loses nothing: for every sink, the messages it has
      counted or holds, plus the messages still in the channel's queue,
      are the same before and after a turn of the dispatcher; the turn
      keeps `ChannelValid`. */
  lemma DispatchLosesNothing(c: ChannelState)
    requires ChannelValid(c) && c.running && c.queue != []
    ensures var r := DispatchTurn(c);
      && ChannelValid(r) && |r.sinks| == |c.sinks|
      && forall i :: 0 <= i < |c.sinks| ==>
           Accounted(r.sinks[i]) + Count(r.queue) == Accounted(c.sinks[i]) + Count(c.queue)
  {
    var r := DispatchTurn(c);
    var m := c.queue[0];
    assert m.Some?;
    assert c.queue == [m] + c.queue[1..];
    assert NoSentinel(r.queue) by {
      forall k | 0 <= k < |r.queue| ensures r.queue[k].Some? { assert r.queue[k] == c.queue[k + 1]; }
    }
    forall i | 0 <= i < |c.sinks|
      ensures SinkValid(r.sinks[i])
      ensures Accounted(r.sinks[i]) + Count(r.queue) == Accounted(c.sinks[i]) + Count(c.queue)
    {
      assert r.sinks[i] == SinkLog(c.sinks[i], m.value);
      SinkOperationsAccount(c.sinks[i], m.value);
    }
  }

  /** A sink added while the channel runs is never started: the messages
      dispatched to it stay in its queue, and shutting the channel down
      leaves them there uncounted. */
  lemma LateSinkKeepsMessages(c: ChannelState, m: LogMessage, now: int)
    requires ChannelValid(c) && c.running && c.limiter == None
    ensures var r := ChannelShutdown(ChannelEnqueue(ChannelAddSink(c, NewSink()), m, now));
      r.sinks[|c.sinks|] == SinkState(c.queue + [Some(m)], false, false, 0)
  {
    var added := ChannelAddSink(c, NewSink());
    assert ChannelValid(added) by {
      assert forall i :: 0 <= i < |c.sinks| ==> added.sinks[i] == c.sinks[i];
    }
    var queued := ChannelEnqueue(added, m, now);
    EnqueueEffect(added, m, now);
    ShutdownDeliversEverything(queued);
    assert [] + (c.queue + [Some(m)]) == c.queue + [Some(m)];
  }

  /** The channel object. The sinks are held as their states, in
      registration order. */
  class Channel {
    const queue: ConcurrentQueue<Entry>
    var sinks: seq<SinkState>
    var limiter: Option<Limiter>
    var running: bool
    var prepareShutdown: bool

    function State(): ChannelState
      reads this, queue
    {
      ChannelState(queue.items, sinks, limiter, running, prepareShutdown)
    }

    constructor (limiter: Option<Limiter>, sinks: seq<SinkState>)
      ensures State() == NewChannel(limiter, sinks) && fresh(queue)
    {
      queue := new ConcurrentQueue<Entry>();
      this.sinks := sinks;
      this.limiter := limiter;
      running := false;
      prepareShutdown := false;
    }

    method Start()
      modifies this
      ensures State() == ChannelStart(old(State()))
    {
      if running {
        return;
      }
      running := true;
      var i := 0;
      while i < |sinks|
        invariant 0 <= i <= |sinks| == |old(sinks)|
        invariant forall j :: 0 <= j < i ==> sinks[j] == SinkStart(old(sinks)[j])
        invariant forall j :: i <= j < |sinks| ==> sinks[j] == old(sinks)[j]
        invariant limiter == old(limiter) && prepareShutdown == old(prepareShutdown) && running
      {
        sinks := sinks[i := SinkStart(sinks[i])];
        i := i + 1;
      }
    }

    method IsRun() returns (b: bool)
      ensures b == running
    {
      b := running;
    }

    /** `now` is the steady-clock reading the limiter takes. */
    method Enqueue(m: LogMessage, now: int)
      requires LimiterOk(limiter)
      modifies this, queue
      ensures State() == ChannelEnqueue(old(State()), m, now)
    {
      var admitted := true;
      if limiter.Some? {
        var (ok, after) := LimiterAllow(limiter.value, now);
        admitted := ok;
        limiter := Some(after);
      }
      if admitted {
        queue.Enqueue(Some(m));
      }
    }

    method AddSink(s: SinkState)
      modifies this
      ensures State() == ChannelAddSink(old(State()), s)
    {
      sinks := sinks + [s];
    }

    /** Hands one dequeued entry to the sinks. */
    method Forward(e: Entry)
      modifies this
      ensures sinks == ForwardEntry(old(sinks), e)
      ensures limiter == old(limiter) && running == old(running)
      ensures prepareShutdown == old(prepareShutdown)
    {
      if e.None? {
        return;
      }
      var i := 0;
      while i < |sinks|
        invariant 0 <= i <= |sinks| == |old(sinks)|
        invariant forall j :: 0 <= j < i ==> sinks[j] == SinkLog(old(sinks)[j], e.value)
        invariant forall j :: i <= j < |sinks| ==> sinks[j] == old(sinks)[j]
        invariant limiter == old(limiter) && running == old(running)
        invariant prepareShutdown == old(prepareShutdown)
      {
        sinks := sinks[i := SinkLog(sinks[i], e.value)];
        i := i + 1;
      }
    }

    /** One turn of the dispatcher's loop. */
    method DispatchStep()
      requires running && !prepareShutdown && queue.items != []
      modifies this, queue
      ensures State() == DispatchTurn(old(State()))
    {
      var e := queue.WaitAndDequeue();
      Forward(e);
    }

    method Shutdown()
      modifies this, queue
      ensures State() == ChannelShutdown(old(State()))
    {
      if !running {
        return;
      }
      prepareShutdown := true;
      queue.Enqueue(None);
      ghost var q := queue.items;
      // The dispatcher: one more turn of its loop, which ends it.
      var e := queue.WaitAndDequeue();
      Forward(e);
      // The dispatcher's drain, while `running_` still holds.
      ghost var final := Deliver(sinks, queue.items);
      assert final == Deliver(old(sinks), q);
      var empty := queue.Empty();
      while !empty
        invariant empty <==> queue.items == []
        invariant Deliver(sinks, queue.items) == final
        invariant running && prepareShutdown && limiter == old(limiter)
        decreases |queue.items|
      {
        ghost var before := queue.items;
        ghost var sinksBefore := sinks;
        var entry := queue.TryDequeue();
        Forward(entry.value);
        assert Deliver(sinksBefore, before) == Deliver(sinks, queue.items);
        empty := queue.Empty();
      }
      // The caller: each sink in list order.
      var i := 0;
      while i < |sinks|
        invariant 0 <= i <= |sinks| == |final|
        invariant forall j :: 0 <= j < i ==> sinks[j] == SinkShutdown(final[j])
        invariant forall j :: i <= j < |sinks| ==> sinks[j] == final[j]
        invariant queue.items == [] && running && limiter == old(limiter)
      {
        sinks := sinks[i := SinkShutdown(sinks[i])];
        i := i + 1;
      }
      running := false;
      queue.Enqueue(None);
      // The dispatcher: the second sentinel, then the end of its loop.
      var last := queue.TryDequeue();
      Forward(last.value);
      prepareShutdown := false;
    }
  }
}
