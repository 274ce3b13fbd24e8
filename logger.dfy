/** The logger facade: a `Logger` owns a channel and passes its calls on;
    `Log` builds one message from its arguments and offers it to the
    channel. One process-wide logger is registered at most once and
    looked up by the `LOG_*` macros. The system clock (microseconds since
    the epoch), the steady clock (milliseconds) and the calling thread's
    id are arguments. */
module Loggers {
  import opened Wrappers
  import opened Declare
  import opened RateLimiters
  import opened Sinks
  import opened Channels

  class Logger {
    const channel: Channel

    /** The constructor taking only a limiter: no sinks, and the channel
        is started at once. */
    constructor (limiter: Option<Limiter>)
      ensures fresh(channel) && fresh(channel.queue)
      ensures channel.State() == ChannelStart(NewChannel(limiter, []))
    {
      channel := new Channel(limiter, []);
      new;
      channel.Start();
    }

    /** The constructor taking a limiter and sinks: the channel is not
        started. */
    constructor WithSinks(limiter: Option<Limiter>, sinks: seq<SinkState>)
      ensures fresh(channel) && fresh(channel.queue)
      ensures channel.State() == NewChannel(limiter, sinks)
    {
      channel := new Channel(limiter, sinks);
    }

    method StartEngine()
      modifies channel
      ensures channel.State() == ChannelStart(old(channel.State()))
    {
      channel.Start();
    }

    method IsRun() returns (b: bool)
      ensures b == channel.running
    {
      b := channel.IsRun();
    }

    /** `force` has no effect, as in the channel. */
    method ShutdownEngine(force: bool)
      modifies channel, channel.queue
      ensures channel.State() == ChannelShutdown(old(channel.State()))
    {
      channel.Shutdown();
    }

    /** `Log`: one message with exactly the given fields, the clock
        reading as its timestamp and the caller's thread id, offered once
        to the channel. */
    method Log(level: LogLevel, message: string, tag: string, file: string, line: int32,
               data: Payload, timestamp: int, threadId: string, now: int)
      requires LimiterOk(channel.limiter)
      modifies channel, channel.queue
      ensures channel.State() == ChannelEnqueue(old(channel.State()),
        NewLogMessage(timestamp, level, tag, message, file, line, threadId, data), now)
    {
      var m := NewLogMessage(timestamp, level, tag, message, file, line, threadId, data);
      channel.Enqueue(m, now);
    }

    method AddSink(s: SinkState)
      modifies channel
      ensures channel.State() == ChannelAddSink(old(channel.State()), s)
    {
      channel.AddSink(s);
    }
  }

  /** The process-wide slot: empty until the first registration, which
      alone takes effect. The mutex guarding it is left out: each method is
      one critical section. */
  class Registry {
    var instance: Option<Logger>

    constructor ()
      ensures instance == None
    {
      instance := None;
    }

    /** The first call creates a logger with a `NullLimiter` and the given
        sinks, not started; later calls change nothing. */
    method RegisterLogger(sinks: seq<SinkState>)
      modifies this
      ensures old(instance).Some? ==> instance == old(instance)
      ensures old(instance).None? ==>
        && instance.Some? && fresh(instance.value) && fresh(instance.value.channel)
        && fresh(instance.value.channel.queue)
        && instance.value.channel.State() == NewChannel(Some(NullLimiter), sinks)
    {
      if instance.None? {
        var l := new Logger.WithSinks(Some(NullLimiter), sinks);
        instance := Some(l);
      }
    }

    method Get() returns (r: Option<Logger>)
      ensures r == instance
    {
      r := instance;
    }
  }

  /** Two registrations: the logger the slot holds is the first one, with
      the first call's sinks. */
  method FirstRegistrationWins(first: seq<SinkState>, second: seq<SinkState>)
    returns (got: Option<Logger>)
    ensures got.Some? && got.value.channel.State() == NewChannel(Some(NullLimiter), first)
  {
    var r := new Registry();
    var before := r.Get();
    assert before == None;
    r.RegisterLogger(first);
    r.RegisterLogger(second);
    got := r.Get();
  }

  /** The six macro families, `LOG_TRACE` to `LOG_FATAL`. */
  datatype Severity = TRACE | DEBUG | INFO | WARN | ERROR | FATAL

  /** The level each family logs at. `LOG_FATAL` names a `Fatal` level
      the enumeration lacks; its sixth level, `Critical`, stands for it. */
  function MacroLevel(s: Severity): (l: LogLevel)
    ensures Ordinal(l) == (match s
      case TRACE => 0 case DEBUG => 1 case INFO => 2 case WARN => 3 case ERROR => 4 case FATAL => 5)
  {
    match s
    case TRACE => Trace
    case DEBUG => Debug
    case INFO => Info
    case WARN => Warning
    case ERROR => Error
    case FATAL => Critical
  }

  /** Each level is logged by exactly one macro family. */
  lemma MacroLevelsOneToOne(l: LogLevel)
    ensures exists s :: MacroLevel(s) == l
    ensures forall s, t :: MacroLevel(s) == MacroLevel(t) ==> s == t
  {
    match l
    case Trace => assert MacroLevel(TRACE) == l;
    case Debug => assert MacroLevel(DEBUG) == l;
    case Info => assert MacroLevel(INFO) == l;
    case Warning => assert MacroLevel(WARN) == l;
    case Error => assert MacroLevel(ERROR) == l;
    case Critical => assert MacroLevel(FATAL) == l;
  }

  /** A use of a macro: `LOG_X(message)`, `LOG_X_T(message, tag)` or
      `LOG_X_COND_T(statement, message, tag)`. */
  datatype Macro =
    | Plain(severity: Severity)
    | Tagged(severity: Severity, tag: string)
    | Conditional(severity: Severity, statement: bool, tag: string)

  /** The `Log` call a macro makes: level, message and tag, or none. */
  datatype Request = Request(level: LogLevel, message: string, tag: string)

  function Expand(m: Macro, message: string): (r: Option<Request>)
  {
    match m
    case Plain(s) => Some(Request(MacroLevel(s), message, ""))
    case Tagged(s, tag) => Some(Request(MacroLevel(s), message, tag))
    case Conditional(s, statement, tag) =>
      if statement then Some(Request(MacroLevel(s), message, tag)) else None
  }

  /** Every macro passes the message through and logs at its family's
      level; the plain ones with an empty tag, the `_T` ones with the given
      tag, and the `_COND_T` ones exactly when their condition holds. */
  lemma ExpandEffect(m: Macro, message: string)
    ensures Expand(m, message).Some? <==> !(m.Conditional? && !m.statement)
    ensures Expand(m, message).Some? ==>
      && Expand(m, message).value.level == MacroLevel(m.severity)
      && Expand(m, message).value.message == message
      && Expand(m, message).value.tag == (if m.Plain? then "" else m.tag)
  {
  }

  /** A macro as the caller's code runs it: look the logger up and, when
      the macro logs, call `Log` with the caller's file and line and a null
      payload. The registered logger must exist when it is used. */
  method Emit(r: Registry, m: Macro, message: string, file: string, line: int32,
              timestamp: int, threadId: string, now: int)
    requires Expand(m, message).Some? ==>
      r.instance.Some? && LimiterOk(r.instance.value.channel.limiter)
    modifies if r.instance.Some? then {r.instance.value.channel, r.instance.value.channel.queue} else {}
    ensures r.instance == old(r.instance)
    ensures Expand(m, message).None? ==>
      r.instance.Some? ==> r.instance.value.channel.State() == old(r.instance.value.channel.State())
    ensures Expand(m, message).Some? ==>
      var q := Expand(m, message).value;
      r.instance.value.channel.State() == ChannelEnqueue(old(r.instance.value.channel.State()),
        NewLogMessage(timestamp, q.level, q.tag, q.message, file, line, threadId), now)
  {
    var call := Expand(m, message);
    if call.Some? {
      var l := r.Get();
      l.value.Log(call.value.level, call.value.message, call.value.tag, file, line,
                  NoPayload, timestamp, threadId, now);
    }
  }

  /** The whole pipeline: register `n` new sinks, start the engine, log
      each message through the null limiter, shut the engine down. Every
      sink has then counted every message, and nothing is left queued. */
  method EveryMessageReachesEverySink(n: nat, messages: seq<string>, now: int)
    returns (finals: seq<SinkState>)
    ensures |finals| == n
    ensures forall i :: 0 <= i < n ==> finals[i] == SinkState([], false, true, |messages|)
  {
    var r := new Registry();
    var sinks := seq(n, _ => NewSink());
    r.RegisterLogger(sinks);
    var got := r.Get();
    var l := got.value;
    l.StartEngine();
    StartRunsEverySink(NewChannel(Some(NullLimiter), sinks));
    var i := 0;
    while i < |messages|
      invariant 0 <= i <= |messages|
      invariant l.channel.sinks == StartAll(sinks) && l.channel.limiter == Some(NullLimiter)
      invariant l.channel.running && !l.channel.prepareShutdown
      invariant NoSentinel(l.channel.queue.items) && |l.channel.queue.items| == i
    {
      ghost var before := l.channel.State();
      l.Log(Info, messages[i], "", "", 0, NoPayload, 0, "", now);
      NullGateAdmits(before, NewLogMessage(0, Info, "", messages[i], "", 0, ""), now);
      ghost var q := l.channel.queue.items;
      assert NoSentinel(q) by {
        forall k | 0 <= k < |q| ensures q[k].Some? {
          if k < |before.queue| { assert q[k] == before.queue[k]; }
        }
      }
      i := i + 1;
    }
    ghost var pre := l.channel.State();
    assert ChannelValid(pre);
    ShutdownDeliversEverything(pre);
    l.ShutdownEngine(false);
    finals := l.channel.sinks;
    forall j | 0 <= j < n ensures finals[j] == SinkState([], false, true, |messages|) {
      assert pre.sinks[j] == SinkState([], true, false, 0);
    }
  }
}
