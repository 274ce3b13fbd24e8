/** The deferred file sink: each processed message is formatted into one
    line that is appended to an in-memory buffer; the buffer goes to the
    file once it has grown to the configured size or once the configured
    interval has passed since the last flush, and a last time when the sink
    is destroyed. The file is the text it holds (it is opened for
    appending, so it starts with what was there before); steady-clock
    readings are milliseconds passed in by the caller, and the flush
    interval is in whole seconds. */
module FileSinks {
  import opened Wrappers
  import opened Declare
  import opened Formatter
  import opened Sinks

  /** The file's contents, the buffer and the time of the last flush. */
  datatype FileSinkState = FileSinkState(file: string, buffer: string, lastFlushTime: int)

  /** The two thresholds fixed at construction: the buffer size in
      bytes and the flush interval in seconds (4096 and 5 by
      default). */
  datatype Thresholds = Thresholds(flushBufferSize: nat, maxInterval: nat)

  const DefaultThresholds := Thresholds(4096, 5)

  /** The constructor: the file as it was found, an empty buffer, and the
      construction time as the last flush. */
  function NewFileSink(existing: string, now: int): (s: FileSinkState)
    ensures s.file == existing && s.buffer == [] && s.lastFlushTime == now
  {
    FileSinkState(existing, [], now)
  }

  /** `FlushBuffer`: an empty buffer leaves everything as it is; otherwise
      the buffer is written to the file, cleared, and `now` becomes the time
      of the last flush. */
  function Flush(s: FileSinkState, now: int): (r: FileSinkState)
    ensures r.file + r.buffer == s.file + s.buffer
    ensures r.buffer == []
    ensures s.buffer == [] ==> r == s
    ensures s.buffer != [] ==> r.lastFlushTime == now
  {
    if s.buffer == [] then s else FileSinkState(s.file + s.buffer, [], now)
  }

  /** The bytes a character takes in UTF-8. */
  function Utf8Width(c: char): (n: nat)
    ensures 1 <= n <= 4
    ensures n == 1 <==> c as int < 0x80
  {
    if c as int < 0x80 then 1
    else if c as int < 0x800 then 2
    else if c as int < 0x10000 then 3
    else 4
  }

  /** The size the buffer reports: the length of its UTF-8 encoding,
      between one and four bytes per character. */
  function ByteSize(s: string): (n: nat)
    ensures |s| <= n <= 4 * |s|
    ensures s != [] ==> n >= 1
  {
    if s == [] then 0 else Utf8Width(s[0]) + ByteSize(s[1..])
  }

  /** For ASCII text, and only for it, the byte size is the length. */
  lemma {:induction false} AsciiByteSize(s: string)
    ensures ByteSize(s) == |s| <==> forall k :: 0 <= k < |s| ==> s[k] as int < 0x80
  {
    if s != [] {
      AsciiByteSize(s[1..]);
      assert forall k :: 1 <= k < |s| ==> s[k] == s[1..][k - 1];
    }
  }

  /** The flush test of `Process`, on the buffer that already holds the new
      line: its byte size against the size threshold, or the time since the
      last flush against the interval. */
  predicate FlushDue(t: Thresholds, buffer: string, lastFlushTime: int, now: int)
  {
    ByteSize(buffer) >= t.flushBufferSize || now - lastFlushTime >= t.maxInterval * 1000
  }

  /** The line `Process` writes for a message: the installed formatter's
      text when one is installed, the default formatter's otherwise. */
  function FormatLine(formatter: Option<FormatFn>, msg: LogMessage, tm: BrokenDownTime): (line: string)
    ensures formatter.None? ==> line == DefaultFormatter(msg, tm)
    ensures formatter.Some? ==> line == formatter.value(msg, tm)
  {
    match formatter
    case None => DefaultFormatter(msg, tm)
    case Some(f) => f(msg, tm)
  }

  /** `Process` once the line is formatted: append the line and a newline,
      then flush when the size or the time threshold is reached. */
  function ProcessLine(t: Thresholds, s: FileSinkState, line: string, now: int): FileSinkState
  {
    var grown := s.(buffer := s.buffer + (line + "\n"));
    if FlushDue(t, grown.buffer, s.lastFlushTime, now) then Flush(grown, now) else grown
  }

  /** Processing loses nothing and invents nothing: the file followed by
      the buffer grows by exactly the line and its newline. When a
      threshold is reached, everything so far is in the file, the buffer is
      empty and `now` is the last flush; otherwise the file and the last
      flush time are untouched. */
  lemma ProcessLineEffect(t: Thresholds, s: FileSinkState, line: string, now: int)
    ensures var r := ProcessLine(t, s, line, now);
      && r.file + r.buffer == s.file + s.buffer + (line + "\n")
      && (FlushDue(t, s.buffer + (line + "\n"), s.lastFlushTime, now) ==>
            r == FileSinkState(s.file + s.buffer + (line + "\n"), [], now))
      && (!FlushDue(t, s.buffer + (line + "\n"), s.lastFlushTime, now) ==>
            r == FileSinkState(s.file, s.buffer + (line + "\n"), s.lastFlushTime))
  {
    var grown := s.(buffer := s.buffer + (line + "\n"));
    assert grown.buffer != [] by {
      assert grown.buffer[|grown.buffer| - 1] == '\n';
    }
    assert s.file + (s.buffer + (line + "\n")) == s.file + s.buffer + (line + "\n");
  }

  /** After `Process` the buffer is empty or its byte size is below the
      size threshold: it never stays at or above the threshold. */
  lemma BufferStaysBelowThreshold(t: Thresholds, s: FileSinkState, line: string, now: int)
    ensures var r := ProcessLine(t, s, line, now);
      r.buffer == [] || ByteSize(r.buffer) < t.flushBufferSize
  {
  }

  /** One call of `Process`: the formatted line and the clock reading. */
  datatype Call = Call(line: string, now: int)

  /** The text the calls ask to be written: each line followed by a
      newline, in call order. */
  function Lines(calls: seq<Call>): string
  {
    if calls == [] then []
    else Lines(calls[..|calls| - 1]) + (calls[|calls| - 1].line + "\n")
  }

  /** A sequence of `Process` calls. */
  function ProcessAll(t: Thresholds, s: FileSinkState, calls: seq<Call>): FileSinkState
  {
    if calls == [] then s
    else
      var last := calls[|calls| - 1];
      ProcessLine(t, ProcessAll(t, s, calls[..|calls| - 1]), last.line, last.now)
  }

  /** The no-loss invariant: after any calls, the file followed by the
      buffer is the file and buffer before them followed by every line
      processed, in order. */
  lemma {:induction false} NoLoss(t: Thresholds, s: FileSinkState, calls: seq<Call>)
    ensures ProcessAll(t, s, calls).file + ProcessAll(t, s, calls).buffer
         == s.file + s.buffer + Lines(calls)
  {
    if calls != [] {
      var init := calls[..|calls| - 1];
      var last := calls[|calls| - 1];
      var mid := ProcessAll(t, s, init);
      NoLoss(t, s, init);
      ProcessLineEffect(t, mid, last.line, last.now);
      assert s.file + s.buffer + Lines(init) + (last.line + "\n")
          == s.file + s.buffer + (Lines(init) + (last.line + "\n"));
    }
  }

  /** The destructor's final flush after any calls on a new sink: the
      buffer is empty and the file is what it was before the sink was
      created, followed by every line processed. */
  lemma CloseWritesEverything(t: Thresholds, existing: string, created: int,
                              calls: seq<Call>, closed: int)
    ensures var r := Flush(ProcessAll(t, NewFileSink(existing, created), calls), closed);
      r.buffer == [] && r.file == existing + Lines(calls)
  {
    NoLoss(t, NewFileSink(existing, created), calls);
    assert existing + [] == existing;
  }

  /** The `Process` the source writes holds the buffer's mutex while it
      calls `FlushBuffer`, which takes the same, non-recursive, mutex
      again. `lockHeld` says whether the caller holds it; `None` is a
      thread blocked for ever on its own lock. */
  function FlushAsWritten(lockHeld: bool, s: FileSinkState, now: int): Option<FileSinkState>
  {
    if lockHeld then None else Some(Flush(s, now))
  }

  function ProcessAsWritten(t: Thresholds, s: FileSinkState, line: string, now: int): Option<FileSinkState>
  {
    var grown := s.(buffer := s.buffer + (line + "\n"));
    if FlushDue(t, grown.buffer, s.lastFlushTime, now) then FlushAsWritten(true, grown, now)
    else Some(grown)
  }

  /** As written, `Process` returns exactly when no flush is due, and then
      agrees with `ProcessLine`; every call that reaches a threshold blocks
      for ever. The destructor, which does not hold the lock, flushes. */
  lemma ProcessAsWrittenBlocksOnFlush(t: Thresholds, s: FileSinkState, line: string, now: int)
    ensures ProcessAsWritten(t, s, line, now).Some?
        <==> !FlushDue(t, s.buffer + (line + "\n"), s.lastFlushTime, now)
    ensures ProcessAsWritten(t, s, line, now).Some? ==>
      ProcessAsWritten(t, s, line, now).value == ProcessLine(t, s, line, now)
    ensures FlushAsWritten(false, s, now) == Some(Flush(s, now))
  {
  }

  /** The concrete case: with the default thresholds, a message processed
      five seconds after construction never returns. */
  lemma FiveSecondsLaterBlocks(line: string)
    ensures ProcessAsWritten(DefaultThresholds, NewFileSink([], 0), line, 5000) == None
    ensures ProcessLine(DefaultThresholds, NewFileSink([], 0), line, 5000).file == line + "\n"
  {
    ProcessLineEffect(DefaultThresholds, NewFileSink([], 0), line, 5000);
    assert [] + [] + (line + "\n") == line + "\n";
  }

  /** Appending the same text to the buffer and to what was processed
      keeps the two sides of the no-loss invariant equal. */
  lemma AppendKeepsBalance(file: string, buffer: string, initial: string, written: string, piece: string)
    requires file + buffer == initial + written
    ensures file + (buffer + piece) == initial + (written + piece)
  {
    assert file + (buffer + piece) == (file + buffer) + piece;
    assert initial + (written + piece) == (initial + written) + piece;
  }

  /** The sink object. It is an `AsyncSink` in the source; here it holds
      one (`base`), whose formatter `Process` consults. The file's
      contents are ghost: writing them is I/O. `written` is everything
      processed so far, in order, and `initial` what the file held before
      the sink opened it. */
  class DeferredFileSink {
    const base: AsyncSink
    const thresholds: Thresholds
    var buffer: string
    var lastFlushTime: int
    ghost var file: string
    ghost const initial: string
    ghost var written: string

    ghost function State(): FileSinkState
      reads this
    {
      FileSinkState(file, buffer, lastFlushTime)
    }

    /** No loss: the file followed by the buffer is what the file held
        before followed by every line processed. */
    ghost predicate Inv()
      reads this
    {
      file + buffer == initial + written
    }

    constructor (existing: string, maxBufferSize: nat, flushInterval: nat, now: int)
      ensures Inv() && State() == NewFileSink(existing, now) && written == []
      ensures thresholds == Thresholds(maxBufferSize, flushInterval)
      ensures fresh(base) && base.State() == NewSink() && base.formatter == None
    {
      base := new AsyncSink();
      thresholds := Thresholds(maxBufferSize, flushInterval);
      buffer := [];
      file := existing;
      initial := existing;
      written := [];
      lastFlushTime := now;
    }

    /** `Process`: format the message (the broken-down time of its
        timestamp is an argument), append the line, flush when due. */
    method Process(msg: LogMessage, tm: BrokenDownTime, now: int)
      requires Inv()
      modifies this
      ensures Inv()
      ensures var line := FormatLine(base.formatter, msg, tm);
        State() == ProcessLine(thresholds, old(State()), line, now)
        && written == old(written) + (line + "\n")
    {
      var line := FormatLine(base.formatter, msg, tm);
      ghost var before := State();
      AppendKeepsBalance(file, buffer, initial, written, line + "\n");
      buffer := buffer + (line + "\n");
      written := written + (line + "\n");
      if ByteSize(buffer) >= thresholds.flushBufferSize || now - lastFlushTime >= thresholds.maxInterval * 1000 {
        FlushBuffer(now);
      }
      ProcessLineEffect(thresholds, before, line, now);
    }

    /** `FlushBuffer`; `now` is the clock reading it takes. */
    method FlushBuffer(now: int)
      requires Inv()
      modifies this
      ensures Inv() && State() == Flush(old(State()), now) && written == old(written)
    {
      if buffer != [] {
        file := file + buffer;
        buffer := [];
        lastFlushTime := now;
        assert file + [] == file;
      }
    }

    /** The destructor: a last flush, after which everything processed is
        in the file. */
    method Close(now: int)
      requires Inv()
      modifies this
      ensures buffer == [] && file == initial + written
      ensures State() == Flush(old(State()), now)
    {
      FlushBuffer(now);
      assert file + [] == file;
    }
  }
}
