# nvlog in Dafny

This project models the sequential core of nvlog, an asynchronous logging
library for C++, and proves properties of it. A log call travels this way:

- A `Logger` builds a `LogMessage` and offers it to its `Channel`.
- The channel asks its rate limiter (`NullLimiter` or a token bucket) and
  queues the message on a mutex-protected FIFO (`ConcurrentQueue`) if it
  is admitted.
- The channel's dispatcher hands each queued message to every registered
  sink, in registration order.
- An `AsyncSink` queues what it is handed, and its own worker counts it.
- The `DeferredFileSink` formats messages into lines, buffers them and
  flushes the buffer to its file. The formatters lay out the level, the
  date, the thread id, the source location, the tag and the message.

One module per source file:

| module | file | models |
|---|---|---|
| `Wrappers` | `wrappers.dfy` | `Option` |
| `Text` | `text.dfy` | decimal printing and `std::setw`/`std::setfill` padding, with read-back |
| `Declare` | `declare.dfy` | `LogLevel`, `LogMessage`, `DateTimeComponent::Format*` |
| `Formatter` | `formatter.dfy` | `DefaultLevelFormatter`, `DefaultFormatter`, `SimpleFormatter` |
| `ConcurrentQueues` | `concurrent_queue.dfy` | `ConcurrentQueue<T>` |
| `RateLimiters` | `rate_limiter.dfy` | `RateLimiter`, `NullLimiter`, `TokenBucketRateLimiter` |
| `Sinks` | `sink.dfy` | `Sink`, `AsyncSink` |
| `FileSinks` | `deferred_file_sink.dfy` | `DeferredFileSink` |
| `Channels` | `channel.dfy` | `Channel` |
| `Loggers` | `logger.dfy` | `Logger`, the registered instance, the `LOG_*` macros |

Each object that updates its fields in place is a class. The class's
methods are proved against pure transition functions on a state datatype,
in the form `State() == Next(old(State()))`. The lemmas about those
functions carry the properties.

Threads are not part of the model. Each worker loop becomes explicit
steps:

- `AsyncSink.RunStep` and `Channel.DispatchStep` are one turn of a worker
  loop while the object runs.
- Each `Shutdown` runs the worker to its end, because the source joins
  the worker before it returns.

Clock readings, the broken-down local time and the thread id are
arguments. The steady clock is in milliseconds. The system clock is in
microseconds since the epoch.

Where the code and its intended design differ, the model follows the code,
except for the two defects listed under Findings. Each has an as-written
member that shows the defect and a corrected member, and the rest of the
model builds on the corrected one:

- **Token-bucket refill.** `Refill` sets the last refill time to `now`. It
  does not advance it by the whole intervals it credited, so a partial
  interval is forgotten. `RateLimiters.RefillDropsPartialInterval` shows
  the consequence on concrete numbers.
- **`AsyncSink::Process`.** The worker never calls it; those calls are
  commented out in favour of the `total_` counter. So the deferred file
  sink's `Process` is modelled on its own. It is never reached from the
  queue.
- **`Channel::Shutdown`.** It is modelled in one interleaving, stated at
  `Channels.ChannelShutdown`. The dispatcher runs whenever it is woken,
  before the caller goes on. It therefore forwards everything queued
  before the sinks are shut down.
- **Shutting down through the corrected sink shutdown.** `Channels.ChannelShutdown`,
  `Channels.Channel.Shutdown`, `Loggers.Logger.ShutdownEngine` and
  `Loggers.EveryMessageReachesEverySink` shut each sink down with the
  corrected `Sinks.SinkShutdown`, so they always return. As written, a
  started sink that holds nothing when the channel reaches it waits for
  ever, and so does the channel's shutdown, for example when nothing was
  logged. `Channels.ChannelShutdownAsWritten` is that version;
  `Channels.ChannelShutdownAsWrittenReturns` states when it returns and
  `Channels.IdleChannelShutdownHangs` gives the idle case.
- **The file sink's `Process`.** `FileSinks.DeferredFileSink.Process`
  flushes under the one lock it holds (`FileSinks.ProcessLine`); as
  written it blocks on its own lock (`FileSinks.ProcessAsWritten`).

## Model

| member | source | states |
|---|---|---|
| `Text.DecimalRoundTrip` | src/nvlog/formatter.h:61 | a non-negative integer printed in decimal reads back as itself |
| `Text.PadLeftLayout` | src/nvlog/formatter.h:59 | right-adjusting in a width keeps the text as the suffix and fills only before it; the result is the longer of text and width |
| `Text.PadRightLayout` | src/nvlog/formatter.h:12 | left-adjusting keeps the text as the prefix and fills only after it |
| `Text.ZeroPadExact` | src/nvlog/declare.h:55-77 | a value below 10^width is written in exactly `width` characters, zero-filled, and reads back as the value |
| `Text.ZeroPadNeverTruncates` | src/nvlog/declare.h:55-77 | a wider non-negative value is written in full and reads back |
| `Declare.LevelsAreSixInOrder` | src/nvlog/declare.h:13 | there are exactly six levels, numbered 0 to 5 in the order Trace, Debug, Info, Warning, Error, Critical |
| `Declare.NewLogMessage` | src/nvlog/declare.h:97-106 | every argument lands unchanged in its field; the payload defaults to null |
| `Declare.FormatYear` | src/nvlog/declare.h:55-57 | the year in four zero-filled digits; stated by `Declare.FormatYearReadsBack` and `Declare.FormatNeverTruncates` |
| `Declare.FormatMonth` | src/nvlog/declare.h:59-61 | the month in two zero-filled digits; stated by `Declare.FormatTwoDigitFieldsReadBack` |
| `Declare.FormatDay` | src/nvlog/declare.h:63-65 | the day of the month in two zero-filled digits; stated by `Declare.FormatDayWritesDate` |
| `Declare.FormatHours` | src/nvlog/declare.h:67-69 | the hours in two zero-filled digits; stated by `Declare.FormatTwoDigitFieldsReadBack` |
| `Declare.FormatMinutes` | src/nvlog/declare.h:71-73 | the minutes in two zero-filled digits; stated by `Declare.FormatTwoDigitFieldsReadBack` |
| `Declare.FormatMicroseconds` | src/nvlog/declare.h:75-77 | the microseconds in six zero-filled digits; stated by `Declare.FormatMicrosecondsReadsBack` and `Declare.FormatNeverTruncates` |
| `Declare.FormatYearReadsBack` | src/nvlog/declare.h:55-57 | a year below 10000 is four zero-filled digits that read back as the year |
| `Declare.FormatTwoDigitFieldsReadBack` | src/nvlog/declare.h:59-73 | month, hours and minutes below 100 are two digits that read back |
| `Declare.FormatDayWritesDate` | src/nvlog/declare.h:63-65 | `FormatDay` writes the day of the month, whatever the weekday |
| `Declare.FormatMicrosecondsReadsBack` | src/nvlog/declare.h:75-77 | microseconds below one million are six digits that read back |
| `Declare.FormatNeverTruncates` | src/nvlog/declare.h:55-77 | a year or microsecond value wider than its field is written in full |
| `Formatter.LevelFieldLayout` | src/nvlog/formatter.h:8-31 | each level's name is at most 8 characters; the field is 8 characters, the name then spaces; it reads back as the level |
| `Formatter.LevelField` | src/nvlog/formatter.h:8-36 | `DefaultLevelFormatter`: the name left-adjusted in eight spaces; stated by `Formatter.LevelFieldLayout` |
| `Formatter.TruncatedRemainder` | src/nvlog/formatter.h:43-45 | the microsecond remainder truncates toward zero: it differs from the timestamp by a whole number of seconds, lies within one second, is non-negative after the epoch and non-positive before |
| `Formatter.PostEpochMicroseconds` | src/nvlog/formatter.h:43-45 | a post-epoch timestamp prints microseconds in [0, 999999] |
| `Formatter.DateLayout` | src/nvlog/formatter.h:50-57 | fields of widths 4, 2, 2, 2, 2, 2, 6 joined by `- - space : : .` make 26 characters that parse back to the fields |
| `Formatter.DateTextReadsBack` | src/nvlog/formatter.h:50-57 | a date whose fields fit their widths prints as 26 characters that parse back to year, month, day, hour, minute, second and microseconds |
| `Formatter.Continuation` | src/nvlog/formatter.h:61-63 | after the line number: `]`, a line break, eight spaces, `[tag] message` |
| `Formatter.DefaultFormatterLayout` | src/nvlog/formatter.h:38-69 | default layout: level field (reads back) at 0-7, date (reads back) at 8-33, space, thread id right-adjusted to at least 5, space, file, `:`, the line number in decimal, then the continuation, and nothing else (exact length) |
| `Formatter.DefaultFormatter` | src/nvlog/formatter.h:38-69 | the two-line layout; stated by `Formatter.DefaultFormatterLayout` |
| `Formatter.SimpleFormatterLayout` | src/nvlog/formatter.h:71-99 | simple layout: `[`, level field (reads back), `] `, date (reads back), then exactly ` [tag] message`, and its exact length |
| `Formatter.SimpleFormatter` | src/nvlog/formatter.h:71-99 | the one-line layout; stated by `Formatter.SimpleFormatterLayout` |
| `ConcurrentQueues.ConcurrentQueue.constructor` | src/nvlog/concurrent_queue.h:22 | a new queue is empty |
| `ConcurrentQueues.ConcurrentQueue.TryDequeue` | src/nvlog/concurrent_queue.h:25-33 | empty: no value, queue unchanged; otherwise the front value, and exactly it is removed |
| `ConcurrentQueues.ConcurrentQueue.WaitAndDequeue` | src/nvlog/concurrent_queue.h:35-40 | once the queue is non-empty: the front value, removed |
| `ConcurrentQueues.ConcurrentQueue.WaitAndDequeueFor` | src/nvlog/concurrent_queue.h:42-50 | a queue that stays empty times out with no value; otherwise the front value, removed |
| `ConcurrentQueues.ConcurrentQueue.Enqueue` | src/nvlog/concurrent_queue.h:52-58 | the value is appended at the back; nothing else changes |
| `ConcurrentQueues.ConcurrentQueue.Clear` | src/nvlog/concurrent_queue.h:60-64 | the queue is empty, whatever it held |
| `ConcurrentQueues.ConcurrentQueue.Empty` | src/nvlog/concurrent_queue.h:66-69 | true exactly when nothing is queued |
| `ConcurrentQueues.ConcurrentQueue.Size` | src/nvlog/concurrent_queue.h:71-74 | the number of queued values |
| `ConcurrentQueues.ConcurrentQueue.Perform` | src/nvlog/concurrent_queue.h:25-58 | one whole operation of an interleaving, as `Enqueue` or `TryDequeue` does it |
| `ConcurrentQueues.EmptyMatchesSize` | src/nvlog/concurrent_queue.h:66-74 | `Empty()` holds exactly when `Size()` is zero |
| `ConcurrentQueues.DequeuedThenLeftIsEnqueued` | src/nvlog/concurrent_queue.h:25-58 | over any interleaving of whole operations, the values dequeued and then those left are what was queued plus what was enqueued, in order: FIFO, nothing lost or invented |
| `ConcurrentQueues.AllDequeuedLeavesEmpty` | tests/src/concurrent_queue.cc:96-97 | when as many values were dequeued as enqueued, the queue is empty and the consumers received exactly the values produced |
| `ConcurrentQueues.Replay` | src/nvlog/concurrent_queue.h:25-58 | the queue object run through an interleaving does what the interleaving's semantics says |
| `ConcurrentQueues.FifoOrder` | src/nvlog/concurrent_queue.h:35-58 | values enqueued and then dequeued come out in the order they went in |
| `ConcurrentQueues.SingleThreaded` | tests/src/concurrent_queue.cc:49-57 | empty, size 1 after one enqueue, the value 1 comes back, empty again |
| `ConcurrentQueues.TimeoutOnEmpty` | tests/src/concurrent_queue.cc:100-103 | a timed wait on an empty queue fails |
| `ConcurrentQueues.ClearEmpties` | tests/src/concurrent_queue.cc:105-111 | size 2 after two enqueues, empty after `Clear` |
| `ConcurrentQueues.WaitReceivesProduced` | tests/src/concurrent_queue.cc:113-124 | the waiting consumer receives the produced 42 |
| `RateLimiters.NewBucket` | src/nvlog/limiters/token_bucket_rate_limiter.cc:5-12 | a new bucket is full (`tokens == max_tokens`), valid, and last refilled at construction |
| `RateLimiters.Refill` | src/nvlog/limiters/token_bucket_rate_limiter.cc:24-33 | the refill; stated by `RateLimiters.RefillEffect`, `RateLimiters.RefillSameInstant` and `RateLimiters.RefillDropsPartialInterval` |
| `RateLimiters.RefillEffect` | src/nvlog/limiters/token_bucket_rate_limiter.cc:24-32 | before a whole interval nothing changes; after one, tokens become min(tokens + whole intervals times amount, cap) and the last refill is `now`; the cap holds; tokens never decrease |
| `RateLimiters.RefillSameInstant` | src/nvlog/limiters/token_bucket_rate_limiter.cc:24-32 | a second refill at the same instant adds nothing |
| `RateLimiters.RefillDropsPartialInterval` | src/nvlog/limiters/token_bucket_rate_limiter.cc:31 | because the last refill is set to `now`, polling at 15 ms and 30 ms credits 2 tokens where one poll at 30 ms credits 3 |
| `RateLimiters.BucketAllow` | src/nvlog/limiters/token_bucket_rate_limiter.cc:14-22 | true exactly when the refilled bucket holds a token; then one token is taken, otherwise the refilled bucket is kept; the cap holds |
| `RateLimiters.SameInstantBurst` | src/nvlog/limiters/token_bucket_rate_limiter.cc:14-22 | calls at one instant are admitted exactly while the refilled tokens last |
| `RateLimiters.FreshBucketBurst` | src/nvlog/limiters/token_bucket_rate_limiter.cc:5-22 | before an interval passes, a new bucket admits `max_tokens` calls and refuses the next |
| `RateLimiters.RecoveryAfterInterval` | src/nvlog/limiters/token_bucket_rate_limiter.cc:24-32 | an exhausted bucket, after one interval, admits at least min(amount, cap) calls |
| `RateLimiters.LimiterAllow` | src/nvlog/limiters/rate_limiter.h:6-19 | `NullLimiter` answers true and keeps no state; a token bucket answers as `BucketAllow` and keeps its new state |
| `RateLimiters.NullLimiterAlwaysAllows` | src/nvlog/limiters/rate_limiter.h:14-19 | any number of calls to `NullLimiter`, at any times, all answer true |
| `RateLimiters.TokenBucketRateLimiter.constructor` | src/nvlog/limiters/token_bucket_rate_limiter.cc:5-12 | the fields are those of a new full bucket |
| `RateLimiters.TokenBucketRateLimiter.Allow` | src/nvlog/limiters/token_bucket_rate_limiter.cc:14-22 | answer and new fields are those of `BucketAllow`; the cap is kept |
| `RateLimiters.TokenBucketRateLimiter.RefillAt` | src/nvlog/limiters/token_bucket_rate_limiter.cc:24-32 | the new fields are those of `Refill` |
| `Sinks.NewSink` | src/nvlog/sink.h:35 | a new sink is not running, not preparing a shutdown, and has nothing queued |
| `Sinks.SinkLog` | src/nvlog/sink.h:39-41 | `Log` only appends the message to the sink's queue; flags and count unchanged |
| `Sinks.SinkStart` | src/nvlog/sink.h:43-50 | a running sink is unchanged; otherwise it runs, with the count reset to 0 and no shutdown pending |
| `Sinks.WorkerStep` | src/nvlog/sink.h:87-95 | one turn of the worker while it runs; stated by `Sinks.SinkOperationsAccount` (no message lost) |
| `Sinks.Drain` | src/nvlog/sink.h:104-118 | the drain after the run loop; stated by `Sinks.DrainCountsAll` |
| `Sinks.DrainCountsAll` | src/nvlog/sink.h:104-118 | the drain counts each message that remains exactly once and skips sentinels |
| `Sinks.ShutdownCountsEverything` | src/nvlog/sink.h:52-121 | shutting down a running sink ends with an empty queue, stopped, having counted every queued message once; a stopped sink is left alone |
| `Sinks.SinkShutdown` | src/nvlog/sink.h:52-121 | the corrected shutdown; stated by `Sinks.ShutdownCountsEverything` |
| `Sinks.RunLoopAsWrittenEnds` | src/nvlog/sink.h:87-102 | as written, the run loop during a shutdown ends exactly when a message is still queued, and then the drain counts everything |
| `Sinks.ShutdownAsWrittenHangsWhenIdle` | src/nvlog/sink.h:52-121 | as written, shutting down a running sink returns exactly when its queue is non-empty, and then agrees with the corrected shutdown |
| `Sinks.SinkShutdownAsWritten` | src/nvlog/sink.h:52-121 | the shutdown as written, `None` when it never returns; stated by `Sinks.ShutdownAsWrittenHangsWhenIdle` and `Sinks.StartThenShutdownHangs` |
| `Sinks.StartThenShutdownHangs` | src/nvlog/sink.h:43-64 | as written, starting a new sink and shutting it down never returns; corrected, it ends with a count of 0 |
| `Sinks.SinkOperationsAccount` | src/nvlog/sink.h:39-121 | `Log`, `Start`, a worker turn and `Shutdown` keep the sink valid; `Log` accounts for one more message; a worker turn and a shutdown lose none |
| `Sinks.AsyncSink.constructor` | src/nvlog/sink.h:30-35 | a new sink's state is `NewSink()` and its formatter is null |
| `Sinks.AsyncSink.SetFormatter` | src/nvlog/sink.h:25-27 | the formatter is the given one; nothing else changes |
| `Sinks.AsyncSink.Log` | src/nvlog/sink.h:39-41 | the new state is `SinkLog` of the old |
| `Sinks.AsyncSink.Start` | src/nvlog/sink.h:43-50 | the new state is `SinkStart` of the old |
| `Sinks.AsyncSink.IsRun` | src/nvlog/sink.h:78-80 | the running flag |
| `Sinks.AsyncSink.RunStep` | src/nvlog/sink.h:87-102 | one turn of the worker: the front entry is taken and counted if it is a message |
| `Sinks.AsyncSink.Shutdown` | src/nvlog/sink.h:52-121 | the sentinel, the worker's last turn and its drain give the corrected `SinkShutdown` |
| `FileSinks.NewFileSink` | src/nvlog/deffered_file_sink.h:13-30 | a new sink keeps the file's existing text, has an empty buffer, and last flushed at construction |
| `FileSinks.Flush` | src/nvlog/deffered_file_sink.h:66-74 | file followed by buffer is unchanged and the buffer is empty; an empty buffer changes nothing; otherwise the last flush is `now` |
| `FileSinks.FormatLine` | src/nvlog/deffered_file_sink.h:42-46 | the installed formatter's text when one is set, the default formatter's otherwise |
| `FileSinks.Utf8Width` | src/nvlog/deffered_file_sink.h:50 | a character takes one to four bytes, and one exactly when it is ASCII |
| `FileSinks.ByteSize` | src/nvlog/deffered_file_sink.h:50 | `buffer_.size()`: the byte length of the text, at least its length in characters and at most four times it, and positive for non-empty text |
| `FileSinks.AsciiByteSize` | src/nvlog/deffered_file_sink.h:50 | the byte size equals the length exactly when every character is ASCII |
| `FileSinks.FlushDue` | src/nvlog/deffered_file_sink.h:50-52 | the flush test: byte size at the threshold or the interval elapsed; stated by `FileSinks.ProcessLineEffect` and `FileSinks.BufferStaysBelowThreshold` |
| `FileSinks.ProcessLine` | src/nvlog/deffered_file_sink.h:47-55 | the corrected `Process` on a formatted line; stated by `FileSinks.ProcessLineEffect`, `FileSinks.BufferStaysBelowThreshold` and `FileSinks.NoLoss` |
| `FileSinks.ProcessLineEffect` | src/nvlog/deffered_file_sink.h:40-56 | file followed by buffer grows by exactly the line and a newline; when the size or time threshold is reached everything is in the file, the buffer is empty and the last flush is `now`; otherwise file and last flush are untouched |
| `FileSinks.BufferStaysBelowThreshold` | src/nvlog/deffered_file_sink.h:49-53 | after `Process` the buffer is empty or its byte size is below the size threshold |
| `FileSinks.NoLoss` | src/nvlog/deffered_file_sink.h:40-74 | after any calls, file followed by buffer is what it was followed by every processed line and its newline, in order |
| `FileSinks.CloseWritesEverything` | src/nvlog/deffered_file_sink.h:32-37 | after the destructor's flush the buffer is empty and the file is its old text followed by every processed line |
| `FileSinks.ProcessAsWrittenBlocksOnFlush` | src/nvlog/deffered_file_sink.h:48-67 | as written, `Process` returns exactly when no flush is due, and then agrees with the corrected one; the destructor, not holding the lock, flushes |
| `FileSinks.ProcessAsWritten` | src/nvlog/deffered_file_sink.h:48-67 | `Process` as written, `None` when it blocks on its own lock; stated by `FileSinks.ProcessAsWrittenBlocksOnFlush` and `FileSinks.FiveSecondsLaterBlocks` |
| `FileSinks.FiveSecondsLaterBlocks` | src/nvlog/deffered_file_sink.h:48-67 | as written, with the default thresholds, a message processed five seconds after construction never returns; corrected, it lands in the file |
| `FileSinks.DeferredFileSink.constructor` | src/nvlog/deffered_file_sink.h:13-30 | the thresholds are stored, the buffer is empty, the last flush is the construction time, nothing is processed yet |
| `FileSinks.DeferredFileSink.Process` | src/nvlog/deffered_file_sink.h:40-56 | the new state is `ProcessLine` of the formatted line; the no-loss invariant is kept |
| `FileSinks.DeferredFileSink.FlushBuffer` | src/nvlog/deffered_file_sink.h:66-74 | the new state is `Flush` of the old; no-loss kept |
| `FileSinks.DeferredFileSink.Close` | src/nvlog/deffered_file_sink.h:32-37 | the buffer is empty and the file is its initial text followed by everything processed |
| `Channels.NewChannel` | src/nvlog/channel.h:19-26 | a new channel is not running, has nothing queued, and keeps the given sinks and limiter |
| `Channels.Gate` | src/nvlog/channel.h:67 | no limiter admits and keeps no state; otherwise the limiter's answer and new state |
| `Channels.EnqueueEffect` | src/nvlog/channel.h:66-70 | the message is appended exactly when the gate admits it; otherwise the queue is unchanged; only queue and limiter change; validity is kept |
| `Channels.ChannelEnqueue` | src/nvlog/channel.h:66-70 | `Enqueue`; stated by `Channels.EnqueueEffect` and `Channels.NullGateAdmits` |
| `Channels.NullGateAdmits` | src/nvlog/channel.h:67-69 | with no limiter or a `NullLimiter`, `Enqueue` appends the message and changes nothing else |
| `Channels.NullLimiterQueuesEverything` | src/nvlog/channel.h:66-70 | a channel with no limiter or a `NullLimiter` queues every offered message, in order |
| `Channels.ChannelAddSink` | src/nvlog/channel.h:72-74 | the sink is appended after the earlier ones, which keep their order; nothing else changes |
| `Channels.StartRunsEverySink` | src/nvlog/channel.h:32-40 | a running channel is unchanged; otherwise it runs and every registered sink runs; validity is kept |
| `Channels.ChannelStart` | src/nvlog/channel.h:32-40 | `Start`; stated by `Channels.StartRunsEverySink` |
| `Channels.DeliverAppendsMessages` | src/nvlog/channel.h:80-98 | dispatching a queue appends its messages, and no sentinel, to every sink's queue in order; nothing else about a sink changes |
| `Channels.DispatchLosesNothing` | src/nvlog/channel.h:78-88 | one dispatcher turn keeps validity, and for every sink its counted and queued messages plus the channel's queued ones stay the same |
| `Channels.DispatchTurn` | src/nvlog/channel.h:78-88 | one dispatcher turn; stated by `Channels.DispatchLosesNothing` |
| `Channels.ShutdownDeliversEverything` | src/nvlog/channel.h:46-107 | shutting down a running channel leaves it stopped and empty; every running sink ends stopped, having counted its own and all the channel's queued messages; a sink never started keeps them queued |
| `Channels.ChannelShutdown` | src/nvlog/channel.h:46-107 | `Shutdown` in the modelled interleaving, with the corrected sink shutdown; stated by `Channels.ShutdownDeliversEverything` |
| `Channels.DeliveredBeforeShutdown` | src/nvlog/channel.h:46-107 | when the caller reaches each sink, it holds its own queue followed by everything the channel had queued, and is valid |
| `Channels.ShutdownAllAsWritten` | src/nvlog/channel.h:53-55 | the sinks shut down in order as written, `None` when one never returns; stated by `Channels.ShutdownAllAsWrittenReturns` |
| `Channels.ShutdownAllAsWrittenReturns` | src/nvlog/channel.h:53-55 | as written, shutting the sinks down returns exactly when every running sink holds an entry, and then agrees with the corrected version |
| `Channels.ChannelShutdownAsWritten` | src/nvlog/channel.h:46-107 | `Shutdown` as written, `None` when it never returns; stated by `Channels.ChannelShutdownAsWrittenReturns` |
| `Channels.ChannelShutdownAsWrittenReturns` | src/nvlog/channel.h:46-107 | as written, a running channel's shutdown returns exactly when every running sink holds a message when it is reached, and then agrees with `ChannelShutdown` |
| `Channels.IdleChannelShutdownHangs` | src/nvlog/channel.h:46-64 | as written, a channel with one sink, started and shut down with nothing logged, never returns; corrected, the sink ends stopped with a count of 0 |
| `Channels.LateSinkKeepsMessages` | src/nvlog/channel.h:32-74 | a sink added after `Start` is never started: the messages dispatched to it are never counted |
| `Channels.Channel.constructor` | src/nvlog/channel.h:19-26 | the state is `NewChannel` of the arguments |
| `Channels.Channel.Start` | src/nvlog/channel.h:32-40 | the new state is `ChannelStart` of the old; sinks are started in list order |
| `Channels.Channel.IsRun` | src/nvlog/channel.h:42-44 | the running flag |
| `Channels.Channel.Enqueue` | src/nvlog/channel.h:66-70 | the new state is `ChannelEnqueue` of the old |
| `Channels.Channel.AddSink` | src/nvlog/channel.h:72-74 | the new state is `ChannelAddSink` of the old |
| `Channels.Channel.Forward` | src/nvlog/channel.h:81-85 | a message is logged on every sink in list order; a sentinel on none |
| `Channels.Channel.DispatchStep` | src/nvlog/channel.h:78-88 | one turn of the dispatcher: the front entry is taken and forwarded |
| `Channels.Channel.Shutdown` | src/nvlog/channel.h:46-107 | the caller's and the dispatcher's steps, in the modelled interleaving, give `ChannelShutdown` of the old state |
| `Loggers.Logger.constructor` | src/nvlog/logger.h:13-16 | the limiter-only constructor makes a channel with no sinks and starts it |
| `Loggers.Logger.WithSinks` | src/nvlog/logger.h:18-20 | the constructor with sinks makes a channel with them, not running |
| `Loggers.Logger.StartEngine` | src/nvlog/logger.h:22-24 | the channel's `Start` |
| `Loggers.Logger.IsRun` | src/nvlog/logger.h:26-28 | the channel's running flag |
| `Loggers.Logger.ShutdownEngine` | src/nvlog/logger.h:30-32 | the channel's `Shutdown` |
| `Loggers.Logger.Log` | src/nvlog/logger.h:49-55 | one message with exactly the given level, tag, message, file, line, data, timestamp and thread id, offered once to the channel |
| `Loggers.Logger.AddSink` | src/nvlog/logger.h:57-59 | the channel's `AddSink` |
| `Loggers.Registry.constructor` | src/nvlog/logger.cc:6 | at first no logger is registered |
| `Loggers.Registry.RegisterLogger` | src/nvlog/logger.h:36-42 | the first call registers a new logger with a `NullLimiter` and the given sinks, not started; later calls change nothing |
| `Loggers.Registry.Get` | src/nvlog/logger.h:44-47 | the current slot, possibly empty |
| `Loggers.FirstRegistrationWins` | src/nvlog/logger.h:36-47 | after two registrations the registered logger holds the first call's sinks |
| `Loggers.MacroLevel` | src/nvlog/logger.h:67-89 | `LOG_TRACE` to `LOG_FATAL` log at levels 0 to 5 in order |
| `Loggers.MacroLevelsOneToOne` | src/nvlog/logger.h:67-89 | each level is logged by exactly one macro family |
| `Loggers.ExpandEffect` | src/nvlog/logger.h:67-157 | every macro passes the message through at its family's level; plain ones use an empty tag, `_T` ones the given tag, `_COND_T` ones log exactly when the condition holds |
| `Loggers.Expand` | src/nvlog/logger.h:67-157 | the `Log` call a macro makes; stated by `Loggers.ExpandEffect` |
| `Loggers.Emit` | src/nvlog/logger.h:118-157 | a macro use offers the expanded message once to the registered logger's channel, with the caller's file and line and a null payload, or changes nothing |
| `Loggers.EveryMessageReachesEverySink` | src/nvlog/logger.h:36-59 | register n new sinks, start, log messages, shut down: every sink has counted every message and nothing is queued |

## Left out

- Threads, mutexes, condition variables and atomics. Each method is one critical section, and worker loops are explicit steps. In the multi-threaded queue test, only its conclusion is modelled, over interleavings of whole operations.
- Other interleavings of `Channel::Shutdown`. For example, the dispatcher may run after the sinks are shut down, and then messages are left in stopped sinks. The model has one schedule.
- Busy-spin waits (`sink.h:58-60`, the spin of `channel.h:90-106`). Only the drained result is kept.
- Clocks, `localtime`, `put_time` and `GetThreadId`. Their values are arguments.
- `DateTimeComponent::FromTimestamp`, `LogMessage::FormatTimestamp` and `src/nvlog/util.h`. They wrap the C time library.
- `console_sink.h`, `main.cc` and `macro.h`. They are output, the entry point and preprocessor glue.
- Opening and closing the file, its failure diagnostic on `std::cerr`, and `flush`. The file is the text it holds, and the model assumes it opened. After a failed open the source discards every write (`deffered_file_sink.h:19-28, 69`), so `FileSinks.NoLoss`, `FileSinks.CloseWritesEverything` and `FileSinks.DeferredFileSink.Close` describe an opened file only.
- The debug prints in the worker loops.
- The unused `force` argument of `AsyncSink::Shutdown` and `Channel::Shutdown`. It has no effect there. `Loggers.Logger.ShutdownEngine` takes it and ignores it.
- An unrecognised level writes nothing in the source. The model's six-valued level type has no unrecognised value.
- `LogLevel::Fatal` at `formatter.h:26` and `logger.h:88` does not exist in the enumeration. It is modelled as the sixth level, `Critical`.
- The missing semicolon at `deffered_file_sink.h:43` is read as intended.
- `Channels.Channel`: holds its sinks as states, not shared objects. A sink registered twice, or shared with another channel, is not modelled. A caller holding the same sink does not see the channel's changes to it.
- `Channels.Channel`: holds its limiter as a state. A limiter shared between channels is not modelled.
- `RateLimiters.Refill`: tokens are naturals. The `size_t` wrap-around of the refill sum is not modelled.
- `RateLimiters.NewBucket`, `RateLimiters.TokenBucketRateLimiter.constructor`: require a positive interval, because the refill divides by it.
- `FileSinks.ByteSize`: counts the UTF-8 encoding of the text. The source counts the bytes its `std::string` holds, which is the same when messages are UTF-8 encoded.
- `Channels.ChannelShutdown`: rests on the corrected `Sinks.SinkShutdown`; as written it can hang (`Channels.ChannelShutdownAsWritten`).
- `Channels.Channel.Shutdown`: rests on the corrected sink shutdown, so it always returns; as written it hangs when a started sink holds nothing when reached.
- `Channels.ShutdownDeliversEverything`: holds for the corrected sink shutdown; as written the shutdown may not return.
- `Loggers.Logger.ShutdownEngine`: rests on the corrected sink shutdown, like `Channels.Channel.Shutdown`.
- `Loggers.EveryMessageReachesEverySink`: rests on the corrected sink shutdown; as written, a run with at least one sink and no messages never returns.
- `FileSinks.DeferredFileSink.Process`: one clock reading serves both the threshold test and `FlushBuffer`. The source reads the clock twice.
- `FileSinks.DeferredFileSink.Process`: without the buffer mutex. The as-written locking is under Findings.
- `Sinks.AsyncSink.constructor`: sets `total_` to 0. The source leaves it unset until `Start`.
- `Channels.NewChannel`: sets `prepare_shutdown_` to false. The source never initialises it.
- `ConcurrentQueues.ConcurrentQueue.WaitAndDequeue`: the blocking wait becomes the requirement that the queue is not empty.
- `ConcurrentQueues.ConcurrentQueue.WaitAndDequeueFor`: no other thread exists, so an empty queue stays empty for the whole timeout.
- `Loggers.Emit`: requires a registered logger whenever the macro logs. The source would dereference a null pointer.
- The destructors of `AsyncSink`, `Channel` and `Logger`. They do nothing.

## Findings

| source | as written | input that shows it | evidently intended | confidence | as-written member | corrected member |
|---|---|---|---|---|---|---|
| src/nvlog/sink.h:87-95 | the worker leaves its run loop only after a non-null message while a shutdown is pending; the sentinel is skipped without looking at the flag | start a new sink and shut it down with nothing queued: the worker consumes the sentinel and waits for ever, so the join in `Shutdown` never returns | leave the loop after any dequeued entry once a shutdown is pending, as the channel's dispatcher does (`channel.h:86-87`) | high; not executed | `Sinks.SinkShutdownAsWritten`, `Sinks.StartThenShutdownHangs`, `Channels.IdleChannelShutdownHangs` | `Sinks.SinkShutdown`, `Sinks.ShutdownCountsEverything` |
| src/nvlog/deffered_file_sink.h:48-67 | `Process` holds `buffer_mutex_` and calls `FlushBuffer`, which locks the same non-recursive mutex again | default thresholds, one message processed five seconds after construction: the flush is due and the thread blocks on its own lock | append, then flush under the one lock already held | high; not executed | `FileSinks.ProcessAsWritten`, `FileSinks.FiveSecondsLaterBlocks` | `FileSinks.ProcessLine`, `FileSinks.NoLoss` |
