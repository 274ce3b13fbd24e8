/** The value types every component passes around: the six log levels, the
    immutable log message, and the calendar fields with their padded
    renderings. */
module Declare {
  import opened Wrappers
  import opened Text

  /** The six severities, declared in this order. */
  datatype LogLevel = Trace | Debug | Info | Warning | Error | Critical

  /** The underlying value of the scoped enumeration: declaration order. */
  function Ordinal(l: LogLevel): (n: nat)
    ensures n < 6
  {
    match l
    case Trace => 0
    case Debug => 1
    case Info => 2
    case Warning => 3
    case Error => 4
    case Critical => 5
  }

  function LevelOfOrdinal(n: nat): LogLevel
    requires n < 6
  {
    [Trace, Debug, Info, Warning, Error, Critical][n]
  }

  /** There are exactly six levels: the ordinals 0..5 and the levels are in
      one-to-one correspondence, in declaration order. */
  lemma LevelsAreSixInOrder()
    ensures forall l: LogLevel :: LevelOfOrdinal(Ordinal(l)) == l
    ensures forall n: nat :: n < 6 ==> Ordinal(LevelOfOrdinal(n)) == n
    ensures Ordinal(Trace) < Ordinal(Debug) < Ordinal(Info) < Ordinal(Warning)
            < Ordinal(Error) < Ordinal(Critical)
  {
    forall n: nat | n < 6 ensures Ordinal(LevelOfOrdinal(n)) == n {
      if n == 0 {} else if n == 1 {} else if n == 2 {} else if n == 3 {} else if n == 4 {} else {}
    }
  }

  /** A 32-bit signed integer, the type of the source line number. */
  newtype int32 = x: int | -0x8000_0000 <= x < 0x8000_0000

  /** The untyped `void*` payload: either null or some address that is
      copied through and never looked at. */
  datatype Payload = NoPayload | Address(addr: nat)

  /** One log event. `timestamp` is the system-clock time in whole
      microseconds since the epoch; `threadId` is the text the standard
      library prints for the producing thread. */
  datatype LogMessage = LogMessage(
    level: LogLevel,
    timestamp: int,
    tag: string,
    message: string,
    file: string,
    line: int32,
    threadId: string,
    data: Payload)

  /** The `LogMessage` constructor: its arguments come in a different order
      than the fields, and the payload defaults to null. */
  function NewLogMessage(ts: int, ll: LogLevel, tg: string, msg: string, f: string,
                         ln: int32, tid: string, d: Payload := NoPayload): (m: LogMessage)
    ensures m.level == ll && m.timestamp == ts && m.tag == tg && m.message == msg
    ensures m.file == f && m.line == ln && m.threadId == tid && m.data == d
  {
    LogMessage(ll, ts, tg, msg, f, ln, tid, d)
  }

  /** Calendar fields of a timestamp. `day` is the weekday, `date` the day
      of the month. */
  datatype DateTimeComponent = DateTimeComponent(
    year: int, month: int, day: int, date: int, hours: int, minutes: int, microseconds: int)

  function FormatYear(d: DateTimeComponent): string { ZeroPad(d.year, 4) }
  function FormatMonth(d: DateTimeComponent): string { ZeroPad(d.month, 2) }
  function FormatDay(d: DateTimeComponent): string { ZeroPad(d.date, 2) }
  function FormatHours(d: DateTimeComponent): string { ZeroPad(d.hours, 2) }
  function FormatMinutes(d: DateTimeComponent): string { ZeroPad(d.minutes, 2) }
  function FormatMicroseconds(d: DateTimeComponent): string { ZeroPad(d.microseconds, 6) }

  /** The year comes out as four digits that read back as the year. */
  lemma FormatYearReadsBack(d: DateTimeComponent)
    requires 0 <= d.year < 10000
    ensures |FormatYear(d)| == 4 && ReadDecimal(FormatYear(d)) == Some(d.year)
  {
    ZeroPadExact(d.year, 4);
  }

  /** Month, hours and minutes come out as two digits each that read back
      as the field. */
  lemma FormatTwoDigitFieldsReadBack(d: DateTimeComponent)
    requires 0 <= d.month < 100 && 0 <= d.hours < 100 && 0 <= d.minutes < 100
    ensures |FormatMonth(d)| == 2 && ReadDecimal(FormatMonth(d)) == Some(d.month)
    ensures |FormatHours(d)| == 2 && ReadDecimal(FormatHours(d)) == Some(d.hours)
    ensures |FormatMinutes(d)| == 2 && ReadDecimal(FormatMinutes(d)) == Some(d.minutes)
  {
    assert Pow10(2) == 100;
    ZeroPadExact(d.month, 2);
    ZeroPadExact(d.hours, 2);
    ZeroPadExact(d.minutes, 2);
  }

  /** `FormatDay` writes the day of the month, whatever the weekday is. */
  lemma FormatDayWritesDate(d: DateTimeComponent, weekday: int)
    requires 0 <= d.date < 100
    ensures FormatDay(d.(day := weekday)) == FormatDay(d)
    ensures |FormatDay(d)| == 2 && ReadDecimal(FormatDay(d)) == Some(d.date)
  {
    assert Pow10(2) == 100;
    ZeroPadExact(d.date, 2);
  }

  /** Microseconds below one second come out as exactly six digits. */
  lemma FormatMicrosecondsReadsBack(d: DateTimeComponent)
    requires 0 <= d.microseconds < 1000000
    ensures |FormatMicroseconds(d)| == 6 && ReadDecimal(FormatMicroseconds(d)) == Some(d.microseconds)
  {
    assert Pow10(6) == 1000000;
    ZeroPadExact(d.microseconds, 6);
  }

  /** No field is ever cut: a non-negative value wider than its field is
      written with all its digits. */
  lemma FormatNeverTruncates(d: DateTimeComponent)
    requires d.year >= 0 && d.microseconds >= 0
    ensures |FormatYear(d)| == Max(|NatToDecimal(d.year)|, 4)
    ensures ReadDecimal(FormatYear(d)) == Some(d.year)
    ensures |FormatMicroseconds(d)| == Max(|NatToDecimal(d.microseconds)|, 6)
    ensures ReadDecimal(FormatMicroseconds(d)) == Some(d.microseconds)
  {
    ZeroPadNeverTruncates(d.year, 4);
    ZeroPadNeverTruncates(d.microseconds, 6);
  }
}
