/** The two built-in layouts of a log line. `localtime` is outside the
    model, so every formatter receives the broken-down local time of the
    message's timestamp as an argument. */
module Formatter {
  import opened Wrappers
  import opened Text
  import opened Declare

  /** The fields of a C `struct tm` that the formatters print. */
  datatype BrokenDownTime = BrokenDownTime(
    yearsSince1900: int, monthsSinceJanuary: int, dayOfMonth: int,
    hour: int, minute: int, second: int)

  /** What a sink may install as its formatter. */
  type FormatFn = (LogMessage, BrokenDownTime) -> string

  function LevelName(l: LogLevel): string
  {
    match l
    case Trace => "TRACE"
    case Debug => "DEBUG"
    case Info => "INFO"
    case Warning => "WARN"
    case Error => "ERROR"
    case Critical => "CRITICAL"
  }

  /** `DefaultLevelFormatter`: the level name left-adjusted in a field of
      eight, filled with spaces. */
  function LevelField(l: LogLevel): string
  {
    PadRight(LevelName(l), 8, ' ')
  }

  /** Reads a level back from its eight-character field. */
  function ParseLevelField(s: string): Option<LogLevel>
  {
    if s == "TRACE   " then Some(Trace)
    else if s == "DEBUG   " then Some(Debug)
    else if s == "INFO    " then Some(Info)
    else if s == "WARN    " then Some(Warning)
    else if s == "ERROR   " then Some(Error)
    else if s == "CRITICAL" then Some(Critical)
    else None
  }

  /** Every level name fits the field, so the field is exactly eight
      characters: the name, then spaces; and the level can be read back. */
  lemma LevelFieldLayout(l: LogLevel)
    ensures |LevelName(l)| <= 8 && |LevelField(l)| == 8
    ensures LevelField(l)[..|LevelName(l)|] == LevelName(l)
    ensures forall k :: |LevelName(l)| <= k < 8 ==> LevelField(l)[k] == ' '
    ensures ParseLevelField(LevelField(l)) == Some(l)
  {
    var f := LevelField(l);
    match l
    case Trace => assert f == "TRACE   ";
    case Debug => assert f == "DEBUG   ";
    case Info => assert f == "INFO    ";
    case Warning => assert f == "WARN    ";
    case Error => assert f == "ERROR   ";
    case Critical => assert f == "CRITICAL";
  }

  /** Arithmetic for the remainder: a positive multiple of `m` is at
      least `m`, multiplication distributes, and a multiple of `m` leaves
      no remainder. */
  lemma MulAtLeast(m: int, t: int)
    requires m > 0 && t >= 1
    ensures m * t >= m
  {
    assert m * t == m * (t - 1) + m;
    assert m * (t - 1) >= 0;
  }

  lemma MulDistrib(m: int, k: int, q: int)
    ensures m * k - m * q == m * (k - q)
  {
  }

  lemma MulMod(k: int, m: int)
    requires m > 0
    ensures (m * k) % m == 0
  {
    var x := m * k;
    var q := x / m;
    assert x == m * q + x % m;
    MulDistrib(m, k, q);
    assert m * (k - q) == x % m;
    if k - q >= 1 { MulAtLeast(m, k - q); }
    else if k - q <= -1 { MulAtLeast(m, q - k); MulDistrib(m, q, k); }
  }

  /** Truncated and Euclidean remainders differ by a multiple of `m`. */
  lemma RemainderOfMultiple(a: int, m: int)
    requires m > 0
    ensures a >= 0 ==> (a - a % m) % m == 0
    ensures a < 0 ==> (a + (-a) % m) % m == 0
  {
    if a >= 0 {
      assert a - a % m == m * (a / m);
      MulMod(a / m, m);
    } else {
      var b := -a;
      assert b == m * (b / m) + b % m;
      assert a + b % m == -(m * (b / m));
      MulDistrib(m, 0, b / m);
      MulMod(-(b / m), m);
    }
  }

  /** `std::chrono` remainder: it truncates toward zero, so a time before
      the epoch gives a negative remainder. */
  function TruncatedRemainder(a: int, m: int): (r: int)
    requires m > 0
    ensures a >= 0 ==> 0 <= r < m
    ensures a < 0 ==> -m < r <= 0
    ensures (a - r) % m == 0
  {
    RemainderOfMultiple(a, m);
    if a >= 0 then a % m else -((-a) % m)
  }

  /** The microseconds printed for a timestamp (microseconds since the
      epoch). */
  function Microseconds(timestamp: int): int
  {
    TruncatedRemainder(timestamp, 1000000)
  }

  /** The seven zero-filled fields of a date text, before the
      separators are put between them. */
  datatype DatePieces = DatePieces(
    year: string, month: string, day: string, hour: string, minute: string,
    second: string, micros: string)

  /** Each field in its `std::setw` width with fill `'0'`: four digits of
      year, two of month, day, hour, minute and second, six of
      microseconds. */
  function Pieces(tm: BrokenDownTime, micros: int): DatePieces
  {
    DatePieces(ZeroPad(1900 + tm.yearsSince1900, 4), ZeroPad(1 + tm.monthsSinceJanuary, 2),
               ZeroPad(tm.dayOfMonth, 2), ZeroPad(tm.hour, 2), ZeroPad(tm.minute, 2),
               ZeroPad(tm.second, 2), ZeroPad(micros, 6))
  }

  /** The separators between the date fields. */
  function JoinDate(p: DatePieces): string
  {
    p.year + "-" + p.month + "-" + p.day + " " + p.hour + ":" + p.minute + ":" + p.second
    + "." + p.micros
  }

  /** `YYYY-MM-DD hh:mm:ss.uuuuuu`. */
  function DateText(tm: BrokenDownTime, micros: int): string
  {
    JoinDate(Pieces(tm, micros))
  }

  /** The values a date text shows. */
  datatype DateFields = DateFields(
    year: int, month: int, day: int, hour: int, minute: int, second: int, micros: int)

  /** Reads the seven numbers back from a 26-character date text. */
  function ParseDate(s: string): Option<DateFields>
  {
    if |s| != 26 || s[4] != '-' || s[7] != '-' || s[10] != ' ' || s[13] != ':'
       || s[16] != ':' || s[19] != '.' then None
    else
      var y, mo, d := ReadDecimal(s[0..4]), ReadDecimal(s[5..7]), ReadDecimal(s[8..10]);
      var h, mi, se := ReadDecimal(s[11..13]), ReadDecimal(s[14..16]), ReadDecimal(s[17..19]);
      var us := ReadDecimal(s[20..26]);
      if y.Some? && mo.Some? && d.Some? && h.Some? && mi.Some? && se.Some? && us.Some? then
        Some(DateFields(y.value, mo.value, d.value, h.value, mi.value, se.value, us.value))
      else None
  }

  /** The fields fit their widths: a four-digit year, two-digit month,
      day, hour, minute and second, and microseconds below one second. */
  predicate FitsWidths(tm: BrokenDownTime, micros: int)
  {
    && 0 <= 1900 + tm.yearsSince1900 < 10000
    && 0 <= 1 + tm.monthsSinceJanuary < 100
    && 0 <= tm.dayOfMonth < 100 && 0 <= tm.hour < 100
    && 0 <= tm.minute < 100 && 0 <= tm.second < 100
    && 0 <= micros < 1000000
  }

  /** The values the date text of `tm` is meant to show. */
  function ShownFields(tm: BrokenDownTime, micros: int): DateFields
  {
    DateFields(1900 + tm.yearsSince1900, 1 + tm.monthsSinceJanuary, tm.dayOfMonth,
               tm.hour, tm.minute, tm.second, micros)
  }

  /** Every piece has its width and reads back as the matching field. */
  predicate Shows(p: DatePieces, f: DateFields)
  {
    && |p.year| == 4 && |p.month| == 2 && |p.day| == 2 && |p.hour| == 2
    && |p.minute| == 2 && |p.second| == 2 && |p.micros| == 6
    && ReadDecimal(p.year) == Some(f.year) && ReadDecimal(p.month) == Some(f.month)
    && ReadDecimal(p.day) == Some(f.day) && ReadDecimal(p.hour) == Some(f.hour)
    && ReadDecimal(p.minute) == Some(f.minute) && ReadDecimal(p.second) == Some(f.second)
    && ReadDecimal(p.micros) == Some(f.micros)
  }

  /** Pieces of widths 4, 2, 2, 2, 2, 2, 6 joined by the date separators
      sit at fixed positions. */
  lemma DateSlices(p: DatePieces)
    requires |p.year| == 4 && |p.month| == 2 && |p.day| == 2 && |p.hour| == 2
    requires |p.minute| == 2 && |p.second| == 2 && |p.micros| == 6
    ensures var s := JoinDate(p);
      && |s| == 26
      && s[0..4] == p.year && s[5..7] == p.month && s[8..10] == p.day && s[11..13] == p.hour
      && s[14..16] == p.minute && s[17..19] == p.second && s[20..26] == p.micros
      && s[4] == '-' && s[7] == '-' && s[10] == ' ' && s[13] == ':' && s[16] == ':' && s[19] == '.'
  {
    var s := JoinDate(p);
    assert (s[..4] + s[4..])[..4] == s[..4];
    assert s == (p.year + "-") + p.month + s[7..];
  }

  /** Pieces that show the fields, so joined, read back as the fields. */
  lemma DateLayout(p: DatePieces, f: DateFields)
    requires Shows(p, f)
    ensures |JoinDate(p)| == 26
    ensures ParseDate(JoinDate(p)) == Some(f)
  {
    DateSlices(p);
  }

  /** Each field that fits its width is written in exactly that width
      and reads back as its value. */
  lemma DateFieldsFit(tm: BrokenDownTime, micros: int)
    requires FitsWidths(tm, micros)
    ensures Shows(Pieces(tm, micros), ShownFields(tm, micros))
  {
    EachFieldFits(tm, micros);
  }

  lemma EachFieldFits(tm: BrokenDownTime, micros: int)
    requires FitsWidths(tm, micros)
    ensures |ZeroPad(1900 + tm.yearsSince1900, 4)| == 4
    ensures ReadDecimal(ZeroPad(1900 + tm.yearsSince1900, 4)) == Some(1900 + tm.yearsSince1900)
    ensures |ZeroPad(1 + tm.monthsSinceJanuary, 2)| == 2
    ensures ReadDecimal(ZeroPad(1 + tm.monthsSinceJanuary, 2)) == Some(1 + tm.monthsSinceJanuary)
    ensures |ZeroPad(tm.dayOfMonth, 2)| == 2 && ReadDecimal(ZeroPad(tm.dayOfMonth, 2)) == Some(tm.dayOfMonth)
    ensures |ZeroPad(tm.hour, 2)| == 2 && ReadDecimal(ZeroPad(tm.hour, 2)) == Some(tm.hour)
    ensures |ZeroPad(tm.minute, 2)| == 2 && ReadDecimal(ZeroPad(tm.minute, 2)) == Some(tm.minute)
    ensures |ZeroPad(tm.second, 2)| == 2 && ReadDecimal(ZeroPad(tm.second, 2)) == Some(tm.second)
    ensures |ZeroPad(micros, 6)| == 6 && ReadDecimal(ZeroPad(micros, 6)) == Some(micros)
  {
    FieldFits(1900 + tm.yearsSince1900, 4);
    FieldFits(1 + tm.monthsSinceJanuary, 2);
    FieldFits(tm.dayOfMonth, 2);
    FieldFits(tm.hour, 2);
    FieldFits(tm.minute, 2);
    FieldFits(tm.second, 2);
    FieldFits(micros, 6);
  }

  /** One field of width 2, 4 or 6 whose value fits. */
  lemma FieldFits(v: int, width: nat)
    requires width == 2 || width == 4 || width == 6
    requires 0 <= v && (width == 2 ==> v < 100) && (width == 4 ==> v < 10000)
    requires width == 6 ==> v < 1000000
    ensures |ZeroPad(v, width)| == width && ReadDecimal(ZeroPad(v, width)) == Some(v)
  {
    assert Pow10(2) == 100;
    assert Pow10(4) == 10000;
    assert Pow10(6) == 1000000;
    ZeroPadExact(v, width);
  }

  /** When the fields fit, the date text is 26 characters long and reads
      back as exactly the fields it was made from. */
  lemma DateTextReadsBack(tm: BrokenDownTime, micros: int)
    requires FitsWidths(tm, micros)
    ensures |DateText(tm, micros)| == 26
    ensures ParseDate(DateText(tm, micros)) == Some(ShownFields(tm, micros))
  {
    DateFieldsFit(tm, micros);
    DateLayout(Pieces(tm, micros), ShownFields(tm, micros));
  }

  /** The end of the default layout: the bracket closing the location,
      the line break, the eight-character indent and `[tag] message`. */
  function Continuation(tag: string, message: string): (r: string)
    ensures r == "]\n" + Fill(8, ' ') + "[" + tag + "] " + message
  {
    "]\n" + PadRight(" ", 8, ' ') + "[" + tag + "] " + message
  }

  /** `DefaultFormatter`: a two-line layout. */
  function DefaultFormatter(msg: LogMessage, tm: BrokenDownTime): string
  {
    LevelField(msg.level) + DateText(tm, Microseconds(msg.timestamp)) + " "
    + PadLeft(msg.threadId, 5, ' ') + " " + msg.file + ":" + IntToDecimal(msg.line as int)
    + Continuation(msg.tag, msg.message)
  }

  /** `SimpleFormatter`: a one-line layout. */
  function SimpleFormatter(msg: LogMessage, tm: BrokenDownTime): string
  {
    "[" + LevelField(msg.level) + "] " + DateText(tm, Microseconds(msg.timestamp)) + " "
    + "[" + msg.tag + "] " + msg.message
  }

  /** The shape of a default-layout text `r` around its level text `lf`
      and date text `dt`: the level in the first eight characters, the
      date in the next 26, a space, the thread id right-adjusted in at
      least five characters, a space, the source file, `:` and the line
      number text `lineText`; then `]`, a line break, eight spaces and
      `[tag] message`, with nothing else in the text. */
  predicate DefaultShape(r: string, lf: string, dt: string, threadId: string, file: string,
                         lineText: string, tag: string, message: string)
  {
    var w := Max(|threadId|, 5);
    var tail := "]\n" + Fill(8, ' ') + "[" + tag + "] " + message;
    && |r| == 37 + w + |file| + |lineText| + |tail|
    && r[..8] == lf && r[8..34] == dt && r[34] == ' ' && r[35 + w] == ' '
    && r[35 + w - |threadId|..35 + w] == threadId
    && (forall k :: 35 <= k < 35 + w - |threadId| ==> r[k] == ' ')
    && r[36 + w..36 + w + |file|] == file
    && r[36 + w + |file|] == ':'
    && r[37 + w + |file|..37 + w + |file| + |lineText|] == lineText
    && r[|r| - |tail|..] == tail
  }

  /** Where the fields of the first line of the default layout sit. */
  lemma DefaultPositions(lf: string, dt: string, tid: string, file: string, line: string,
                         tail: string)
    requires |lf| == 8 && |dt| == 26
    ensures var r := lf + dt + " " + tid + " " + file + ":" + line + tail;
      && |r| == 37 + |tid| + |file| + |line| + |tail|
      && r[..8] == lf && r[8..34] == dt && r[34] == ' '
      && r[35..35 + |tid|] == tid && r[35 + |tid|] == ' '
      && r[36 + |tid|..36 + |tid| + |file|] == file
      && r[36 + |tid| + |file|] == ':'
      && r[37 + |tid| + |file|..37 + |tid| + |file| + |line|] == line
      && r[|r| - |tail|..] == tail
  {
    var head := lf + dt + " " + tid + " " + file + ":" + line;
    assert head == lf + (dt + (" " + (tid + (" " + (file + (":" + line))))));
  }

  /** The default layout has that shape, whatever the level and date
      texts are. */
  lemma DefaultPieces(lf: string, dt: string, threadId: string, file: string, line: string,
                      tag: string, message: string)
    requires |lf| == 8 && |dt| == 26
    ensures DefaultShape(lf + dt + " " + PadLeft(threadId, 5, ' ') + " " + file + ":" + line
                         + Continuation(tag, message), lf, dt, threadId, file, line, tag, message)
  {
    var tid := PadLeft(threadId, 5, ' ');
    PadLeftLayout(threadId, 5, ' ');
    DefaultPositions(lf, dt, tid, file, line, Continuation(tag, message));
    var r := lf + dt + " " + tid + " " + file + ":" + line + Continuation(tag, message);
    assert forall k :: 35 <= k < 35 + |tid| - |threadId| ==> r[k] == tid[k - 35];
  }

  /** The default layout: the level field reads back as the message's
      level and the date text as the time's fields, each in its place of
      `DefaultShape`. */
  lemma DefaultFormatterLayout(msg: LogMessage, tm: BrokenDownTime)
    requires FitsWidths(tm, Microseconds(msg.timestamp))
    ensures DefaultShape(DefaultFormatter(msg, tm), LevelField(msg.level),
                         DateText(tm, Microseconds(msg.timestamp)), msg.threadId, msg.file,
                         IntToDecimal(msg.line as int), msg.tag, msg.message)
    ensures ParseLevelField(DefaultFormatter(msg, tm)[..8]) == Some(msg.level)
    ensures ParseDate(DefaultFormatter(msg, tm)[8..34])
            == Some(ShownFields(tm, Microseconds(msg.timestamp)))
  {
    var micros := Microseconds(msg.timestamp);
    LevelFieldLayout(msg.level);
    DateTextReadsBack(tm, micros);
    DefaultPieces(LevelField(msg.level), DateText(tm, micros), msg.threadId, msg.file,
                  IntToDecimal(msg.line as int), msg.tag, msg.message);
  }

  /** Where the pieces of the simple layout sit, whatever their
      contents. */
  lemma SimplePieces(lf: string, dt: string, tag: string, message: string)
    requires |lf| == 8 && |dt| == 26
    ensures var r := "[" + lf + "] " + dt + " " + "[" + tag + "] " + message;
      && |r| == 37 + 4 + |tag| + |message|
      && r[0] == '[' && r[1..9] == lf && r[9..11] == "] " && r[11..37] == dt
      && r[37..] == " [" + tag + "] " + message
  {
    var r := "[" + lf + "] " + dt + " " + "[" + tag + "] " + message;
    assert r == "[" + lf + "] " + dt + (" [" + tag + "] " + message);
  }

  /** The simple layout: `[`, the level field, `] `, the date, and
      ` [tag] message`; nothing else. */
  lemma SimpleFormatterLayout(msg: LogMessage, tm: BrokenDownTime)
    requires FitsWidths(tm, Microseconds(msg.timestamp))
    ensures var r := SimpleFormatter(msg, tm);
      && |r| == 37 + 4 + |msg.tag| + |msg.message|
      && r[0] == '[' && ParseLevelField(r[1..9]) == Some(msg.level) && r[9..11] == "] "
      && ParseDate(r[11..37]) == Some(ShownFields(tm, Microseconds(msg.timestamp)))
      && r[37..] == " [" + msg.tag + "] " + msg.message
  {
    var micros := Microseconds(msg.timestamp);
    LevelFieldLayout(msg.level);
    DateTextReadsBack(tm, micros);
    SimplePieces(LevelField(msg.level), DateText(tm, micros), msg.tag, msg.message);
  }

  /** A timestamp at or after the epoch prints microseconds within one
      second, so its date text always reads back. */
  lemma PostEpochMicroseconds(timestamp: int)
    requires timestamp >= 0
    ensures 0 <= Microseconds(timestamp) <= 999999
  {
  }
}
