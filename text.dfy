/** Decimal rendering and field padding, as C++ iostreams do them with
    `std::setw`, `std::setfill`, `std::left` and the default right
    adjustment. Every formatter of the logger is built from these. */
module Text {
  import opened Wrappers

  function Max(a: int, b: int): int { if a < b then b else a }

  /** 10^k */
  function Pow10(k: nat): (r: nat)
    ensures r >= 1
  {
    if k == 0 then 1 else 10 * Pow10(k - 1)
  }

  predicate IsDigit(c: char) { '0' <= c <= '9' }

  function DigitValue(c: char): nat
    requires IsDigit(c)
  {
    c as int - '0' as int
  }

  function DigitChar(d: nat): (c: char)
    requires d < 10
    ensures IsDigit(c) && DigitValue(c) == d
  {
    ('0' as int + d) as char
  }

  /** The shortest decimal representation of `n`, as `operator<<` writes
      a non-negative integer. */
  function NatToDecimal(n: nat): (s: string)
    ensures 1 <= |s|
    ensures |s| > 1 ==> s[0] != '0'
    decreases n
  {
    if n < 10 then [DigitChar(n)] else NatToDecimal(n / 10) + [DigitChar(n % 10)]
  }

  /** The value of a string of decimal digits (the empty string counts
      as 0 here), or `None` when some character is not a digit. */
  function Digits(s: string): Option<nat>
  {
    if s == [] then Some(0)
    else if !IsDigit(s[|s| - 1]) then None
    else match Digits(s[..|s| - 1])
      case None => None
      case Some(v) => Some(10 * v + DigitValue(s[|s| - 1]))
  }

  /** Reads a field of decimal digits: the reading direction that
      partners `NatToDecimal`; `None` for an empty field or one holding a
      character that is not a digit. */
  function ReadDecimal(s: string): Option<nat>
  {
    if s == [] then None else Digits(s)
  }

  /** A signed integer as `operator<<` writes it: a minus sign before the
      digits of the magnitude. */
  function IntToDecimal(i: int): (s: string)
    ensures i >= 0 ==> s == NatToDecimal(i)
    ensures i < 0 ==> s == "-" + NatToDecimal(-i)
  {
    if i < 0 then "-" + NatToDecimal(-i) else NatToDecimal(i)
  }

  /** `count` copies of `c`. */
  function Fill(count: nat, c: char): (r: string)
    ensures |r| == count && forall k :: 0 <= k < count ==> r[k] == c
  {
    seq(count, _ => c)
  }

  /** Right adjustment in a field of `width` (`std::setw(width)` with fill
      `fill`): fill characters first, the text last; a text already as
      wide as the field is written in full, never cut. */
  function PadLeft(s: string, width: nat, fill: char): (r: string)
    ensures |r| == Max(|s|, width)
  {
    if |s| >= width then s else Fill(width - |s|, fill) + s
  }

  /** Left adjustment (`std::left << std::setw(width)`): the text first,
      fill characters after it; never cuts the text. */
  function PadRight(s: string, width: nat, fill: char): (r: string)
    ensures |r| == Max(|s|, width)
  {
    if |s| >= width then s else s + Fill(width - |s|, fill)
  }

  /** Right adjustment: the text ends the field, fill characters come
      before it. */
  lemma PadLeftLayout(s: string, width: nat, fill: char)
    ensures var r := PadLeft(s, width, fill);
      && r[|r| - |s|..] == s
      && forall k :: 0 <= k < |r| - |s| ==> r[k] == fill
  {
  }

  /** Left adjustment: the text starts the field, fill characters come
      after it. */
  lemma PadRightLayout(s: string, width: nat, fill: char)
    ensures var r := PadRight(s, width, fill);
      && r[..|s|] == s
      && forall k :: |s| <= k < |r| ==> r[k] == fill
  {
  }

  /** An integer in a zero-filled field: `std::setw(width) <<
      std::setfill('0') << v`. */
  function ZeroPad(v: int, width: nat): string
  {
    PadLeft(IntToDecimal(v), width, '0')
  }

  lemma {:induction false} DecimalRoundTrip(n: nat)
    ensures Digits(NatToDecimal(n)) == Some(n)
    ensures ReadDecimal(NatToDecimal(n)) == Some(n)
  {
    if n >= 10 {
      var s := NatToDecimal(n / 10) + [DigitChar(n % 10)];
      assert s[..|s| - 1] == NatToDecimal(n / 10);
      DecimalRoundTrip(n / 10);
    }
  }

  /** A number below 10^k needs at most k digits (and always one). */
  lemma {:induction false} DecimalLength(n: nat, k: nat)
    requires n < Pow10(k)
    ensures |NatToDecimal(n)| <= Max(k, 1)
  {
    if n >= 10 {
      assert Pow10(1) == 10;
      DecimalLength(n / 10, k - 1);
    }
  }

  /** Leading zeros do not change the value of a digit string. */
  lemma {:induction false} LeadingZerosIgnored(z: nat, s: string)
    ensures Digits(Fill(z, '0') + s) == Digits(s)
  {
    var t := Fill(z, '0') + s;
    if s == [] {
      assert t == Fill(z, '0');
      if z > 0 {
        assert t[..|t| - 1] == Fill(z - 1, '0') + [];
        LeadingZerosIgnored(z - 1, []);
      }
    } else {
      var init := s[..|s| - 1];
      assert t[..|t| - 1] == Fill(z, '0') + init;
      assert t[|t| - 1] == s[|s| - 1];
      LeadingZerosIgnored(z, init);
    }
  }

  /** A non-negative value that fits the field comes out as exactly
      `width` digits that read back as the value. */
  lemma ZeroPadExact(v: int, width: nat)
    requires width >= 1 && 0 <= v < Pow10(width)
    ensures |ZeroPad(v, width)| == width
    ensures ReadDecimal(ZeroPad(v, width)) == Some(v)
  {
    var d := NatToDecimal(v);
    DecimalLength(v, width);
    DecimalRoundTrip(v);
    LeadingZerosIgnored(width - |d|, d);
    assert ZeroPad(v, width) == Fill(width - |d|, '0') + d;
  }

  /** Padding never truncates: a non-negative value wider than its field
      is written with all its digits. */
  lemma ZeroPadNeverTruncates(v: nat, width: nat)
    ensures |ZeroPad(v, width)| == Max(|NatToDecimal(v)|, width)
    ensures ReadDecimal(ZeroPad(v, width)) == Some(v)
  {
    var d := NatToDecimal(v);
    DecimalRoundTrip(v);
    if |d| < width {
      LeadingZerosIgnored(width - |d|, d);
      assert ZeroPad(v, width) == Fill(width - |d|, '0') + d;
    }
  }
}
