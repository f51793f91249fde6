/** The history worksheets' time stamp: a date-time rendered with the format
    `%d/%m/%Y %H:%M:%S`, that is DD/MM/YYYY HH:MM:SS with zero padding. */
module DateFormat {
  import opened Values

  datatype DateTime = DateTime(year: int, month: int, day: int, hour: int, minute: int, second: int)

  /** The range of a Python `datetime`, which is what the clock supplies. */
  predicate InRange(t: DateTime)
  {
    1 <= t.year <= 9999 && 1 <= t.month <= 12 && 1 <= t.day <= 31 &&
    0 <= t.hour < 24 && 0 <= t.minute < 60 && 0 <= t.second < 60
  }

  type Timestamp = t: DateTime | InRange(t) witness DateTime(2000, 1, 1, 0, 0, 0)

  function Digit(d: int): char
    requires 0 <= d < 10
  {
    (d + '0' as int) as char
  }

  predicate IsDigit(c: char)
  {
    '0' <= c <= '9'
  }

  function DigitValue(c: char): int
  {
    c as int - '0' as int
  }

  /** A number below 100 as two digits, zero padded. */
  function Pad2(n: int): string
    requires 0 <= n < 100
  {
    [Digit(n / 10), Digit(n % 10)]
  }

  /** A number below 10000 as four digits, zero padded. */
  function Pad4(n: int): string
    requires 0 <= n < 10000
  {
    Pad2(n / 100) + Pad2(n % 100)
  }

  /** `strftime('%d/%m/%Y %H:%M:%S')`. */
  function FormatFecha(t: Timestamp): string
  {
    Pad2(t.day) + "/" + Pad2(t.month) + "/" + Pad4(t.year) + " " +
    Pad2(t.hour) + ":" + Pad2(t.minute) + ":" + Pad2(t.second)
  }

  function Number(s: string): int
  {
    if s == [] then 0 else 10 * Number(s[..|s| - 1]) + DigitValue(s[|s| - 1])
  }

  /** `str(n)` for a natural number: its decimal digits, without leading
      zeros. */
  function NatText(n: nat): (s: string)
    ensures |s| >= 1 && forall i :: 0 <= i < |s| ==> IsDigit(s[i])
    decreases n
  {
    if n < 10 then [Digit(n)] else NatText(n / 10) + [Digit(n % 10)]
  }

  /** The digits read back as the number they were made from. */
  lemma {:induction false} NatTextRoundTrip(n: nat)
    ensures Number(NatText(n)) == n
    decreases n
  {
    var s := NatText(n);
    if n < 10 {
      assert s[..0] == [];
    } else {
      NatTextRoundTrip(n / 10);
      assert s[..|s| - 1] == NatText(n / 10);
    }
  }

  /** `str(i)` for an integer: a minus sign before the digits of a
      negative number. */
  function IntText(i: int): (s: string)
    ensures |s| >= 1 && (s[0] == '-' <==> i < 0)
    ensures forall k :: (if i < 0 then 1 else 0) <= k < |s| ==> IsDigit(s[k])
  {
    if i < 0 then "-" + NatText(-i) else NatText(i)
  }

  /** Reads back a DD/MM/YYYY HH:MM:SS stamp. */
  function ParseFecha(s: string): Option<DateTime>
  {
    if |s| != 19 || s[2] != '/' || s[5] != '/' || s[10] != ' ' || s[13] != ':' || s[16] != ':'
       || !(forall i :: 0 <= i < 19 && i !in {2, 5, 10, 13, 16} ==> IsDigit(s[i]))
    then None
    else Some(DateTime(Number(s[6..10]), Number(s[3..5]), Number(s[..2]),
                       Number(s[11..13]), Number(s[14..16]), Number(s[17..19])))
  }

  lemma Pad2RoundTrip(n: int)
    requires 0 <= n < 100
    ensures |Pad2(n)| == 2 && IsDigit(Pad2(n)[0]) && IsDigit(Pad2(n)[1])
    ensures Number(Pad2(n)) == n
  {
    var s := Pad2(n);
    assert DigitValue(s[0]) == n / 10 && DigitValue(s[1]) == n % 10;
    assert s[..1][..0] == [];
    assert Number(s[..1]) == n / 10;
  }

  lemma Pad4RoundTrip(n: int)
    requires 0 <= n < 10000
    ensures |Pad4(n)| == 4 && forall i :: 0 <= i < 4 ==> IsDigit(Pad4(n)[i])
    ensures Number(Pad4(n)) == n
  {
    var hi, lo := Pad2(n / 100), Pad2(n % 100);
    Pad2RoundTrip(n / 100);
    Pad2RoundTrip(n % 100);
    var s := hi + lo;
    assert s[..3][..2] == hi;
    assert Number(s[..3]) == 10 * (n / 100) + DigitValue(lo[0]);
    assert lo[..1][..0] == [];
    assert Number(lo) == 10 * DigitValue(lo[0]) + DigitValue(lo[1]);
  }

  /** The stamp is 19 characters long and reads back as the time it was
      made from. */
  lemma FormatFechaRoundTrip(t: Timestamp)
    ensures |FormatFecha(t)| == 19
    ensures ParseFecha(FormatFecha(t)) == Option<DateTime>.Some(t)
  {
    var s := FormatFecha(t);
    Pad2RoundTrip(t.day);
    Pad2RoundTrip(t.month);
    Pad4RoundTrip(t.year);
    Pad2RoundTrip(t.hour);
    Pad2RoundTrip(t.minute);
    Pad2RoundTrip(t.second);
    assert s[..2] == Pad2(t.day);
    assert s[3..5] == Pad2(t.month);
    assert s[6..10] == Pad4(t.year);
    assert s[11..13] == Pad2(t.hour);
    assert s[14..16] == Pad2(t.minute);
    assert s[17..19] == Pad2(t.second);
  }
}
