/** Python's `date` and naive `datetime` values, their `isoformat()` strings, and a strict parser for
    the `full-date` production of section 5.6 of RFC 3339 (`YYYY-MM-DD`). */
module Calendar {
  import opened Wrappers

  predicate IsLeapYear(y: int)
  {
    y % 4 == 0 && (y % 100 != 0 || y % 400 == 0)
  }

  function DaysInMonth(y: int, m: int): (n: int)
    requires 1 <= m <= 12
    ensures 28 <= n <= 31
  {
    if m == 2 then (if IsLeapYear(y) then 29 else 28)
    else if m == 4 || m == 6 || m == 9 || m == 11 then 30
    else 31
  }

  datatype CalendarDate = CalendarDate(year: int, month: int, day: int)

  /** The range of Python's `date`: years 1 to 9999 of the proleptic Gregorian calendar. */
  predicate IsValidDate(d: CalendarDate)
  {
    1 <= d.year <= 9999 && 1 <= d.month <= 12 && 1 <= d.day <= DaysInMonth(d.year, d.month)
  }

  type Date = d: CalendarDate | IsValidDate(d) witness CalendarDate(1, 1, 1)

  datatype ClockTime = ClockTime(date: Date, hour: int, minute: int, second: int, microsecond: int)

  /** A naive Python `datetime` (no time zone), such as `datetime.utcnow()` returns. */
  type DateTime = t: ClockTime | 0 <= t.hour < 24 && 0 <= t.minute < 60 && 0 <= t.second < 60
                                 && 0 <= t.microsecond < 1000000
    witness ClockTime(CalendarDate(1, 1, 1), 0, 0, 0, 0)

  function Pow10(n: nat): (p: nat)
    ensures p >= 1
  {
    if n == 0 then 1 else 10 * Pow10(n - 1)
  }

  predicate IsDigit(c: char)
  {
    '0' <= c <= '9'
  }

  predicate AllDigits(s: string)
  {
    forall i :: 0 <= i < |s| ==> IsDigit(s[i])
  }

  function DigitChar(d: int): (c: char)
    requires 0 <= d <= 9
    ensures IsDigit(c) && c as int - '0' as int == d
  {
    ('0' as int + d) as char
  }

  /** The number a string of decimal digits spells. */
  function DecimalValue(s: string): nat
    requires AllDigits(s)
  {
    if s == [] then 0 else DecimalValue(s[..|s| - 1]) * 10 + (s[|s| - 1] as int - '0' as int)
  }

  /** `%0<width>d`: n written in decimal, zero-padded on the left to exactly width digits. */
  function Pad(n: nat, width: nat): (s: string)
    requires n < Pow10(width)
    ensures |s| == width && AllDigits(s)
    ensures DecimalValue(s) == n
  {
    if width == 0 then ""
    else
      var s := Pad(n / 10, width - 1) + [DigitChar(n % 10)];
      assert s[..|s| - 1] == Pad(n / 10, width - 1);
      s
  }

  lemma {:induction false} DecimalValueBound(s: string)
    requires AllDigits(s)
    ensures DecimalValue(s) < Pow10(|s|)
  {
    if s != [] {
      DecimalValueBound(s[..|s| - 1]);
    }
  }

  /** Padding a digit string's value back to its own width gives the string back: a digit string has
      exactly one zero-padded spelling of its length. */
  lemma {:induction false} PadDecimalValue(s: string)
    requires AllDigits(s)
    ensures DecimalValue(s) < Pow10(|s|) && Pad(DecimalValue(s), |s|) == s
  {
    DecimalValueBound(s);
    if s != [] {
      var init := s[..|s| - 1];
      PadDecimalValue(init);
      var v := DecimalValue(s);
      assert v / 10 == DecimalValue(init);
      assert v % 10 == s[|s| - 1] as int - '0' as int;
      assert s == init + [s[|s| - 1]];
    }
  }

  /** `date.isoformat()`: `YYYY-MM-DD`, each part zero-padded. */
  function IsoDate(d: Date): (s: string)
    ensures |s| == 10 && s[4] == '-' && s[7] == '-'
    ensures forall i :: 0 <= i < 10 && i != 4 && i != 7 ==> IsDigit(s[i])
  {
    Pad(d.year, 4) + "-" + Pad(d.month, 2) + "-" + Pad(d.day, 2)
  }

  /** The parts of an `IsoDate` string, for the proofs below. */
  lemma IsoDateParts(d: Date)
    ensures IsoDate(d)[0..4] == Pad(d.year, 4)
    ensures IsoDate(d)[5..7] == Pad(d.month, 2)
    ensures IsoDate(d)[8..10] == Pad(d.day, 2)
  {
    var s := IsoDate(d);
    assert s == Pad(d.year, 4) + "-" + Pad(d.month, 2) + "-" + Pad(d.day, 2);
  }

  /** A strict `full-date` parser (section 5.6 of RFC 3339), restricted to the years a Python `date`
      can hold: four, two and two digits separated by `-`, naming a day that exists. */
  function ParseFullDate(s: string): Option<Date>
  {
    if |s| == 10 && s[4] == '-' && s[7] == '-' && AllDigits(s[0..4]) && AllDigits(s[5..7])
       && AllDigits(s[8..10])
    then
      var d := CalendarDate(DecimalValue(s[0..4]), DecimalValue(s[5..7]), DecimalValue(s[8..10]));
      if IsValidDate(d) then Some(d) else None
    else None
  }

  /** Parsing the ISO string of a date gives the date back. */
  lemma ParseIsoDate(d: Date)
    ensures ParseFullDate(IsoDate(d)) == Some(d)
  {
    IsoDateParts(d);
  }

  /** The parser accepts only canonical strings: whatever it accepts is the ISO string of its result. */
  lemma ParsedIsCanonical(s: string)
    requires ParseFullDate(s).Some?
    ensures IsoDate(ParseFullDate(s).value) == s
  {
    var d := ParseFullDate(s).value;
    var t := IsoDate(d);
    assert t[0..4] == s[0..4] by {
      IsoDateParts(d);
      PadDecimalValue(s[0..4]);
    }
    assert t[5..7] == s[5..7] by {
      IsoDateParts(d);
      PadDecimalValue(s[5..7]);
    }
    assert t[8..10] == s[8..10] by {
      IsoDateParts(d);
      PadDecimalValue(s[8..10]);
    }
    SameDateString(t, s);
  }

  /** Two date-shaped strings with the same three digit groups are equal. */
  lemma SameDateString(t: string, s: string)
    requires |t| == 10 && |s| == 10 && t[4] == s[4] && t[7] == s[7]
    requires t[0..4] == s[0..4] && t[5..7] == s[5..7] && t[8..10] == s[8..10]
    ensures t == s
  {
    forall i | 0 <= i < 10 ensures t[i] == s[i] {
      if i < 4 { assert t[i] == t[0..4][i]; }
      else if 5 <= i < 7 { assert t[i] == t[5..7][i - 5]; }
      else if 8 <= i { assert t[i] == t[8..10][i - 8]; }
    }
  }

  /** Different dates have different ISO strings. */
  lemma IsoDateInjective(d1: Date, d2: Date)
    requires IsoDate(d1) == IsoDate(d2)
    ensures d1 == d2
  {
    ParseIsoDate(d1);
    ParseIsoDate(d2);
  }

  /** `datetime.isoformat()` of a naive datetime: `YYYY-MM-DDTHH:MM:SS`, followed by `.ffffff` only
      when the microsecond is not zero. */
  function IsoDateTime(t: DateTime): (s: string)
    ensures |s| == (if t.microsecond == 0 then 19 else 26)
    ensures s[..10] == IsoDate(t.date) && s[10] == 'T' && s[13] == ':' && s[16] == ':'
  {
    IsoDate(t.date) + "T" + Pad(t.hour, 2) + ":" + Pad(t.minute, 2) + ":" + Pad(t.second, 2)
    + (if t.microsecond == 0 then "" else "." + Pad(t.microsecond, 6))
  }
}
