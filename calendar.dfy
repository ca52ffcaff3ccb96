/**
 * Proleptic Gregorian dates as Python's `datetime` handles them: the
 * ordinal day number (`toordinal`, built from days-before-year and
 * days-before-month), stepping one day forward or back, adding a number of
 * days, and the zero-padded `YYYY-MM-DD` text form written by
 * `strftime("%Y-%m-%d")` and read by `strptime(..., "%Y-%m-%d")`.
 */
module Calendar {
  import opened Wrappers

  datatype Date = Date(year: int, month: int, day: int)

  /** `datetime.MINYEAR` and `datetime.MAXYEAR`. */
  const MinYear: int := 1
  const MaxYear: int := 9999

  predicate IsLeapYear(y: int)
  {
    y % 4 == 0 && (y % 100 != 0 || y % 400 == 0)
  }

  function DaysInMonth(y: int, m: int): (n: int)
    requires 1 <= m <= 12
    ensures 28 <= n <= 31
    ensures n == 29 <==> m == 2 && IsLeapYear(y)
  {
    if m == 2 then (if IsLeapYear(y) then 29 else 28)
    else if m == 4 || m == 6 || m == 9 || m == 11 then 30
    else 31
  }

  /** A real calendar day from year 1 on, with no upper bound on the year. */
  predicate IsCalendarDate(d: Date)
  {
    MinYear <= d.year && 1 <= d.month <= 12 && 1 <= d.day <= DaysInMonth(d.year, d.month)
  }

  /** A day a Python `date` can hold. */
  predicate InRange(d: Date)
  {
    IsCalendarDate(d) && d.year <= MaxYear
  }

  /** Days in the years before `y`, counting from 1 January of year 1. */
  function DaysBeforeYear(y: int): int
    requires y >= MinYear
  {
    var z := y - 1;
    z * 365 + z / 4 - z / 100 + z / 400
  }

  /** Days in the months of year `y` before month `m`. */
  function DaysBeforeMonth(y: int, m: int): int
    requires 1 <= m <= 12
  {
    [0, 31, 59, 90, 120, 151, 181, 212, 243, 273, 304, 334][m - 1]
      + (if m > 2 && IsLeapYear(y) then 1 else 0)
  }

  /** `date.toordinal()`: 1 January of year 1 is day 1. */
  function Ordinal(d: Date): int
    requires IsCalendarDate(d)
  {
    DaysBeforeYear(d.year) + DaysBeforeMonth(d.year, d.month) + d.day
  }

  lemma DaysBeforeYearStep(y: int)
    requires y >= MinYear
    ensures DaysBeforeYear(y + 1) == DaysBeforeYear(y) + 365 + (if IsLeapYear(y) then 1 else 0)
  {
    var z := y - 1;
    assert y / 4 == z / 4 + (if y % 4 == 0 then 1 else 0);
    assert y / 100 == z / 100 + (if y % 100 == 0 then 1 else 0);
    assert y / 400 == z / 400 + (if y % 400 == 0 then 1 else 0);
  }

  lemma {:induction false} DaysBeforeYearMonotone(y1: int, y2: int)
    requires MinYear <= y1 <= y2
    ensures DaysBeforeYear(y1) <= DaysBeforeYear(y2)
    decreases y2 - y1
  {
    if y1 < y2 {
      DaysBeforeYearStep(y1);
      DaysBeforeYearMonotone(y1 + 1, y2);
    }
  }

  lemma DaysBeforeMonthStep(y: int, m: int)
    requires 1 <= m < 12
    ensures DaysBeforeMonth(y, m + 1) == DaysBeforeMonth(y, m) + DaysInMonth(y, m)
  {
  }

  /** A month ends no later than the year does. */
  lemma MonthWithinYear(y: int, m: int)
    requires 1 <= m <= 12
    ensures DaysBeforeMonth(y, m) + DaysInMonth(y, m) <= 365 + (if IsLeapYear(y) then 1 else 0)
  {
  }

  lemma {:induction false} DaysBeforeMonthMonotone(y: int, m1: int, m2: int)
    requires 1 <= m1 < m2 <= 12
    ensures DaysBeforeMonth(y, m1) + DaysInMonth(y, m1) <= DaysBeforeMonth(y, m2)
    decreases m2 - m1
  {
    DaysBeforeMonthStep(y, m1);
    if m1 + 1 < m2 {
      DaysBeforeMonthMonotone(y, m1 + 1, m2);
    }
  }

  /** Calendar order. */
  predicate Before(a: Date, b: Date)
  {
    a.year < b.year
    || (a.year == b.year && a.month < b.month)
    || (a.year == b.year && a.month == b.month && a.day < b.day)
  }

  /** The ordinal is strictly increasing in calendar order. */
  lemma OrdinalIncreasing(a: Date, b: Date)
    requires IsCalendarDate(a) && IsCalendarDate(b) && Before(a, b)
    ensures Ordinal(a) < Ordinal(b)
  {
    if a.year < b.year {
      MonthWithinYear(a.year, a.month);
      DaysBeforeYearStep(a.year);
      DaysBeforeYearMonotone(a.year + 1, b.year);
    } else if a.month < b.month {
      DaysBeforeMonthMonotone(a.year, a.month, b.month);
    }
  }

  /** Distinct days have distinct ordinals, so a day is determined by its ordinal. */
  lemma OrdinalInjective(a: Date, b: Date)
    requires IsCalendarDate(a) && IsCalendarDate(b) && Ordinal(a) == Ordinal(b)
    ensures a == b
  {
    if Before(a, b) {
      OrdinalIncreasing(a, b);
    } else if Before(b, a) {
      OrdinalIncreasing(b, a);
    }
  }

  /** An earlier or equal ordinal never lies in a later year. */
  lemma OrdinalYearMonotone(a: Date, b: Date)
    requires IsCalendarDate(a) && IsCalendarDate(b) && Ordinal(a) <= Ordinal(b)
    ensures a.year <= b.year
  {
    if a.year > b.year {
      OrdinalIncreasing(b, a);
    }
  }

  lemma OrdinalPositive(d: Date)
    requires IsCalendarDate(d)
    ensures Ordinal(d) >= 1
    ensures Ordinal(d) == 1 <==> d == Date(1, 1, 1)
  {
    DaysBeforeYearMonotone(MinYear, d.year);
    if d.year > 1 {
      DaysBeforeYearStep(MinYear);
      DaysBeforeYearMonotone(MinYear + 1, d.year);
    }
  }

  /** The following day, across month, year and leap-day boundaries. */
  function NextDay(d: Date): (r: Date)
    requires IsCalendarDate(d)
    ensures IsCalendarDate(r) && Ordinal(r) == Ordinal(d) + 1
  {
    if d.day < DaysInMonth(d.year, d.month) then d.(day := d.day + 1)
    else if d.month < 12 then
      DaysBeforeMonthStep(d.year, d.month);
      Date(d.year, d.month + 1, 1)
    else
      DaysBeforeYearStep(d.year);
      Date(d.year + 1, 1, 1)
  }

  /** The preceding day; there is none before 1 January of year 1. */
  function PrevDay(d: Date): (r: Date)
    requires IsCalendarDate(d) && Ordinal(d) > 1
    ensures IsCalendarDate(r) && Ordinal(r) == Ordinal(d) - 1
  {
    if d.day > 1 then d.(day := d.day - 1)
    else if d.month > 1 then
      DaysBeforeMonthStep(d.year, d.month - 1);
      Date(d.year, d.month - 1, DaysInMonth(d.year, d.month - 1))
    else
      OrdinalPositive(d);
      DaysBeforeYearStep(d.year - 1);
      Date(d.year - 1, 12, 31)
  }

  /** `d + timedelta(days=n)`, defined only while the result stays at or after 1 January of year 1. */
  function AddDays(d: Date, n: int): (r: Date)
    requires IsCalendarDate(d) && Ordinal(d) + n >= 1
    ensures IsCalendarDate(r) && Ordinal(r) == Ordinal(d) + n
    decreases if n >= 0 then n else -n
  {
    if n == 0 then d
    else if n > 0 then AddDays(NextDay(d), n - 1)
    else AddDays(PrevDay(d), n + 1)
  }

  /** Adding days agrees with Python's ordinal arithmetic: the result is the unique day with the shifted ordinal. */
  lemma AddDaysUnique(d: Date, n: int, e: Date)
    requires IsCalendarDate(d) && Ordinal(d) + n >= 1
    requires IsCalendarDate(e) && Ordinal(e) == Ordinal(d) + n
    ensures AddDays(d, n) == e
  {
    OrdinalInjective(AddDays(d, n), e);
  }

  // ---------------------------------------------------------------------
  // Text form YYYY-MM-DD.
  // ---------------------------------------------------------------------

  predicate IsDigit(c: char)
  {
    '0' <= c <= '9'
  }

  function DigitChar(n: int): (c: char)
    requires 0 <= n <= 9
    ensures IsDigit(c)
  {
    ('0' as int + n) as char
  }

  function DigitValue(c: char): int
    requires IsDigit(c)
  {
    c as int - '0' as int
  }

  predicate AllDigits(s: string)
  {
    forall i :: 0 <= i < |s| ==> IsDigit(s[i])
  }

  /** The decimal value of a digit string. */
  function Number(s: string): (n: int)
    requires AllDigits(s)
    ensures n >= 0
  {
    if s == [] then 0 else 10 * Number(s[..|s| - 1]) + DigitValue(s[|s| - 1])
  }

  /** `n` as exactly `width` decimal digits, with leading zeros. */
  function Pad(n: int, width: nat): (s: string)
    requires 0 <= n
    ensures |s| == width && AllDigits(s)
  {
    if width == 0 then [] else Pad(n / 10, width - 1) + [DigitChar(n % 10)]
  }

  function Power10(k: nat): (p: int)
    ensures p >= 1
  {
    if k == 0 then 1 else 10 * Power10(k - 1)
  }

  /** Padding to enough digits is read back as the same number. */
  lemma {:induction false} NumberPad(n: int, width: nat)
    requires 0 <= n < Power10(width)
    ensures Number(Pad(n, width)) == n
  {
    if width > 0 {
      NumberPad(n / 10, width - 1);
      var s := Pad(n, width);
      assert s[..|s| - 1] == Pad(n / 10, width - 1);
    }
  }

  /** A digit string is the padding of its own value. */
  lemma {:induction false} PadNumber(s: string)
    requires AllDigits(s)
    ensures Number(s) < Power10(|s|)
    ensures Pad(Number(s), |s|) == s
  {
    if s != [] {
      var init := s[..|s| - 1];
      PadNumber(init);
      var n := Number(s);
      var last := DigitValue(s[|s| - 1]);
      assert n == 10 * Number(init) + last && 0 <= last <= 9;
      assert n / 10 == Number(init) && n % 10 == last;
      assert DigitChar(last) == s[|s| - 1];
      assert Pad(n, |s|) == Pad(Number(init), |init|) + [DigitChar(last)];
      assert init + [s[|s| - 1]] == s;
    }
  }

  predicate Formattable(d: Date)
  {
    0 <= d.year <= 9999 && 0 <= d.month <= 99 && 0 <= d.day <= 99
  }

  /** `strftime("%Y-%m-%d")` with four year digits. */
  function FormatDate(d: Date): (s: string)
    requires Formattable(d)
    ensures |s| == 10 && s[4] == '-' && s[7] == '-'
  {
    Pad(d.year, 4) + "-" + Pad(d.month, 2) + "-" + Pad(d.day, 2)
  }

  /** Ten characters: four digits, a dash, two digits, a dash, two digits. */
  predicate IsDateShaped(s: string)
  {
    |s| == 10 && s[4] == '-' && s[7] == '-'
    && AllDigits(s[..4]) && AllDigits(s[5..7]) && AllDigits(s[8..])
  }

  /** `parse_date`: the day a `YYYY-MM-DD` string names, or nothing when it names none. */
  function ParseDate(s: string): Option<Date>
  {
    if !IsDateShaped(s) then None
    else
      var d := Date(Number(s[..4]), Number(s[5..7]), Number(s[8..]));
      if InRange(d) then Some(d) else None
  }

  lemma FormatShape(d: Date)
    requires Formattable(d)
    ensures IsDateShaped(FormatDate(d))
    ensures FormatDate(d)[..4] == Pad(d.year, 4)
    ensures FormatDate(d)[5..7] == Pad(d.month, 2)
    ensures FormatDate(d)[8..] == Pad(d.day, 2)
  {
    var s := FormatDate(d);
    assert s[..4] == Pad(d.year, 4);
    assert s[5..7] == Pad(d.month, 2);
    assert s[8..] == Pad(d.day, 2);
  }

  /** Every day a Python date can hold is written so that `parse_date` reads it back. */
  lemma ParseFormat(d: Date)
    requires InRange(d)
    ensures ParseDate(FormatDate(d)) == Some(d)
  {
    FormatShape(d);
    NumberPad(d.year, 4);
    NumberPad(d.month, 2);
    NumberPad(d.day, 2);
  }

  /** `parse_date` only accepts the written form of a day a Python date can hold. */
  lemma ParseSound(s: string, d: Date)
    requires ParseDate(s) == Some(d)
    ensures InRange(d) && FormatDate(d) == s
  {
    PadNumber(s[..4]);
    PadNumber(s[5..7]);
    PadNumber(s[8..]);
    FormatShape(d);
    assert s == s[..4] + "-" + s[5..7] + "-" + s[8..];
  }

  /** `parse_date` succeeds exactly on the written forms of valid days (so 29 February only in leap years). */
  lemma ParseDateExact(s: string)
    ensures ParseDate(s).Some? <==> exists d :: InRange(d) && FormatDate(d) == s
  {
    if ParseDate(s).Some? {
      ParseSound(s, ParseDate(s).value);
    }
    if d :| InRange(d) && FormatDate(d) == s {
      ParseFormat(d);
    }
  }
}
