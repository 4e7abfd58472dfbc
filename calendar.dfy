/**
 * Calendar dates as integer day numbers (day 0 is 1970-01-01), with the
 * proleptic Gregorian conversion that gives a day number its year, month
 * and day of month. `addDays`/`subDays` of date-fns become integer
 * addition on day numbers; `getDate()` and `getMonth()` become
 * `DayOfMonth` and `MonthIndex`.
 */
module Calendar {

  /** A civil date: `month` is 1..12 and `day` is 1..31. */
  datatype Civil = Civil(year: int, month: int, day: int)

  /** Days from 0000-03-01 to 1970-01-01. */
  const EpochShift: int := 719468
  /** Days in a 400-year Gregorian cycle. */
  const DaysPerEra: int := 146097

  predicate IsLeapYear(y: int) {
    y % 4 == 0 && (y % 100 != 0 || y % 400 == 0)
  }

  function DaysInMonth(y: int, m: int): (n: int)
    requires 1 <= m <= 12
    ensures 28 <= n <= 31
  {
    if m == 2 then (if IsLeapYear(y) then 29 else 28)
    else if m == 4 || m == 6 || m == 9 || m == 11 then 30
    else 31
  }

  /**
   * The day number of a civil date. Years are counted from March so that
   * the leap day is the last day of its year; the month offset
   * `(153 * mp + 2) / 5` is the number of days from March 1 to the first
   * day of the month `mp` months after March.
   */
  function DaysFromCivil(y: int, m: int, d: int): int
    requires 1 <= m <= 12
  {
    var y' := if m <= 2 then y - 1 else y;
    var era := y' / 400;
    var yoe := y' % 400;
    var mp := if m > 2 then m - 3 else m + 9;
    var doy := (153 * mp + 2) / 5 + d - 1;
    var doe := 365 * yoe + yoe / 4 - yoe / 100 + doy;
    era * DaysPerEra + doe - EpochShift
  }

  /**
   * A day number split into the parts of the Gregorian cycle, counted from
   * 0000-03-01: 400-year eras, centuries within the era (the last one a day
   * longer), 4-year groups within the century (the last one of a short
   * century a day shorter), years within the group (the last one a day
   * longer) and the day within the March-based year.
   */
  datatype CycleParts = CycleParts(era: int, century: int, quad: int, year: int, dayOfYear: int)

  function SplitDays(z: int): (p: CycleParts)
    ensures 0 <= p.century <= 3 && 0 <= p.quad <= 24 && 0 <= p.year <= 3 && 0 <= p.dayOfYear <= 365
    ensures z + EpochShift == p.era * DaysPerEra + 36524 * p.century + 1461 * p.quad + 365 * p.year + p.dayOfYear
    ensures p.dayOfYear == 365 ==> p.year == 3 && (p.quad < 24 || p.century == 3)
  {
    var shifted := z + EpochShift;
    var doe := shifted % DaysPerEra;
    var century := if doe / 36524 < 3 then doe / 36524 else 3;
    var doc := doe - 36524 * century;
    var doq := doc % 1461;
    var year := if doq / 365 < 3 then doq / 365 else 3;
    CycleParts(shifted / DaysPerEra, century, doc / 1461, year, doq - 365 * year)
  }

  /**
   * The civil date of a day number: the day of the March-based year is
   * split into a month and a day, and January and February belong to the
   * next calendar year.
   */
  function CivilFromDays(z: int): (c: Civil)
    ensures 1 <= c.month <= 12 && 1 <= c.day <= DaysInMonth(c.year, c.month)
  {
    var p := SplitDays(z);
    var mp := (5 * p.dayOfYear + 2) / 153;
    var d := p.dayOfYear - (153 * mp + 2) / 5 + 1;
    var m := if mp < 10 then mp + 3 else mp - 9;
    var y := p.era * 400 + 100 * p.century + 4 * p.quad + p.year;
    MonthOfYearDay(p.dayOfYear);
    LeapDayYear(p.era, p.century, p.quad);
    Civil(if m <= 2 then y + 1 else y, m, d)
  }

  /** `Date.prototype.getDate()`: the day of the month, 1..31. */
  function DayOfMonth(z: int): (d: int)
    ensures 1 <= d <= 31
  {
    CivilFromDays(z).day
  }

  /** `Date.prototype.getMonth()`: the zero-based month, 0..11. */
  function MonthIndex(z: int): (m: int)
    ensures 0 <= m <= 11
  {
    CivilFromDays(z).month - 1
  }

  lemma YearOfEraTerms(century: int, quad: int, yiq: int)
    requires 0 <= century <= 3 && 0 <= quad <= 24 && 0 <= yiq <= 3
    ensures var yoe := 100 * century + 4 * quad + yiq;
      0 <= yoe < 400 && 365 * yoe + yoe / 4 - yoe / 100 == 36524 * century + 1461 * quad + 365 * yiq
  {
    var yoe := 100 * century + 4 * quad + yiq;
    assert yoe / 4 == 25 * century + quad;
    assert yoe / 100 == century;
  }

  /** The month and day of a day of the March-based year. */
  lemma MonthOfYearDay(doy: int)
    requires 0 <= doy <= 365
    ensures var mp := (5 * doy + 2) / 153;
      var d := doy - (153 * mp + 2) / 5 + 1;
      var m := if mp < 10 then mp + 3 else mp - 9;
      && (if m > 2 then m - 3 else m + 9) == mp && (153 * mp + 2) / 5 + d - 1 == doy
      && 1 <= m <= 12 && 1 <= d
      && (m != 2 ==> d <= DaysInMonth(0, m))
      && (m == 2 ==> d <= 28 || (d == 29 && doy == 365))
  {
    var mp := (5 * doy + 2) / 153;
    assert 0 <= mp <= 11;
    if mp == 0 { assert doy < 31; }
    else if mp == 1 { assert 31 <= doy < 61; }
    else if mp == 2 { assert 61 <= doy < 92; }
    else if mp == 3 { assert 92 <= doy < 122; }
    else if mp == 4 { assert 122 <= doy < 153; }
    else if mp == 5 { assert 153 <= doy < 184; }
    else if mp == 6 { assert 184 <= doy < 214; }
    else if mp == 7 { assert 214 <= doy < 245; }
    else if mp == 8 { assert 245 <= doy < 275; }
    else if mp == 9 { assert 275 <= doy < 306; }
    else if mp == 10 { assert 306 <= doy < 337; }
    else { assert 337 <= doy; }
  }

  /** Whole eras do not change a year's remainders by 4, 100 and 400. */
  lemma EraMod4(era: int, n: int)
    ensures (era * 400 + n) % 4 == n % 4
  {
    assert era * 400 + n == 4 * (era * 100 + n / 4) + n % 4;
  }

  lemma EraMod100(era: int, n: int)
    ensures (era * 400 + n) % 100 == n % 100
  {
    assert era * 400 + n == 100 * (era * 4 + n / 100) + n % 100;
  }

  lemma EraMod400(era: int, n: int)
    ensures (era * 400 + n) % 400 == n % 400
  {
    assert era * 400 + n == 400 * (era + n / 400) + n % 400;
  }

  /** Leap years repeat every 400 years. */
  lemma LeapYearShift(era: int, n: int)
    ensures IsLeapYear(era * 400 + n) == IsLeapYear(n)
  {
    EraMod4(era, n);
    EraMod100(era, n);
    EraMod400(era, n);
  }

  /** The year a leap day's March-based year ends in is a leap year. */
  lemma LeapDayYear(era: int, century: int, quad: int)
    requires 0 <= century <= 3 && 0 <= quad <= 24
    ensures quad < 24 || century == 3 ==> IsLeapYear(era * 400 + 100 * century + 4 * quad + 4)
  {
    var n := 100 * century + 4 * quad + 4;
    LeapYearShift(era, n);
    assert n % 4 == 0 by {
      assert n == 4 * (25 * century + quad + 1);
    }
    if quad < 24 {
      assert n % 100 == 4 * quad + 4 by {
        assert n == 100 * century + (4 * quad + 4);
      }
    } else if century == 3 {
      assert n == 400;
    }
  }

  lemma YearSplit(era: int, yoe: int)
    requires 0 <= yoe < 400
    ensures (era * 400 + yoe) / 400 == era && (era * 400 + yoe) % 400 == yoe
  {
  }

  /** The day number of a civil date given its era, year of era and day of the March-based year. */
  lemma DaysFromMarchDate(y: int, m: int, d: int, era: int, yoe: int, mp: int, doy: int)
    requires 1 <= m <= 12 && 0 <= yoe < 400
    requires (if m <= 2 then y - 1 else y) == era * 400 + yoe
    requires (if m > 2 then m - 3 else m + 9) == mp && (153 * mp + 2) / 5 + d - 1 == doy
    ensures DaysFromCivil(y, m, d) == era * DaysPerEra + 365 * yoe + yoe / 4 - yoe / 100 + doy - EpochShift
  {
    YearSplit(era, yoe);
  }

  /** Every day number is the day number of its own civil date. */
  lemma CivilRoundTrip(z: int)
    ensures var c := CivilFromDays(z); DaysFromCivil(c.year, c.month, c.day) == z
  {
    var p := SplitDays(z);
    var c := CivilFromDays(z);
    var yoe := 100 * p.century + 4 * p.quad + p.year;
    var mp := (5 * p.dayOfYear + 2) / 153;
    assert (if c.month > 2 then c.month - 3 else c.month + 9) == mp
      && (153 * mp + 2) / 5 + c.day - 1 == p.dayOfYear
      && (if c.month <= 2 then c.year - 1 else c.year) == p.era * 400 + yoe by {
      MonthOfYearDay(p.dayOfYear);
    }
    YearOfEraTerms(p.century, p.quad, p.year);
    DaysFromMarchDate(c.year, c.month, c.day, p.era, yoe, mp, p.dayOfYear);
  }

  /** The parts of a Gregorian cycle are determined by the day number. */
  lemma SplitDaysUnique(z: int, p: CycleParts)
    requires 0 <= p.century <= 3 && 0 <= p.quad <= 24 && 0 <= p.year <= 3 && 0 <= p.dayOfYear <= 365
    requires p.dayOfYear == 365 ==> p.year == 3 && (p.quad < 24 || p.century == 3)
    requires z + EpochShift == p.era * DaysPerEra + 36524 * p.century + 1461 * p.quad + 365 * p.year + p.dayOfYear
    ensures SplitDays(z) == p
  {
    var doq := 365 * p.year + p.dayOfYear;
    assert 0 <= doq < 1461;
    var doc := 1461 * p.quad + doq;
    assert doc < 36524 || (p.century == 3 && doc == 36524);
    var doe := 36524 * p.century + doc;
    assert 0 <= doe < DaysPerEra;
    assert (z + EpochShift) / DaysPerEra == p.era && (z + EpochShift) % DaysPerEra == doe;
    assert doe / 36524 == p.century || (p.century == 3 && doe / 36524 == 4);
    assert doc / 1461 == p.quad && doc % 1461 == doq;
    assert doq / 365 == p.year || (p.year == 3 && doq / 365 == 4);
  }

  /** The day of the March-based year of a valid date is mapped back to that month and day. */
  lemma YearDayOfMonth(mp: int, d: int, leap: bool)
    requires 0 <= mp <= 11 && 1 <= d
    requires mp < 11 ==> d <= DaysInMonth(0, if mp < 10 then mp + 3 else mp - 9)
    requires mp == 11 ==> d <= 28 || (leap && d == 29)
    ensures var doy := (153 * mp + 2) / 5 + d - 1;
      0 <= doy <= 365 && (doy == 365 ==> mp == 11 && d == 29) && (5 * doy + 2) / 153 == mp
  {
  }

  /** The cycle parts of a civil date, computed from its March-based year, month and day. */
  function CivilParts(y: int, m: int, d: int): (p: CycleParts)
    requires 1 <= m <= 12
    ensures 0 <= p.century <= 3 && 0 <= p.quad <= 24 && 0 <= p.year <= 3
    ensures p.era * 400 + 100 * p.century + 4 * p.quad + p.year == (if m <= 2 then y - 1 else y)
  {
    var y' := if m <= 2 then y - 1 else y;
    var yoe := y' % 400;
    CycleParts(y' / 400, yoe / 100, yoe % 100 / 4, yoe % 4, (153 * (if m > 2 then m - 3 else m + 9) + 2) / 5 + d - 1)
  }

  /** Splitting the day number of a valid civil date gives back its cycle parts. */
  lemma CivilPartsSplit(y: int, m: int, d: int)
    requires 1 <= m <= 12 && 1 <= d <= DaysInMonth(y, m)
    ensures SplitDays(DaysFromCivil(y, m, d)) == CivilParts(y, m, d)
  {
    var y' := if m <= 2 then y - 1 else y;
    var mp := if m > 2 then m - 3 else m + 9;
    var p := CivilParts(y, m, d);
    var yoe := 100 * p.century + 4 * p.quad + p.year;
    assert yoe == y' % 400 && p.era == y' / 400;
    YearDayOfMonth(mp, d, IsLeapYear(y));
    YearOfEraTerms(p.century, p.quad, p.year);
    if p.dayOfYear == 365 {
      assert IsLeapYear(p.era * 400 + yoe + 1);
      LeapYearOfEra(p.era, yoe);
    }
    SplitDaysUnique(DaysFromCivil(y, m, d), p);
  }

  /** A day number whose cycle parts are those of a valid civil date is that date's day number. */
  lemma CivilOfParts(z: int, y: int, m: int, d: int)
    requires 1 <= m <= 12 && 1 <= d <= DaysInMonth(y, m)
    requires SplitDays(z) == CivilParts(y, m, d)
    ensures CivilFromDays(z) == Civil(y, m, d)
  {
    var mp := if m > 2 then m - 3 else m + 9;
    var doy := SplitDays(z).dayOfYear;
    YearDayOfMonth(mp, d, IsLeapYear(y));
    assert (5 * doy + 2) / 153 == mp;
    MonthOfYearDay(doy);
  }

  /** Every valid civil date is the civil date of its own day number. */
  lemma DaysRoundTrip(y: int, m: int, d: int)
    requires 1 <= m <= 12 && 1 <= d <= DaysInMonth(y, m)
    ensures CivilFromDays(DaysFromCivil(y, m, d)) == Civil(y, m, d)
  {
    CivilPartsSplit(y, m, d);
    CivilOfParts(DaysFromCivil(y, m, d), y, m, d);
  }

  /** The year after year-of-era `yoe` is leap only if `yoe` ends a 4-year group that is not a short century's last. */
  lemma LeapYearOfEra(era: int, yoe: int)
    requires 0 <= yoe < 400 && IsLeapYear(era * 400 + yoe + 1)
    ensures yoe % 4 == 3 && (yoe % 100 / 4 < 24 || yoe / 100 == 3)
  {
    LeapYearShift(era, yoe + 1);
    assert IsLeapYear(yoe + 1);
    var c := yoe / 100;
    var r := yoe % 100;
    assert yoe == 100 * c + r && 0 <= r < 100 && 0 <= c <= 3;
    assert (yoe + 1) % 4 == 0;
    assert r % 4 == 3 by {
      assert yoe + 1 == 4 * (25 * c) + (r + 1);
    }
    assert r == 99 ==> (yoe + 1) % 100 == 0 && (yoe + 1) / 100 == c + 1;
  }

  /** Days from 0000-03-01 to the first of March of year `y`. */
  function MarchYearStart(y: int): int {
    y / 400 * DaysPerEra + 365 * (y % 400) + y % 400 / 4 - y % 400 / 100
  }

  /** The March-based year `y` has 366 days exactly when `y + 1` is a leap year. */
  lemma MarchYearLength(y: int)
    ensures MarchYearStart(y + 1) - MarchYearStart(y) == if IsLeapYear(y + 1) then 366 else 365
  {
    var era := y / 400;
    var yoe := y % 400;
    LeapYearShift(era, yoe + 1);
    if yoe < 399 {
      assert (y + 1) / 400 == era && (y + 1) % 400 == yoe + 1;
      var n := yoe + 1;
      assert n % 4 == 0 <==> n / 4 == yoe / 4 + 1;
      assert n % 100 == 0 <==> n / 100 == yoe / 100 + 1;
      assert n % 100 == 0 ==> n % 4 == 0;
    } else {
      assert (y + 1) / 400 == era + 1 && (y + 1) % 400 == 0;
    }
  }

  /** Inside a month, the next day of the month has the next day number. */
  lemma NextDayInMonth(y: int, m: int, d: int)
    requires 1 <= m <= 12 && 1 <= d < DaysInMonth(y, m)
    ensures DaysFromCivil(y, m, d + 1) == DaysFromCivil(y, m, d) + 1
  {
  }

  /** The first day of the next month has the day number after the last day of the month. */
  lemma NextDayAcrossMonth(y: int, m: int)
    requires 1 <= m <= 12
    ensures var y2 := if m == 12 then y + 1 else y;
      var m2 := if m == 12 then 1 else m + 1;
      DaysFromCivil(y2, m2, 1) == DaysFromCivil(y, m, DaysInMonth(y, m)) + 1
  {
    if m == 2 {
      MarchYearLength(y - 1);
      assert DaysFromCivil(y, 3, 1) == MarchYearStart(y) - EpochShift;
      assert DaysFromCivil(y, 2, DaysInMonth(y, 2)) == MarchYearStart(y - 1) + 336 + DaysInMonth(y, 2) - EpochShift;
    }
  }
}
