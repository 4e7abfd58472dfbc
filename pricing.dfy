/**
 * The price simulator `generatePrice`: a deterministic price for a base
 * price, a variance and a date, in integer thousandths of a dollar.
 */
module Pricing {
  import opened Calendar

  /**
   * The term `Math.sin(day * month * 0.5) * variance`, rounded to
   * thousandths, as a function of `k = day * month` and the variance. The
   * model does not compute the sine; it only knows that the sine lies in
   * [-1, 1], so the term is bounded by the variance, and that sin(0) = 0.
   */
  type SineOffset = f: (nat, nat) -> int
    | forall k: nat, v: nat :: -(v as int) <= f(k, v) <= v && (k == 0 ==> f(k, v) == 0)
    witness (k: nat, v: nat) => 0

  /** `(day % 10) * 0.002`, in thousandths. */
  function TrendOffset(day: int): (t: int)
    requires day >= 1
    ensures 0 <= t <= 18 && t % 2 == 0
    ensures t == 0 <==> day % 10 == 0
  {
    2 * (day % 10)
  }

  /**
   * `generatePrice(base, variance, date)`: the base price plus the sine
   * term plus the trend term, reading only the day of the month and the
   * zero-based month of the date.
   */
  function GeneratePrice(sine: SineOffset, base: int, variance: nat, date: int): (p: int)
    ensures base - variance <= p - TrendOffset(DayOfMonth(date)) <= base + variance
    ensures base - variance <= p <= base + variance + 18
    ensures MonthIndex(date) == 0 ==> p == base + TrendOffset(DayOfMonth(date))
  {
    var day := DayOfMonth(date);
    var month := MonthIndex(date);
    base + sine(day * month, variance) + TrendOffset(day)
  }

  /** Two dates with the same day of month and month get the same price. */
  lemma PriceDependsOnlyOnDayAndMonth(sine: SineOffset, base: int, variance: nat, d1: int, d2: int)
    requires DayOfMonth(d1) == DayOfMonth(d2) && MonthIndex(d1) == MonthIndex(d2)
    ensures GeneratePrice(sine, base, variance, d1) == GeneratePrice(sine, base, variance, d2)
  {
  }

  /** With no variance the price is the base price plus the trend term, whatever the month. */
  lemma NoVarianceNoNoise(sine: SineOffset, base: int, date: int)
    ensures GeneratePrice(sine, base, 0, date) == base + TrendOffset(DayOfMonth(date))
  {
  }

  /**
   * 2024-03-15: day 15 of month 2, so k = 30 and the trend term is 10;
   * with round(sin(15) * 0.15 * 1000) = 98 the price of Unleaded 91
   * (1.95, 0.15) is 2.058.
   */
  lemma ScenarioMarch15(sine: SineOffset)
    requires sine(30, 150) == 98
    ensures GeneratePrice(sine, 1950, 150, DaysFromCivil(2024, 3, 15)) == 2058
  {
    DaysRoundTrip(2024, 3, 15);
  }
}
