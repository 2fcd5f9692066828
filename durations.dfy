/**
 * Work durations.  A span of milliseconds is stored as hours rounded to two
 * decimals (`parseFloat((ms / 3600000).toFixed(2))`); here that is the
 * integer number of hundredths of an hour, 36000 ms each.
 */
module Durations {

  const MsPerHundredth := 36000

  /**
   * `toFixed(2)` picks the nearest hundredth and, on a tie, the one further
   * from zero; negative spans are rounded as the mirror image of positive ones.
   */
  function HoursHundredths(ms: int): (h: int)
    ensures ms >= 0 ==> 0 <= h && MsPerHundredth * h - 18000 <= ms < MsPerHundredth * h + 18000
    ensures ms < 0 ==> h <= 0 && MsPerHundredth * h - 18000 < ms <= MsPerHundredth * h + 18000
  {
    if ms >= 0 then (ms + 18000) / MsPerHundredth
    else -((-ms + 18000) / MsPerHundredth)
  }

  /** Rounding is symmetric about zero. */
  lemma HoursHundredthsOdd(ms: int)
    ensures HoursHundredths(-ms) == -HoursHundredths(ms)
  {
  }

  /** Rounding never decreases as the span grows. */
  lemma HoursHundredthsMonotone(a: int, b: int)
    requires a <= b
    ensures HoursHundredths(a) <= HoursHundredths(b)
  {
  }

  /** Whole hours are stored exactly: 8h55m is 8.92 and 9h is 9.00. */
  lemma ExampleDurations()
    ensures HoursHundredths(32100000) == 892
    ensures HoursHundredths(9 * 3600000) == 900
    ensures HoursHundredths(-3600000) == -100
  {
  }
}
