/**
 * Row-level feature derivation shared by the two training scripts and the
 * inference tab: the hour-normalised amount, the weekend flag and the age.
 */
module Features {

  /** An hour of the day: `Timestamp.hour` in training, the 0..23 slider at inference. */
  type Hour = h: int | 0 <= h <= 23

  /** A day of the week as pandas numbers it: Monday is 0, Sunday is 6. */
  type DayOfWeek = d: int | 0 <= d <= 6

  /**
   * `amt / (hour + 1)`: the divisor is in 1..24, so the quotient is defined
   * for every hour, and it is the amount spread over the hours elapsed.
   */
  function AmtPerHourRatio(amt: real, hour: Hour): (r: real)
    ensures r * (hour as real + 1.0) == amt
    ensures amt > 0.0 ==> 0.0 < r <= amt
    ensures amt > 0.0 && hour > 0 ==> r < amt
  {
    amt / (hour as real + 1.0)
  }

  /** For a fixed positive amount the ratio strictly falls as the hour grows. */
  lemma RatioFallsWithHour(amt: real, h1: Hour, h2: Hour)
    requires amt > 0.0 && h1 < h2
    ensures AmtPerHourRatio(amt, h2) < AmtPerHourRatio(amt, h1)
  {
    var d1, d2 := h1 as real + 1.0, h2 as real + 1.0;
    var r1, r2 := amt / d1, amt / d2;
    assert 1.0 <= d1 < d2;
    assert r1 * d1 == amt && r2 * d2 == amt;
    assert r1 > 0.0;
    assert r1 * d2 > r1 * d1;
    assert r2 * d2 < r1 * d2;
  }

  /** A positive amount spread over at most 24 hours keeps at least a 24th of itself. */
  lemma RatioBounds(amt: real, hour: Hour)
    requires amt > 0.0
    ensures amt / 24.0 <= AmtPerHourRatio(amt, hour) <= amt
  {
    var d := hour as real + 1.0;
    var r := AmtPerHourRatio(amt, hour);
    assert r * d == amt && r > 0.0;
    assert d <= 24.0;
    assert r * d <= r * 24.0;
  }

  /** `dayofweek.isin([5, 6]).astype(int)`: 1 on Saturday and Sunday, 0 otherwise. */
  function IsWeekend(day: DayOfWeek): (w: int)
    ensures w == 0 || w == 1
    ensures w == 1 <==> day == 5 || day == 6
  {
    if day in {5, 6} then 1 else 0
  }

  /** `current_year - dob.year`: the age in whole calendar years, birthdays ignored. */
  function AgeInYears(currentYear: int, birthYear: int): (a: int)
    ensures birthYear + a == currentYear
    ensures birthYear <= currentYear ==> a >= 0
  {
    currentYear - birthYear
  }
}
