/**
 * The uptime line of the `cdr mysql status` command: the seconds since the
 * last successful connect, split into years, days, hours, minutes and
 * seconds.  The largest unit shown is chosen by strict `>` thresholds.
 */
module Uptime {

  const SecondsPerMinute := 60
  const SecondsPerHour := 3600
  const SecondsPerDay := 86400
  const SecondsPerYear := 31536000  // 365 days; leap years are ignored

  /** What the status line prints, one constructor per branch of the source. */
  datatype Uptime =
    | Years(years: int, days: int, hours: int, minutes: int, seconds: int)
    | Days(days: int, hours: int, minutes: int, seconds: int)
    | Hours(hours: int, minutes: int, seconds: int)
    | Minutes(minutes: int, seconds: int)
    | Seconds(seconds: int)

  /**
   * Split `ctime` seconds.  Every branch that divides has `ctime > 60`, so
   * Dafny's Euclidean `/` and `%` agree with C's truncating operators there;
   * the last branch prints `ctime` as it is, negative values included (a
   * clock that went backwards).
   */
  function Breakdown(ctime: int): (u: Uptime)
    ensures u.Years? <==> ctime > SecondsPerYear
    ensures u.Days? <==> SecondsPerDay < ctime <= SecondsPerYear
    ensures u.Hours? <==> SecondsPerHour < ctime <= SecondsPerDay
    ensures u.Minutes? <==> SecondsPerMinute < ctime <= SecondsPerHour
    ensures u.Seconds? <==> ctime <= SecondsPerMinute
    ensures u.Seconds? ==> u.seconds == ctime
  {
    if ctime > SecondsPerYear then
      Years(ctime / SecondsPerYear, (ctime % SecondsPerYear) / SecondsPerDay,
            (ctime % SecondsPerDay) / SecondsPerHour, (ctime % SecondsPerHour) / SecondsPerMinute,
            ctime % SecondsPerMinute)
    else if ctime > SecondsPerDay then
      Days(ctime / SecondsPerDay, (ctime % SecondsPerDay) / SecondsPerHour,
           (ctime % SecondsPerHour) / SecondsPerMinute, ctime % SecondsPerMinute)
    else if ctime > SecondsPerHour then
      Hours(ctime / SecondsPerHour, (ctime % SecondsPerHour) / SecondsPerMinute, ctime % SecondsPerMinute)
    else if ctime > SecondsPerMinute then
      Minutes(ctime / SecondsPerMinute, ctime % SecondsPerMinute)
    else
      Seconds(ctime)
  }

  /** The number of seconds an uptime line stands for. */
  function Total(u: Uptime): int {
    match u
    case Years(y, d, h, m, s) =>
      y * SecondsPerYear + d * SecondsPerDay + h * SecondsPerHour + m * SecondsPerMinute + s
    case Days(d, h, m, s) => d * SecondsPerDay + h * SecondsPerHour + m * SecondsPerMinute + s
    case Hours(h, m, s) => h * SecondsPerHour + m * SecondsPerMinute + s
    case Minutes(m, s) => m * SecondsPerMinute + s
    case Seconds(s) => s
  }

  /**
   * Every unit below the leading one is in its natural range, and the
   * leading one is positive.  The leading unit can reach the next unit's
   * size exactly, since the thresholds are strict (`ctime == 86400` prints
   * 24 hours).
   */
  predicate WellFormed(u: Uptime) {
    match u
    case Years(y, d, h, m, s) => y >= 1 && 0 <= d < 365 && 0 <= h < 24 && 0 <= m < 60 && 0 <= s < 60
    case Days(d, h, m, s) => 1 <= d <= 365 && 0 <= h < 24 && 0 <= m < 60 && 0 <= s < 60
    case Hours(h, m, s) => 1 <= h <= 24 && 0 <= m < 60 && 0 <= s < 60
    case Minutes(m, s) => 1 <= m <= 60 && 0 <= s < 60
    case Seconds(s) => s <= 60
  }

  /** A day divides a year, so reducing modulo a year keeps the remainder modulo a day. */
  lemma YearRemainderByDay(x: int)
    ensures (x % SecondsPerYear) % SecondsPerDay == x % SecondsPerDay
  {
    var q := x / SecondsPerYear;
    assert x == q * 365 * SecondsPerDay + x % SecondsPerYear;
  }

  /** An hour divides a day. */
  lemma DayRemainderByHour(x: int)
    ensures (x % SecondsPerDay) % SecondsPerHour == x % SecondsPerHour
  {
    var q := x / SecondsPerDay;
    assert x == q * 24 * SecondsPerHour + x % SecondsPerDay;
  }

  /** A minute divides an hour. */
  lemma HourRemainderByMinute(x: int)
    ensures (x % SecondsPerHour) % SecondsPerMinute == x % SecondsPerMinute
  {
    var q := x / SecondsPerHour;
    assert x == q * 60 * SecondsPerMinute + x % SecondsPerHour;
  }

  /**
   * The breakdown is exact: the printed units recombine to `ctime`, and
   * each is in its range.
   */
  lemma BreakdownRecombines(ctime: int)
    ensures Total(Breakdown(ctime)) == ctime
    ensures WellFormed(Breakdown(ctime))
  {
    YearRemainderByDay(ctime);
    DayRemainderByHour(ctime);
    HourRemainderByMinute(ctime);
  }
}
