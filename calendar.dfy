/**
 * Calendar dates as UTC day numbers. The records store ISO 8601 calendar
 * dates (`YYYY-MM-DD`), which `new Date(...)` reads as UTC midnight, so a date
 * is the whole number of days since 1970-01-01 and "`n` days later" is `+ n`.
 */
module Calendar {

  /** Milliseconds in a day: `1000 * 60 * 60 * 24`. */
  const DayMs: int := 86_400_000

  /** The largest distance from the epoch a JavaScript `Date` can hold, in milliseconds (10^8 days). */
  const MaxTimeMs: int := 8_640_000_000_000_000

  /** A time value a `Date` can hold; outside it the date is invalid and `toISOString` throws. */
  predicate IsTimeValue(ms: int) {
    -MaxTimeMs <= ms <= MaxTimeMs
  }

  /** The UTC day an instant falls on: the date part of its `toISOString()`. */
  function DayOf(ms: int): int {
    ms / DayMs
  }

  /** Moving an instant by whole days moves its UTC day by the same number of days. */
  lemma DayOfShift(ms: int, k: int)
    ensures DayOf(ms + k * DayMs) == DayOf(ms) + k
  {
    var q, r := ms / DayMs, ms % DayMs;
    assert ms == q * DayMs + r && 0 <= r < DayMs;
    assert ms + k * DayMs == (q + k) * DayMs + r;
  }

  predicate IsLeapYear(y: int) {
    y % 4 == 0 && (y % 100 != 0 || y % 400 == 0)
  }

  function DaysInMonth(y: int, m: int): (n: int)
    requires 1 <= m <= 12
    ensures 28 <= n <= 31
  {
    if m == 2 then (if IsLeapYear(y) then 29 else 28)
    else if m in {4, 6, 9, 11} then 30
    else 31
  }

  /**
   * Days from 0000-03-01 to `yy`-03-01: whole 400-year eras of 146097 days,
   * then 365 days a year plus one for each leap day passed within the era.
   */
  function MarchFirst(yy: int): int {
    var era := yy / 400;
    var yoe := yy % 400;
    era * 146097 + yoe * 365 + yoe / 4 - yoe / 100
  }

  /**
   * The day number of the proleptic Gregorian date `y-m-d` (1970-01-01 is day 0).
   * Years are counted from March so that a leap day falls at the end of one.
   */
  function DayNumber(y: int, m: int, d: int): int
    requires 1 <= m <= 12
  {
    var yy := if m <= 2 then y - 1 else y;
    var mp := if m > 2 then m - 3 else m + 9;
    MarchFirst(yy) + (153 * mp + 2) / 5 + d - 1 - 719468
  }

  /** The epoch itself. */
  lemma EpochIsDayZero()
    ensures DayNumber(1970, 1, 1) == 0
  {
  }

  /** The last day of a month and the first day of the next one are consecutive days. */
  lemma MonthRollover(y: int, m: int)
    requires 1 <= m < 12
    ensures DayNumber(y, m + 1, 1) == DayNumber(y, m, DaysInMonth(y, m)) + 1
  {
    if m == 2 {
      MarchToMarch(y - 1);
    }
  }

  /** 31 December and the next 1 January are consecutive days. */
  lemma YearRollover(y: int)
    ensures DayNumber(y + 1, 1, 1) == DayNumber(y, 12, 31) + 1
  {
  }

  /** A March-to-March year has 366 days exactly when it ends in a leap February. */
  lemma MarchToMarch(yy: int)
    ensures MarchFirst(yy + 1) == MarchFirst(yy) + (if IsLeapYear(yy + 1) then 366 else 365)
  {
    var r := yy % 400;
    LeapYearInEra(yy + 1);
    if r == 399 {
      NextEra(yy);
    } else {
      SameEra(yy);
      YearOfEraStep(r);
    }
  }

  /** The year after the last of a 400-year era opens the next era. */
  lemma NextEra(yy: int)
    requires yy % 400 == 399
    ensures (yy + 1) / 400 == yy / 400 + 1 && (yy + 1) % 400 == 0
  {
  }

  /** Any other year is followed by the next year of the same era. */
  lemma SameEra(yy: int)
    requires yy % 400 != 399
    ensures (yy + 1) / 400 == yy / 400 && (yy + 1) % 400 == yy % 400 + 1
  {
  }

  /** Whether a year is a leap year depends only on its place in its 400-year era. */
  lemma LeapYearInEra(y: int)
    ensures y % 4 == (y % 400) % 4 && y % 100 == (y % 400) % 100
  {
    var q, r := y / 400, y % 400;
    Remainder4(y, 100 * q + r / 4, r % 4);
    Remainder100(y, 4 * q + r / 100, r % 100);
  }

  /** Writing `y` as `4k + b` with `0 <= b < 4` gives its remainder. */
  lemma Remainder4(y: int, k: int, b: int)
    requires y == 4 * k + b && 0 <= b < 4
    ensures y % 4 == b
  {
  }

  /** Writing `y` as `100k + b` with `0 <= b < 100` gives its remainder. */
  lemma Remainder100(y: int, k: int, b: int)
    requires y == 100 * k + b && 0 <= b < 100
    ensures y % 100 == b
  {
  }

  /** Within an era, the leap-day counts `/ 4` and `/ 100` grow by one exactly at a multiple. */
  lemma YearOfEraStep(r: int)
    requires 0 <= r < 399
    ensures (r + 1) / 4 - r / 4 == (if (r + 1) % 4 == 0 then 1 else 0)
    ensures (r + 1) / 100 - r / 100 == (if (r + 1) % 100 == 0 then 1 else 0)
    ensures (r + 1) % 400 == r + 1
  {
  }
}
