/**
 * Proleptic Gregorian calendar dates as day numbers counted from 1970-01-01,
 * the epoch pandas timestamps count from. Only what `pd.date_range` needs
 * for the sample data is modelled: day numbers of dates and runs of
 * consecutive days.
 */
module Calendar {

  predicate IsLeapYear(y: int) {
    y % 4 == 0 && (y % 100 != 0 || y % 400 == 0)
  }

  function DaysInYear(y: int): nat {
    if IsLeapYear(y) then 366 else 365
  }

  function DaysInMonth(y: int, m: int): nat
    requires 1 <= m <= 12
  {
    if m == 2 then (if IsLeapYear(y) then 29 else 28)
    else if m == 4 || m == 6 || m == 9 || m == 11 then 30
    else 31
  }

  predicate ValidDate(y: int, m: int, d: int) {
    1 <= m <= 12 && 1 <= d <= DaysInMonth(y, m)
  }

  /** Days in the months of year `y` before month `m`; `m == 13` gives the whole year. */
  function DaysBeforeMonth(y: int, m: int): nat
    requires 1 <= m <= 13
  {
    if m == 1 then 0 else DaysBeforeMonth(y, m - 1) + DaysInMonth(y, m - 1)
  }

  /** Leap years among the years 1 .. y-1, by the Gregorian rule (floor division). */
  function LeapYearsBefore(y: int): int {
    (y - 1) / 4 - (y - 1) / 100 + (y - 1) / 400
  }

  /** Day number of January 1st of year `y`. */
  function DaysBeforeYear(y: int): int {
    365 * (y - 1970) + LeapYearsBefore(y) - LeapYearsBefore(1970)
  }

  /** Day number of the date y-m-d. */
  function DayNumber(y: int, m: int, d: int): int
    requires ValidDate(y, m, d)
  {
    DaysBeforeYear(y) + DaysBeforeMonth(y, m) + (d - 1)
  }

  /** The days first, first+1, ..., last, as `pd.date_range(first, last, freq="D")` lists them. */
  function DateRange(first: int, last: int): (days: seq<int>)
    ensures |days| == if first <= last then last - first + 1 else 0
    ensures forall i :: 0 <= i < |days| ==> days[i] == first + i
  {
    if first <= last then seq(last - first + 1, i => first + i) else []
  }

  /** Quotient and remainder are determined by any decomposition with a remainder in range. */
  lemma DivisionUnique(a: int, k: int, q: int, r: int)
    requires k > 0 && a == k * q + r && 0 <= r < k
    ensures a / k == q && a % k == r
  {
    var q', r' := a / k, a % k;
    assert a == k * q' + r' && 0 <= r' < k;
    var d := q - q';
    assert k * d == r' - r by {
      assert k * q - k * q' == k * (q - q');
    }
    if d >= 1 {
      MultipleAtLeast(k, d);
    } else if d <= -1 {
      MultipleAtLeast(k, -d);
    }
  }

  lemma MultipleAtLeast(k: int, d: int)
    requires k > 0 && d >= 1
    ensures k * d >= k
  {
    assert k * d == k + k * (d - 1);
  }

  lemma StepOfFloorDiv(y: int, k: int)
    requires k > 0
    ensures y / k - (y - 1) / k == if y % k == 0 then 1 else 0
  {
    var q, r := (y - 1) / k, (y - 1) % k;
    if r == k - 1 {
      DivisionUnique(y, k, q + 1, 0);
    } else {
      DivisionUnique(y, k, q, r + 1);
    }
  }

  /** The closed form for January 1st advances by exactly the length of each year. */
  lemma YearLength(y: int)
    ensures DaysBeforeYear(y + 1) == DaysBeforeYear(y) + DaysInYear(y)
  {
    StepOfFloorDiv(y, 4);
    StepOfFloorDiv(y, 100);
    StepOfFloorDiv(y, 400);
    assert y % 100 == 0 ==> y % 4 == 0;
    assert y % 400 == 0 ==> y % 100 == 0;
  }

  /** The twelve months fill the year. */
  lemma MonthsFillYear(y: int)
    ensures DaysBeforeMonth(y, 13) == DaysInYear(y)
  {
    var feb := DaysInMonth(y, 2);
    assert DaysBeforeMonth(y, 2) == 31;
    assert DaysBeforeMonth(y, 3) == 31 + feb;
    assert DaysBeforeMonth(y, 4) == 62 + feb;
    assert DaysBeforeMonth(y, 5) == 92 + feb;
    assert DaysBeforeMonth(y, 6) == 123 + feb;
    assert DaysBeforeMonth(y, 7) == 153 + feb;
    assert DaysBeforeMonth(y, 8) == 184 + feb;
    assert DaysBeforeMonth(y, 9) == 215 + feb;
    assert DaysBeforeMonth(y, 10) == 245 + feb;
    assert DaysBeforeMonth(y, 11) == 276 + feb;
    assert DaysBeforeMonth(y, 12) == 306 + feb;
  }

  /** January 1st and December 31st of a year are a year's length apart, inclusively,
      and the day after December 31st is January 1st of the next year. */
  lemma YearSpan(y: int)
    ensures DayNumber(y, 12, 31) - DayNumber(y, 1, 1) + 1 == DaysInYear(y)
    ensures DayNumber(y + 1, 1, 1) == DayNumber(y, 12, 31) + 1
  {
    MonthsFillYear(y);
    YearLength(y);
  }

  /** Day 0 is 1970-01-01 and 2019-01-01 is day 17897. */
  lemma KnownDays()
    ensures DayNumber(1970, 1, 1) == 0
    ensures DayNumber(2019, 1, 1) == 17897
    ensures DayNumber(2019, 12, 31) == 18261
  {
  }
}
