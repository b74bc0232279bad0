/** The Gregorian calendar: day numbers from 1 January 1970 against years, months and days. */
module Calendar {

  predicate IsLeap(y: int) {
    y % 4 == 0 && (y % 100 != 0 || y % 400 == 0)
  }

  function YearDays(y: int): (n: nat)
    ensures n == 365 || n == 366
  {
    if IsLeap(y) then 366 else 365
  }

  function MonthDays(y: int, m: nat): (n: nat)
    ensures 28 <= n <= 31
  {
    if m == 2 then (if IsLeap(y) then 29 else 28)
    else if m == 4 || m == 6 || m == 9 || m == 11 then 30
    else 31
  }

  /** The day number of 1 January. */
  function YearStart(y: int): int
    decreases if y >= 1970 then y - 1970 else 1970 - y
  {
    if y == 1970 then 0
    else if y > 1970 then YearStart(y - 1) + YearDays(y - 1)
    else YearStart(y + 1) - YearDays(y)
  }

  /** Days of the year before the first of a month. */
  function MonthStart(y: int, m: nat): nat
    requires 1 <= m <= 13
  {
    if m == 1 then 0 else MonthStart(y, m - 1) + MonthDays(y, m - 1)
  }

  function DayNumber(y: int, m: nat, d: nat): int
    requires 1 <= m <= 12
  {
    YearStart(y) + MonthStart(y, m) + d - 1
  }

  /** The year a day falls in, counting from another, and the days of the year before it. */
  function YearFrom(y: int, rest: int): (r: (int, nat))
    ensures YearStart(r.0) + r.1 == YearStart(y) + rest
    ensures r.1 < YearDays(r.0)
    decreases if 0 <= rest < YearDays(y) then 0 else if rest < 0 then -rest else rest
  {
    if rest < 0 then YearFrom(y - 1, rest + YearDays(y - 1))
    else if rest >= YearDays(y) then YearFrom(y + 1, rest - YearDays(y))
    else (y, rest)
  }

  lemma TwelveMonths(y: int)
    ensures MonthStart(y, 13) == YearDays(y)
  {
    assert MonthStart(y, 1) == 0 && MonthStart(y, 2) == 31;
    assert MonthStart(y, 3) == 31 + MonthDays(y, 2);
    assert MonthStart(y, 4) == MonthStart(y, 3) + 31;
    assert MonthStart(y, 5) == MonthStart(y, 3) + 61;
    assert MonthStart(y, 6) == MonthStart(y, 3) + 92;
    assert MonthStart(y, 7) == MonthStart(y, 3) + 122;
    assert MonthStart(y, 8) == MonthStart(y, 3) + 153;
    assert MonthStart(y, 9) == MonthStart(y, 3) + 184;
    assert MonthStart(y, 10) == MonthStart(y, 3) + 214;
    assert MonthStart(y, 11) == MonthStart(y, 3) + 245;
    assert MonthStart(y, 12) == MonthStart(y, 3) + 275;
  }

  /** The month a day of a year falls in, counting from another, and its day of the month. */
  function MonthFrom(y: int, m: nat, rest: nat): (r: (nat, nat))
    requires 1 <= m <= 12 && MonthStart(y, m) + rest < YearDays(y)
    ensures m <= r.0 <= 12 && 1 <= r.1 <= MonthDays(y, r.0)
    ensures MonthStart(y, r.0) + r.1 - 1 == MonthStart(y, m) + rest
    decreases 12 - m
  {
    TwelveMonths(y);
    if rest < MonthDays(y, m) then (m, rest + 1)
    else MonthFrom(y, m + 1, rest - MonthDays(y, m))
  }

  datatype Date = Date(year: int, month: nat, day: nat)

  /** The date of a day number; `DayNumber` takes it back. */
  function DateOf(n: int): (date: Date)
    ensures 1 <= date.month <= 12 && 1 <= date.day <= MonthDays(date.year, date.month)
    ensures DayNumber(date.year, date.month, date.day) == n
  {
    var (y, rest) := YearFrom(1970, n);
    var (m, d) := MonthFrom(y, 1, rest);
    Date(y, m, d)
  }

  // ----- the day number in one formula -----

  /** Leap years of the calendar before 1 January of a year, counted from the year 1. */
  function LeapsBefore(y: int): int {
    (y - 1) / 4 - (y - 1) / 100 + (y - 1) / 400
  }

  /** Days of a common year before each month. */
  const OFFSETS := [0, 31, 59, 90, 120, 151, 181, 212, 243, 273, 304, 334]

  /** Days from 1 January 1970, without counting year by year. */
  function CivilDay(y: int, m: nat, d: nat): int
    requires 1 <= m <= 12
  {
    var leap := y % 4 == 0 && (y % 100 != 0 || y % 400 == 0);
    365 * (y - 1970) + LeapsBefore(y) - 477 + OFFSETS[m - 1] + (if m > 2 && leap then 1 else 0) + d - 1
  }

  lemma LeapStep(y: int)
    ensures LeapsBefore(y + 1) == LeapsBefore(y) + (if IsLeap(y) then 1 else 0)
  {
    DivStep(y, 4);
    DivStep(y, 100);
    DivStep(y, 400);
  }

  lemma DivStep(y: int, k: int)
    requires k == 4 || k == 100 || k == 400
    ensures y / k == (y - 1) / k + (if y % k == 0 then 1 else 0)
  {
  }

  lemma {:induction false} YearStartIs(y: int)
    ensures YearStart(y) == 365 * (y - 1970) + LeapsBefore(y) - 477
    decreases if y >= 1970 then y - 1970 else 1970 - y
  {
    if y == 1970 {
    } else if y > 1970 {
      YearStartIs(y - 1);
      LeapStep(y - 1);
    } else {
      YearStartIs(y + 1);
      LeapStep(y);
    }
  }

  lemma MonthStartIs(y: int, m: nat)
    requires 1 <= m <= 12
    ensures MonthStart(y, m) == OFFSETS[m - 1] + (if m > 2 && IsLeap(y) then 1 else 0)
  {
    assert MonthStart(y, 1) == 0 && MonthStart(y, 2) == 31;
    assert MonthStart(y, 3) == 31 + MonthDays(y, 2);
    assert MonthStart(y, 4) == MonthStart(y, 3) + 31;
    assert MonthStart(y, 5) == MonthStart(y, 3) + 61;
    assert MonthStart(y, 6) == MonthStart(y, 3) + 92;
    assert MonthStart(y, 7) == MonthStart(y, 3) + 122;
    assert MonthStart(y, 8) == MonthStart(y, 3) + 153;
    assert MonthStart(y, 9) == MonthStart(y, 3) + 184;
    assert MonthStart(y, 10) == MonthStart(y, 3) + 214;
    assert MonthStart(y, 11) == MonthStart(y, 3) + 245;
    assert MonthStart(y, 12) == MonthStart(y, 3) + 275;
  }

  /** Counting years and months gives the day number of the formula. */
  lemma DayNumberIsCivilDay(y: int, m: nat, d: nat)
    requires 1 <= m <= 12
    ensures DayNumber(y, m, d) == CivilDay(y, m, d)
  {
    YearStartIs(y);
    MonthStartIs(y, m);
  }
}
