/**
 Year Number, Month Number and MakeDay of ECMA-262, section 21.4.1, over the proleptic Gregorian calendar. Months are
 numbered in one line: month `k` is month `k % 12` (January is 0) of year `k / 12`.
 */
module Calendar {

  predicate Leap(year: int) { year % 4 == 0 && (year % 100 != 0 || year % 400 == 0) }

  function DaysInYear(year: int): int { if Leap(year) then 366 else 365 }

  /** The closed form of section 21.4.1.3: days from 1970-01-01 to the first of January of the year. */
  function DayFromYear(year: int): int {
    365 * (year - 1970) + (year - 1969) / 4 - (year - 1901) / 100 + (year - 1601) / 400
  }

  /** The same, counted year by year. */
  function StartOfYear(year: int): int
    decreases if year < 1970 then 1970 - year else year - 1970
  {
    if year == 1970 then 0
    else if year < 1970 then StartOfYear(year + 1) - DaysInYear(year)
    else StartOfYear(year - 1) + DaysInYear(year - 1)
  }

  /** Days of the year before the month starts. */
  function MonthOffset(month: int, leap: bool): int {
    var extra := if leap then 1 else 0;
    if month <= 0 then 0 else if month == 1 then 31 else if month == 2 then 59 + extra
    else if month == 3 then 90 + extra
    else if month == 4 then 120 + extra else if month == 5 then 151 + extra else if month == 6 then 181 + extra
    else if month == 7 then 212 + extra else if month == 8 then 243 + extra else if month == 9 then 273 + extra
    else if month == 10 then 304 + extra else if month == 11 then 334 + extra else 365 + extra
  }

  /** Days from 1970-01-01 to the first day of the month: MakeDay of section 21.4.1.12. */
  function MakeDay(year: int, month: int): int { DayFromYear(year) + MonthOffset(month, Leap(year)) }

  const JANUARY_1970: int := 12 * 1970

  function DaysInMonth(k: int): (d: int)
    ensures 28 <= d <= 31
  {
    var month := k % 12;
    if month == 1 then DaysInYear(k / 12) - 337
    else if month == 3 || month == 5 || month == 8 || month == 10 then 30 else 31
  }

  /** The first day of month `k`, counted month by month. */
  function DayOfMonth(k: int): int
    decreases if k < JANUARY_1970 then JANUARY_1970 - k else k - JANUARY_1970
  {
    if k == JANUARY_1970 then 0
    else if k < JANUARY_1970 then DayOfMonth(k + 1) - DaysInMonth(k)
    else DayOfMonth(k - 1) + DaysInMonth(k - 1)
  }

  function YearUp(day: int, year: int): (y: int)
    requires StartOfYear(year) <= day
    ensures StartOfYear(y) <= day < StartOfYear(y + 1)
    decreases day - StartOfYear(year)
  {
    NextYear(year);
    if day < StartOfYear(year + 1) then year else YearUp(day, year + 1)
  }

  function YearDown(day: int, year: int): (y: int)
    requires day < StartOfYear(year + 1)
    ensures StartOfYear(y) <= day < StartOfYear(y + 1)
    decreases StartOfYear(year + 1) - day
  {
    NextYear(year);
    if StartOfYear(year) <= day then year else YearDown(day, year - 1)
  }

  function YearOf(day: int): (y: int)
    ensures StartOfYear(y) <= day < StartOfYear(y + 1)
  {
    if 0 <= day then YearUp(day, 1970) else YearDown(day, 1969)
  }

  /** The last month starting no later than the given day of the year, at most `m`. */
  function MonthFrom(dayInYear: int, leap: bool, m: nat): (month: nat)
    requires 0 <= dayInYear && m <= 11
    ensures month <= m && MonthOffset(month, leap) <= dayInYear
    ensures month < m ==> dayInYear < MonthOffset(month + 1, leap)
  {
    if MonthOffset(m, leap) <= dayInYear then m else MonthFrom(dayInYear, leap, m - 1)
  }

  function MonthOf(day: int): (month: nat)
    ensures month <= 11
  {
    MonthFrom(day - StartOfYear(YearOf(day)), Leap(YearOf(day)), 11)
  }

  function MonthIndex(day: int): int { 12 * YearOf(day) + MonthOf(day) }

  lemma Fours(n: int)
    ensures (n + 1) / 4 == n / 4 + if (n + 1) % 4 == 0 then 1 else 0
  {
  }

  lemma Hundreds(n: int)
    ensures (n + 1) / 100 == n / 100 + if (n + 1) % 100 == 0 then 1 else 0
  {
  }

  lemma FourHundreds(n: int)
    ensures (n + 1) / 400 == n / 400 + if (n + 1) % 400 == 0 then 1 else 0
  {
  }

  lemma SpansShift(year: int)
    ensures (year - 1968) % 4 == year % 4 && (year - 1900) % 100 == year % 100 && (year - 1600) % 400 == year % 400
  {
    assert year == 4 * (year / 4) + year % 4;
    assert year == 100 * (year / 100) + year % 100;
    assert year == 400 * (year / 400) + year % 400;
  }

  lemma FourCenturies(year: int, q: int)
    requires year == 400 * q
    ensures year % 100 == 0
  {
    assert year == 100 * (4 * q);
  }

  lemma Century(year: int, q: int)
    requires year == 100 * q
    ensures year % 4 == 0
  {
    assert year == 4 * (25 * q);
  }

  lemma CenturiesNest(year: int)
    ensures year % 400 == 0 ==> year % 100 == 0
    ensures year % 100 == 0 ==> year % 4 == 0
  {
    if year % 400 == 0 {
      FourCenturies(year, year / 400);
    }
    if year % 100 == 0 {
      Century(year, year / 100);
    }
  }

  lemma ClosedFormStep(year: int)
    ensures DayFromYear(year + 1) == DayFromYear(year) + DaysInYear(year)
  {
    Fours(year - 1969);
    Hundreds(year - 1901);
    FourHundreds(year - 1601);
    SpansShift(year);
    CenturiesNest(year);
  }

  /** The closed form counts the days of the years, across leap years and centuries and on both sides of 1970. */
  lemma {:induction false} ClosedForm(year: int)
    ensures DayFromYear(year) == StartOfYear(year)
    decreases if year < 1970 then 1970 - year else year - 1970
  {
    if year < 1970 {
      ClosedForm(year + 1);
      ClosedFormStep(year);
    } else if 1970 < year {
      ClosedForm(year - 1);
      ClosedFormStep(year - 1);
    }
  }

  lemma NextYear(year: int)
    ensures StartOfYear(year + 1) == StartOfYear(year) + DaysInYear(year)
  {
  }

  lemma NextMonth(k: int)
    ensures DayOfMonth(k + 1) == DayOfMonth(k) + DaysInMonth(k)
  {
  }

  lemma NextIndex(y: int, m: nat)
    requires m <= 11
    ensures (12 * y + m) / 12 == y && (12 * y + m) % 12 == m
  {
  }

  lemma OffsetStep(y: int, m: nat)
    requires m <= 11
    ensures MonthOffset(m + 1, Leap(y)) == MonthOffset(m, Leap(y)) + DaysInMonth(12 * y + m)
  {
    NextIndex(y, m);
  }

  /** Within a year, months counted one by one agree with the table of offsets. */
  lemma {:induction false} OffsetsCount(y: int, m: nat)
    requires m <= 12
    ensures DayOfMonth(12 * y + m) == DayOfMonth(12 * y) + MonthOffset(m, Leap(y))
  {
    if 0 < m {
      OffsetsCount(y, m - 1);
      NextMonth(12 * y + (m - 1));
      OffsetStep(y, m - 1);
    }
  }

  lemma {:induction false} YearsCount(y: int)
    ensures DayOfMonth(12 * y) == StartOfYear(y)
    decreases if y < 1970 then 1970 - y else y - 1970
  {
    if y < 1970 {
      YearsCount(y + 1);
      OffsetsCount(y, 12);
    } else if 1970 < y {
      YearsCount(y - 1);
      OffsetsCount(y - 1, 12);
    }
  }

  /** MakeDay counts the days of all months before the month. */
  lemma MakeDayCounts(y: int, m: nat)
    requires m <= 11
    ensures MakeDay(y, m) == DayOfMonth(12 * y + m)
  {
    OffsetsCount(y, m);
    YearsCount(y);
    ClosedForm(y);
  }

  /** Later months start later. */
  lemma {:induction false} MonthsIncrease(j: int, k: int)
    requires j <= k
    ensures DayOfMonth(j) + 28 * (k - j) <= DayOfMonth(k)
    decreases k - j
  {
    if j < k {
      MonthsIncrease(j, k - 1);
      NextMonth(k - 1);
    }
  }

  /** Year and month extraction finds the month a day lies in. */
  lemma DayInItsMonth(day: int)
    ensures var k := MonthIndex(day); DayOfMonth(k) <= day < DayOfMonth(k + 1)
  {
    var y, m := YearOf(day), MonthOf(day);
    YearsCount(y);
    OffsetsCount(y, m);
    OffsetsCount(y, m + 1);
    NextYear(y);
  }

  lemma EarlierMonth(j: int, k: int, day: int)
    requires j < k && day < DayOfMonth(j + 1)
    ensures day < DayOfMonth(k)
  {
    MonthsIncrease(j + 1, k);
  }

  lemma OneMonthPerDay(j: int, k: int, day: int)
    requires DayOfMonth(j) <= day < DayOfMonth(j + 1) && DayOfMonth(k) <= day < DayOfMonth(k + 1)
    ensures j == k
  {
    if j < k {
      EarlierMonth(j, k, day);
    } else if k < j {
      EarlierMonth(k, j, day);
    }
  }

  lemma OnlyMonth(day: int, k: int, found: int)
    requires DayOfMonth(found) <= day < DayOfMonth(found + 1)
    ensures DayOfMonth(k) <= day < DayOfMonth(k + 1) <==> k == found
  {
    if DayOfMonth(k) <= day < DayOfMonth(k + 1) {
      OneMonthPerDay(k, found, day);
    }
  }

  /** The extraction is the inverse of the day count: a day is taken to the month it lies in and to no other. */
  lemma MonthIndexUnique(day: int, k: int)
    ensures DayOfMonth(k) <= day < DayOfMonth(k + 1) <==> MonthIndex(day) == k
  {
    DayInItsMonth(day);
    OnlyMonth(day, k, MonthIndex(day));
  }
}
