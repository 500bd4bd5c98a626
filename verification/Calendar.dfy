/**
 * Calendar dates and days. Day 0 is 1 January of year 1; dates are compared as yyyymmdd numbers, which
 * is shown to be the order of the days.
 */
module Calendar {

  datatype Ymd = Ymd(year: int, month: int, day: int)

  predicate Leap(y: int) { y % 4 == 0 && (y % 100 != 0 || y % 400 == 0) }

  function YearDays(y: int): int { if Leap(y) then 366 else 365 }

  /** Days before 1 January of year y. */
  function BeforeYear(y: int): int
  {
    365 * (y - 1) + (y - 1) / 4 - (y - 1) / 100 + (y - 1) / 400
  }

  lemma NextYear(y: int)
    ensures BeforeYear(y + 1) == BeforeYear(y) + YearDays(y)
  {
    assert y / 4 - (y - 1) / 4 == if y % 4 == 0 then 1 else 0;
    assert y / 100 - (y - 1) / 100 == if y % 100 == 0 then 1 else 0;
    assert y / 400 - (y - 1) / 400 == if y % 400 == 0 then 1 else 0;
  }

  lemma {:induction false} YearsGrow(y: int, z: int)
    requires y < z
    ensures BeforeYear(y) + YearDays(y) <= BeforeYear(z)
    decreases z - y
  {
    NextYear(z - 1);
    if y < z - 1 {
      YearsGrow(y, z - 1);
    }
  }

  function MonthDays(y: int, m: int): int
  {
    if m == 2 then (if Leap(y) then 29 else 28)
    else if m == 4 || m == 6 || m == 9 || m == 11 then 30
    else 31
  }

  /** Days of the year before the first of month m. */
  function BeforeMonth(y: int, m: int): int
    requires 1 <= m <= 13
  {
    if m == 1 then 0 else BeforeMonth(y, m - 1) + MonthDays(y, m - 1)
  }

  lemma YearIsTwelveMonths(y: int)
    ensures BeforeMonth(y, 13) == YearDays(y)
  {
    assert BeforeMonth(y, 2) == 31;
    var q := BeforeMonth(y, 3);
    assert BeforeMonth(y, 5) == q + 61;
    assert BeforeMonth(y, 7) == q + 122;
    assert BeforeMonth(y, 9) == q + 184;
    assert BeforeMonth(y, 11) == q + 245;
  }

  lemma {:induction false} MonthsGrow(y: int, m: int, n: int)
    requires 1 <= m < n <= 13
    ensures BeforeMonth(y, m) + MonthDays(y, m) <= BeforeMonth(y, n)
    decreases n - m
  {
    if m < n - 1 {
      MonthsGrow(y, m, n - 1);
    }
  }

  predicate ValidDate(d: Ymd) { 1 <= d.month <= 12 && 1 <= d.day <= MonthDays(d.year, d.month) }

  /** The day of a date; a day beyond its month counts on into the next, as Date.UTC does. */
  function DayOf(d: Ymd): int
    requires 1 <= d.month <= 12
  {
    BeforeYear(d.year) + BeforeMonth(d.year, d.month) + d.day - 1
  }

  function YearAt(day: int, y: int): int
    requires BeforeYear(y) <= day
    decreases day - BeforeYear(y)
  {
    NextYear(y);
    if day < BeforeYear(y + 1) then y else YearAt(day, y + 1)
  }

  function MonthAt(y: int, rest: int, m: int): int
    requires 1 <= m <= 12
    decreases 12 - m
  {
    if m == 12 || rest < BeforeMonth(y, m + 1) then m else MonthAt(y, rest, m + 1)
  }

  /** The date of a day of year 1 or later. */
  function DateOf(day: int): Ymd
    requires 0 <= day
  {
    var y := YearAt(day, 1);
    var rest := day - BeforeYear(y);
    var m := MonthAt(y, rest, 1);
    Ymd(y, m, rest - BeforeMonth(y, m) + 1)
  }

  lemma {:induction false} YearFound(day: int, y: int)
    requires BeforeYear(y) <= day
    ensures var r := YearAt(day, y); y <= r && BeforeYear(r) <= day < BeforeYear(r) + YearDays(r)
    decreases day - BeforeYear(y)
  {
    NextYear(y);
    if BeforeYear(y + 1) <= day {
      YearFound(day, y + 1);
    }
  }

  lemma {:induction false} MonthFound(y: int, rest: int, m: int)
    requires 1 <= m <= 12 && BeforeMonth(y, m) <= rest < YearDays(y)
    ensures var r := MonthAt(y, rest, m);
            1 <= r <= 12 && BeforeMonth(y, r) <= rest < BeforeMonth(y, r) + MonthDays(y, r)
    decreases 12 - m
  {
    YearIsTwelveMonths(y);
    if m < 12 && BeforeMonth(y, m + 1) <= rest {
      MonthFound(y, rest, m + 1);
    }
  }

  /** Every day from year 1 on has a valid date, and the date leads back to the day. */
  lemma DateRoundTrip(day: int)
    requires 0 <= day
    ensures ValidDate(DateOf(day)) && DayOf(DateOf(day)) == day && 1 <= DateOf(day).year
  {
    YearFound(day, 1);
    var y := YearAt(day, 1);
    MonthFound(y, day - BeforeYear(y), 1);
  }

  /** The number dates are compared by. */
  function Comparable(d: Ymd): int { d.year * 10000 + d.month * 100 + d.day }

  lemma EarlierDate(a: Ymd, b: Ymd)
    requires ValidDate(a) && ValidDate(b) && Comparable(a) < Comparable(b)
    ensures DayOf(a) < DayOf(b)
  {
    YearIsTwelveMonths(a.year);
    if a.month < 12 {
      MonthsGrow(a.year, a.month, 13);
    }
    if a.year < b.year {
      YearsGrow(a.year, b.year);
      BeforeMonthPositive(b.year, b.month);
    } else if a.month < b.month {
      MonthsGrow(a.year, a.month, b.month);
    }
  }

  lemma {:induction false} BeforeMonthPositive(y: int, m: int)
    requires 1 <= m <= 13
    ensures 0 <= BeforeMonth(y, m)
    decreases m
  {
    if m > 1 {
      BeforeMonthPositive(y, m - 1);
    }
  }

  lemma SameComparable(a: Ymd, b: Ymd)
    requires ValidDate(a) && ValidDate(b) && Comparable(a) == Comparable(b)
    ensures a == b
  {
    Digits(a.year, a.month, a.day, b.year, b.month, b.day);
  }

  lemma Digits(y: int, m: int, d: int, y2: int, m2: int, d2: int)
    requires 1 <= m <= 12 && 1 <= m2 <= 12 && 1 <= d <= 31 && 1 <= d2 <= 31
    requires y * 10000 + m * 100 + d == y2 * 10000 + m2 * 100 + d2
    ensures y == y2 && m == m2 && d == d2
  {
  }

  /** Comparing yyyymmdd numbers is comparing days, so a date is known by its day. */
  lemma ComparableIsDayOrder(a: Ymd, b: Ymd)
    requires ValidDate(a) && ValidDate(b)
    ensures Comparable(a) < Comparable(b) <==> DayOf(a) < DayOf(b)
    ensures Comparable(a) == Comparable(b) <==> a == b
    ensures DayOf(a) == DayOf(b) <==> a == b
  {
    if Comparable(a) < Comparable(b) {
      EarlierDate(a, b);
    } else if Comparable(b) < Comparable(a) {
      EarlierDate(b, a);
    } else {
      SameComparable(a, b);
    }
  }

  /** 0 is Sunday; day 0 was a Monday. */
  function Weekday(day: int): int { (day + 1) % 7 }

  /** The day from which instants count. */
  const UNIX_DAY: int := DayOf(Ymd(1970, 1, 1))

  /** The lengths of the months: 31 and 30 in turn, starting over in August, and February apart. */
  lemma MonthLengths(y: int, m: int)
    requires 1 <= m <= 12
    ensures MonthDays(y, m) == if m == 2 then YearDays(y) - 337 else 30 + (m + m / 8) % 2
  {
  }

  /** 1 January 1970 was a Thursday, every day has the weekday after the day before, and every week has seven. */
  lemma WeekdaysFollow(day: int)
    ensures Weekday(DayOf(Ymd(1970, 1, 1))) == 4
    ensures Weekday(day + 1) == if Weekday(day) == 6 then 0 else Weekday(day) + 1
    ensures 0 <= Weekday(day) <= 6
  {
  }

  /** The date after a valid one: the next day of the month, or the first of the next month or year. */
  function Tomorrow(d: Ymd): Ymd
  {
    if d.day < MonthDays(d.year, d.month) then d.(day := d.day + 1)
    else if d.month < 12 then Ymd(d.year, d.month + 1, 1)
    else Ymd(d.year + 1, 1, 1)
  }

  lemma TomorrowIsNext(d: Ymd)
    requires ValidDate(d)
    ensures ValidDate(Tomorrow(d)) && DayOf(Tomorrow(d)) == DayOf(d) + 1
  {
    if d.day == MonthDays(d.year, d.month) && d.month == 12 {
      YearIsTwelveMonths(d.year);
      NextYear(d.year);
    }
  }

  /** Days count dates one after the other. */
  lemma NextDayIsTomorrow(day: int)
    requires 0 <= day
    ensures DateOf(day + 1) == Tomorrow(DateOf(day))
  {
    DateRoundTrip(day);
    DateRoundTrip(day + 1);
    TomorrowIsNext(DateOf(day));
    ComparableIsDayOrder(Tomorrow(DateOf(day)), DateOf(day + 1));
  }
}
