/** The proleptic Gregorian calendar, counted in days and in months.

    A day is an integer; month `k` is month `k % 12 + 1` of year `k / 12`. */
module Calendar {

  predicate Leap(year: int) {
    year % 4 == 0 && (year % 100 != 0 || year % 400 == 0)
  }

  function YearStart(year: int): int {
    365 * (year - 1) + (year - 1) / 4 - (year - 1) / 100 + (year - 1) / 400
  }

  /** Days of the year before a month, counted from January as 0. From March on the lengths
      31 30 31 30 31 repeat, 153 days in five months. */
  function DaysBefore(month: int, leap: bool): int {
    if month < 2 then 31 * month
    else (153 * month - 304) / 5 + (if leap then 60 else 59)
  }

  function MonthStart(k: int): int {
    YearStart(k / 12) + DaysBefore(k % 12, Leap(k / 12))
  }

  function MonthDays(k: int): nat {
    if k % 12 == 1 then (if Leap(k / 12) then 29 else 28)
    else if k % 12 in {3, 5, 8, 10} then 30 else 31
  }

  lemma YearLength(year: int)
    ensures YearStart(year + 1) == YearStart(year) + (if Leap(year) then 366 else 365)
  {
    Quotient4(year);
    Quotient100(year);
    Quotient400(year);
  }

  lemma Quotient4(n: int)
    ensures n / 4 == (n - 1) / 4 + if n % 4 == 0 then 1 else 0
  {
  }

  lemma Quotient100(n: int)
    ensures n / 100 == (n - 1) / 100 + if n % 100 == 0 then 1 else 0
  {
  }

  lemma Quotient400(n: int)
    ensures n / 400 == (n - 1) / 400 + if n % 400 == 0 then 1 else 0
    ensures n % 400 == 0 ==> n % 100 == 0 && n % 4 == 0
    ensures n % 100 == 0 ==> n % 4 == 0
  {
  }

  /** The Gregorian year: a century is a leap year only every fourth time, and 400 years have 146097 days. */
  lemma GregorianYears(year: int)
    ensures YearStart(1) == 0 && YearStart(year + 400) == YearStart(year) + 146_097
    ensures YearStart(year + 1) - YearStart(year) == if year % 4 == 0 && (year % 100 == 0 ==> year % 400 == 0) then 366 else 365
  {
    YearLength(year);
    var y := year - 1;
    assert (y + 400) / 4 == y / 4 + 100 && (y + 400) / 100 == y / 100 + 4 && (y + 400) / 400 == y / 400 + 1;
  }

  /** The twelve months of a year have the lengths everybody knows. */
  lemma GregorianMonths(year: int, month: nat)
    requires month < 12
    ensures MonthStart(12 * year + month + 1) - MonthStart(12 * year + month) ==
            if month == 1 then (if year % 4 == 0 && (year % 100 == 0 ==> year % 400 == 0) then 29 else 28)
            else if month in {3, 5, 8, 10} then 30 else 31
  {
    MonthStartNext(12 * year + month);
    hide MonthStart, YearStart;
    assert (12 * year + month) / 12 == year && (12 * year + month) % 12 == month;
  }

  /** Months tile the day line, across year ends and leap days. */
  lemma MonthStartNext(k: int)
    ensures MonthStart(k + 1) == MonthStart(k) + MonthDays(k)
    ensures 28 <= MonthDays(k) <= 31
  {
    if k % 12 == 11 {
      assert (k + 1) / 12 == k / 12 + 1 && (k + 1) % 12 == 0;
      YearLength(k / 12);
    } else {
      assert (k + 1) / 12 == k / 12 && (k + 1) % 12 == k % 12 + 1;
    }
  }

  /** How far month `k` is from the one holding `day`. */
  function Distance(day: int, k: int): (d: nat)
    ensures d == 0 <==> MonthStart(k) <= day < MonthStart(k + 1)
  {
    MonthStartNext(k);
    if day < MonthStart(k) then MonthStart(k) - day
    else if MonthStart(k + 1) <= day then 1 + day - MonthStart(k + 1) else 0
  }

  lemma DistanceShrinks(day: int, k: int)
    ensures day < MonthStart(k) ==> Distance(day, k - 1) < Distance(day, k)
    ensures MonthStart(k + 1) <= day ==> Distance(day, k + 1) < Distance(day, k)
  {
    hide MonthStart, MonthDays;
    MonthStartNext(k - 1);
    MonthStartNext(k);
    MonthStartNext(k + 1);
  }

  function SearchMonth(day: int, k: int): (m: int)
    ensures MonthStart(m) <= day < MonthStart(m + 1)
    decreases Distance(day, k)
  {
    hide MonthStart, Distance;
    DistanceShrinks(day, k);
    if day < MonthStart(k) then SearchMonth(day, k - 1)
    else if MonthStart(k + 1) <= day then SearchMonth(day, k + 1)
    else k
  }

  /** The month holding a day. */
  function MonthOf(day: int): (m: int)
    ensures MonthStart(m) <= day < MonthStart(m + 1)
  {
    SearchMonth(day, 12 * (day / 366))
  }

  function DayOfMonth(day: int): (d: int)
    ensures 1 <= d <= 31
  {
    MonthStartNext(MonthOf(day));
    day - MonthStart(MonthOf(day)) + 1
  }

  /** Day `dom` of month `k`, moved back to the month's last day when it has no such day. */
  function Clamped(k: int, dom: int): (day: int)
    requires 1 <= dom
    ensures MonthStart(k) <= day < MonthStart(k + 1)
    ensures day == if MonthStart(k) + dom - 1 < MonthStart(k + 1) then MonthStart(k) + dom - 1 else MonthStart(k + 1) - 1
  {
    MonthStartNext(k);
    MonthStart(k) + (if dom <= MonthDays(k) then dom else MonthDays(k)) - 1
  }

  /** Clamping never brings two different months closer than four weeks. */
  lemma {:induction false} ClampedGap(k: int, steps: nat, dom: int)
    requires 1 <= dom && 1 <= steps
    ensures Clamped(k + steps, dom) - Clamped(k, dom) >= 28 * steps
    decreases steps
  {
    hide MonthStart, MonthDays;
    MonthStartNext(k + steps - 1);
    MonthStartNext(k + steps);
    if steps > 1 {
      ClampedGap(k, steps - 1, dom);
    }
    assert Clamped(k + steps, dom) - Clamped(k + steps - 1, dom) >= 28;
  }

  lemma {:induction false} MonthStartMonotone(k: int, m: int)
    requires k <= m
    ensures MonthStart(k) <= MonthStart(m)
    decreases m - k
  {
    if k < m {
      MonthStartNext(m - 1);
      MonthStartMonotone(k, m - 1);
    }
  }
}
