/** What Rfc3339.Instant means: the order of the clock's fields, and the length of a day. */
module Calendar {
  import opened Rfc3339

  /* ---------- months and years ---------- */

  lemma {:induction false} MonthsGrow(m: int, n: int, year: int)
    requires 1 <= m < n
    ensures DaysBeforeMonth(m, year) + DaysIn(m, year) <= DaysBeforeMonth(n, year)
  {
    if m < n - 1 { MonthsGrow(m, n - 1, year); }
  }

  // The year's months add up to its length
  lemma TwelveMonths(year: int)
    ensures DaysBeforeMonth(12, year) + 31 == if LeapYear(year) then 366 else 365
  {
    assert DaysBeforeMonth(2, year) == 31;
    assert DaysBeforeMonth(3, year) == DaysBeforeMonth(2, year) + DaysIn(2, year);
    assert DaysBeforeMonth(4, year) == DaysBeforeMonth(3, year) + 31;
    assert DaysBeforeMonth(5, year) == DaysBeforeMonth(4, year) + 30;
    assert DaysBeforeMonth(6, year) == DaysBeforeMonth(5, year) + 31;
    assert DaysBeforeMonth(7, year) == DaysBeforeMonth(6, year) + 30;
    assert DaysBeforeMonth(8, year) == DaysBeforeMonth(7, year) + 31;
    assert DaysBeforeMonth(9, year) == DaysBeforeMonth(8, year) + 31;
    assert DaysBeforeMonth(10, year) == DaysBeforeMonth(9, year) + 30;
    assert DaysBeforeMonth(11, year) == DaysBeforeMonth(10, year) + 31;
    assert DaysBeforeMonth(12, year) == DaysBeforeMonth(11, year) + 30;
  }

  lemma Quotient(y: int, k: int)
    requires IsPeriod(k)
    ensures y / k - (y - 1) / k == if y % k == 0 then 1 else 0
  {
    var q, r := y / k, y % k;
    if r == 0 { QuotientIs(y - 1, k, q - 1, k - 1); } else { QuotientIs(y - 1, k, q, r - 1); }
  }

  predicate IsPeriod(k: int) {
    k == 4 || k == 100 || k == 400
  }

  lemma QuotientIs(y: int, k: int, q: int, r: int)
    requires IsPeriod(k) && 0 <= r < k && y == q * k + r
    ensures y / k == q
  {
    if k == 4 {
      assert y == 4 * q + r;
    } else if k == 100 {
      assert y == 100 * q + r;
    } else {
      assert y == 400 * q + r;
    }
  }

  lemma Shift(y: int, k: int, n: int)
    requires IsPeriod(k)
    ensures (y + n * k) / k == y / k + n
  {
    QuotientIs(y + n * k, k, y / k + n, y % k);
  }

  lemma Multiples(y: int)
    ensures y % 100 == 0 ==> y % 4 == 0
    ensures y % 400 == 0 ==> y % 100 == 0
  {
    if y % 100 == 0 { MultipleOf(y, 4, 25 * (y / 100)); }
    if y % 400 == 0 { MultipleOf(y, 100, 4 * (y / 400)); }
  }

  lemma MultipleOf(y: int, k: int, q: int)
    requires IsPeriod(k) && y == q * k
    ensures y % k == 0
  {
    QuotientIs(y, k, q, 0);
  }

  // The quotients a year's number is made of
  lemma YearSum(year: int, a: int, b: int, c: int)
    requires a == (year - 1) / 4 && b == (year - 1) / 100 && c == (year - 1) / 400
    ensures DaysBeforeYear(year) == 365 * year + a - b + c
  {
  }

  /** A year is 366 days long exactly when it is divisible by 4 and not by 100, or by 400. */
  lemma YearLength(year: int)
    ensures DaysBeforeYear(year + 1) - DaysBeforeYear(year) ==
      if year % 4 == 0 && (year % 100 != 0 || year % 400 == 0) then 366 else 365
  {
    Quotient(year, 4);
    Quotient(year, 100);
    Quotient(year, 400);
    Multiples(year);
    YearSum(year, (year - 1) / 4, (year - 1) / 100, (year - 1) / 400);
    YearSum(year + 1, year / 4, year / 100, year / 400);
  }

  /** The calendar repeats every 400 years, which are 146097 days. */
  lemma Cycle(year: int)
    ensures DaysBeforeYear(year + 400) == DaysBeforeYear(year) + 146_097
  {
    Shift(year - 1, 4, 100);
    Shift(year - 1, 100, 4);
    Shift(year - 1, 400, 1);
    YearSum(year, (year - 1) / 4, (year - 1) / 100, (year - 1) / 400);
    YearSum(year + 400, (year - 1) / 4 + 100, (year - 1) / 100 + 4, (year - 1) / 400 + 1);
  }

  lemma {:induction false} YearsGrow(y: int, z: int)
    requires y < z
    ensures DaysBeforeYear(y) + (if LeapYear(y) then 366 else 365) <= DaysBeforeYear(z)
    decreases z - y
  {
    YearLength(z - 1);
    YearLength(y);
    if y < z - 1 { YearsGrow(y, z - 1); }
  }

  // A day of a year is no later than its last
  lemma WithinYear(t: Time)
    requires Valid(t)
    ensures 1 <= DaysBeforeMonth(t.month, t.year) + t.day <= if LeapYear(t.year) then 366 else 365
  {
    TwelveMonths(t.year);
    MonthsPositive(t.month, t.year);
    if t.month < 12 { MonthsGrow(t.month, 12, t.year); }
  }

  lemma {:induction false} MonthsPositive(m: int, year: int)
    ensures DaysBeforeMonth(m, year) >= 0
    decreases if m < 1 then 0 else m
  {
    if m > 1 { MonthsPositive(m - 1, year); }
  }

  /* ---------- order ---------- */

  // The date of a is before that of b
  predicate DateBefore(a: Time, b: Time) {
    a.year < b.year || (a.year == b.year && (a.month < b.month || (a.month == b.month && a.day < b.day)))
  }

  predicate ClockBefore(a: Time, b: Time) {
    a.hour < b.hour || (a.hour == b.hour &&
    (a.minute < b.minute || (a.minute == b.minute &&
    (a.second < b.second || (a.second == b.second && a.nano < b.nano)))))
  }

  lemma DatesGrow(a: Time, b: Time)
    requires Valid(a) && Valid(b) && DateBefore(a, b)
    ensures DayNumber(a.year, a.month, a.day) < DayNumber(b.year, b.month, b.day)
  {
    WithinYear(a);
    WithinYear(b);
    if a.year < b.year {
      YearsGrow(a.year, b.year);
    } else if a.month < b.month {
      MonthsGrow(a.month, b.month, a.year);
    }
  }

  lemma ClocksGrow(a: Time, b: Time)
    requires Valid(a) && Valid(b)
    ensures 0 <= DayNanos(a) < DAY_NANOS
    ensures ClockBefore(a, b) <==> DayNanos(a) < DayNanos(b)
  {
  }

  /** Of two times in one zone the earlier instant is the one whose year, month, day, hour, minute,
      second and nanosecond come first, in that order of weight. */
  lemma InstantOrder(a: Time, b: Time)
    requires Valid(a) && Valid(b) && a.offset == b.offset
    ensures Instant(a) < Instant(b) <==>
      a.year < b.year || (a.year == b.year &&
      (a.month < b.month || (a.month == b.month &&
      (a.day < b.day || (a.day == b.day &&
      (a.hour < b.hour || (a.hour == b.hour &&
      (a.minute < b.minute || (a.minute == b.minute &&
      (a.second < b.second || (a.second == b.second && a.nano < b.nano)))))))))))
  {
    ClocksGrow(a, b);
    ClocksGrow(b, a);
    if DateBefore(a, b) {
      DatesGrow(a, b);
    } else if DateBefore(b, a) {
      DatesGrow(b, a);
    }
  }

  /* ---------- steps ---------- */

  /** From a day to the next, over the ends of months and years, the same clock is 24 hours later. */
  lemma NextDay(t: Time)
    requires Valid(t)
    ensures
      var last := t.day == DaysIn(t.month, t.year);
      var next := if !last then t.(day := t.day + 1)
                  else if t.month < 12 then t.(month := t.month + 1, day := 1)
                  else t.(year := t.year + 1, month := 1, day := 1);
      Valid(next) && Instant(next) == Instant(t) + 86_400_000_000_000
  {
    TwelveMonths(t.year);
    YearLength(t.year);
  }

  /** An offset of s seconds makes the instant s seconds earlier than the same clock in UTC. */
  lemma OffsetShiftsInstant(t: Time)
    ensures Instant(t) == Instant(t.(offset := 0)) - t.offset * 1_000_000_000
  {
  }

  /** The last days of January and February, and the Unix times of two dates. */
  lemma KnownDates()
    ensures DaysIn(1, 2023) == 31 && DaysIn(2, 2023) == 28 && DaysIn(2, 2024) == 29
    ensures DaysIn(2, 1900) == 28 && DaysIn(2, 2000) == 29 && DaysIn(4, 2024) == 30
    ensures var epoch := Instant(Time(1970, 1, 1, 0, 0, 0, 0, 0));
      && Instant(Time(2024, 3, 1, 0, 0, 0, 0, 0)) == epoch + 1_709_251_200_000_000_000
      && Instant(Time(2000, 1, 1, 0, 0, 0, 0, 0)) == epoch + 946_684_800_000_000_000
  {
  }
}
