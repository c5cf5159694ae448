/** UTC calendar arithmetic of the billing code: one month later, clamped to the
    end of that month, and the date a renewal falls back to. */
module Calendar {
  import opened Prelude

  const SECONDS_PER_DAY := 86400

  datatype Date = Date(year: int, month: int, day: int)

  predicate Leap(year: int) {
    year % 4 == 0 && (year % 100 != 0 || year % 400 == 0)
  }

  function MonthLength(year: int, month: int): (n: int)
    requires 1 <= month <= 12
    ensures 28 <= n <= 31
  {
    if month == 2 then (if Leap(year) then 29 else 28)
    else if month in {4, 6, 9, 11} then 30
    else 31
  }

  predicate ValidDate(d: Date) {
    1 <= d.month <= 12 && 1 <= d.day <= MonthLength(d.year, d.month)
  }

  /** Days from 1 January of year 1 of the proleptic Gregorian calendar to 1 January of `year`. */
  function DaysBeforeYear(year: int): int {
    var y := year - 1;
    365 * y + y / 4 - y / 100 + y / 400
  }

  function DaysBeforeMonth(year: int, month: int): (n: int)
    requires 1 <= month <= 13
    decreases month
  {
    if month == 1 then 0 else DaysBeforeMonth(year, month - 1) + MonthLength(year, month - 1)
  }

  /** Days before the first of a month. */
  function MonthStart(year: int, month: int): int
    requires 1 <= month <= 12
  {
    DaysBeforeYear(year) + DaysBeforeMonth(year, month)
  }

  /** Position of a date on the proleptic Gregorian day line. */
  function DayNumber(d: Date): int
    requires 1 <= d.month <= 12
  {
    MonthStart(d.year, d.month) + d.day
  }

  function NextMonth(year: int, month: int): (int, int) {
    if month == 12 then (year + 1, 1) else (year, month + 1)
  }

  function PreviousMonth(year: int, month: int): (int, int) {
    if month == 1 then (year - 1, 12) else (year, month - 1)
  }

  /** Go's time.Date for a month already in range: a day below 1 or past the month's
      end is carried into the neighbouring months. */
  function CarryDays(year: int, month: int, day: int): (d: Date)
    requires 1 <= month <= 12
    ensures ValidDate(d)
    decreases if day < 1 then 1 - day else 0, if day > MonthLength(year, month) then day else 0
  {
    if day < 1 then
      var (y, m) := PreviousMonth(year, month);
      CarryDays(y, m, day + MonthLength(y, m))
    else if day > MonthLength(year, month) then
      var (y, m) := NextMonth(year, month);
      CarryDays(y, m, day - MonthLength(year, month))
    else
      Date(year, month, day)
  }

  /** Go's time.Date: a month outside 1..12 is carried into the year first. */
  function GoDate(year: int, month: int, day: int): (d: Date)
    ensures ValidDate(d)
  {
    CarryDays(year + (month - 1) / 12, (month - 1) % 12 + 1, day)
  }

  /** addMonthClamped on the date part; the time of day is untouched there. */
  function AddMonthClamped(d: Date): (r: Date)
    requires ValidDate(d)
    ensures ValidDate(r)
  {
    var lastOfNext := GoDate(d.year, d.month + 2, 0).day;
    var day := if d.day > lastOfNext then lastOfNext else d.day;
    GoDate(d.year, d.month + 1, day)
  }

  lemma FourYears(year: int)
    ensures year / 4 - (year - 1) / 4 == if year % 4 == 0 then 1 else 0
  {
    QuotientStep(year, 4, year / 4, year % 4);
  }

  lemma QuotientStep(year: int, n: int, q: int, r: int)
    requires n > 1 && year == n * q + r && 0 <= r < n
    ensures year / n == q && year % n == r
    ensures (year - 1) / n == if r == 0 then q - 1 else q
  {
    Quotient(year, n, q, r);
    if r == 0 {
      assert year - 1 == n * (q - 1) + (n - 1);
      Quotient(year - 1, n, q - 1, n - 1);
    } else {
      Quotient(year - 1, n, q, r - 1);
    }
  }

  lemma Quotient(x: int, n: int, q: int, r: int)
    requires n > 0 && x == n * q + r && 0 <= r < n
    ensures x / n == q && x % n == r
  {
    var d := x / n - q;
    assert n * d == n * (x / n) - n * q;
    Multiples(n, d);
  }

  lemma Multiples(n: int, d: int)
    requires n > 0
    ensures d >= 1 ==> n * d >= n
    ensures d <= -1 ==> n * d <= -n
  {
    assert n * d == n + n * (d - 1);
    assert n * d == -n - n * (-d - 1);
    if d >= 1 {
      assert n * (d - 1) >= 0;
    } else if d <= -1 {
      assert n * (-d - 1) >= 0;
    }
  }

  lemma Century(year: int)
    ensures year / 100 - (year - 1) / 100 == if year % 100 == 0 then 1 else 0
    ensures year % 100 == 0 ==> year % 4 == 0
  {
    QuotientStep(year, 100, year / 100, year % 100);
    if year % 100 == 0 {
      Quotient(year, 4, 25 * (year / 100), 0);
    }
  }

  lemma FourCenturies(year: int)
    ensures year / 400 - (year - 1) / 400 == if year % 400 == 0 then 1 else 0
    ensures year % 400 == 0 ==> year % 100 == 0
  {
    QuotientStep(year, 400, year / 400, year % 400);
    if year % 400 == 0 {
      Quotient(year, 100, 4 * (year / 400), 0);
    }
  }

  lemma YearLength(year: int)
    ensures DaysBeforeYear(year + 1) - DaysBeforeYear(year) == if Leap(year) then 366 else 365
  {
    FourYears(year);
    Century(year);
    FourCenturies(year);
  }

  lemma DaysInYear(year: int)
    ensures DaysBeforeMonth(year, 13) == if Leap(year) then 366 else 365
  {
    assert DaysBeforeMonth(year, 4) == if Leap(year) then 91 else 90;
    assert DaysBeforeMonth(year, 7) == DaysBeforeMonth(year, 4) + 91;
    assert DaysBeforeMonth(year, 10) == DaysBeforeMonth(year, 7) + 92;
    assert DaysBeforeMonth(year, 13) == DaysBeforeMonth(year, 10) + 92;
  }

  /** The first of the next month is MonthLength days after the first of this one. */
  lemma MonthEnd(year: int, month: int)
    requires 1 <= month <= 12
    ensures var (y, m) := NextMonth(year, month);
            MonthStart(y, m) == MonthStart(year, month) + MonthLength(year, month)
  {
    YearLength(year);
    DaysInYear(year);
  }

  /** Carrying days never moves the point on the day line. */
  lemma {:induction false} CarryDaysKeepsDay(year: int, month: int, day: int)
    requires 1 <= month <= 12
    ensures DayNumber(CarryDays(year, month, day)) == DayNumber(Date(year, month, day))
    decreases if day < 1 then 1 - day else 0, if day > MonthLength(year, month) then day else 0
  {
    if day < 1 {
      var (y, m) := PreviousMonth(year, month);
      MonthEnd(y, m);
      CarryDaysKeepsDay(y, m, day + MonthLength(y, m));
    } else if day > MonthLength(year, month) {
      var (y, m) := NextMonth(year, month);
      MonthEnd(year, month);
      CarryDaysKeepsDay(y, m, day - MonthLength(year, month));
    }
  }

  predicate Before(a: Date, b: Date) {
    a.year < b.year || (a.year == b.year && (a.month < b.month || (a.month == b.month && a.day < b.day)))
  }

  lemma {:induction false} YearsAscend(a: int, b: int)
    requires a <= b
    ensures DaysBeforeYear(b) - DaysBeforeYear(a) >= 365 * (b - a)
    decreases b - a
  {
    if a < b {
      YearsAscend(a, b - 1);
      YearLength(b - 1);
    }
  }

  lemma {:induction false} MonthsAscend(year: int, a: int, b: int)
    requires 1 <= a <= b <= 13
    ensures a < b ==> DaysBeforeMonth(year, b) >= DaysBeforeMonth(year, a) + MonthLength(year, a)
    decreases b - a
  {
    if a < b - 1 {
      MonthsAscend(year, a, b - 1);
    }
  }

  /** The day line orders valid dates by year, then month, then day. */
  lemma DayNumberOrders(a: Date, b: Date)
    requires ValidDate(a) && ValidDate(b)
    ensures Before(a, b) <==> DayNumber(a) < DayNumber(b)
  {
    if Before(a, b) {
      DayNumberAscends(a, b);
    } else if Before(b, a) {
      DayNumberAscends(b, a);
    } else {
      assert a == b;
    }
  }

  lemma DayNumberAscends(a: Date, b: Date)
    requires ValidDate(a) && ValidDate(b) && Before(a, b)
    ensures DayNumber(a) < DayNumber(b)
  {
    if a.year == b.year {
      MonthsAscend(a.year, a.month, b.month);
    } else {
      MonthsAscend(a.year, a.month, 13);
      MonthsAscend(b.year, 1, b.month);
      DaysInYear(a.year);
      YearLength(a.year);
      YearsAscend(a.year + 1, b.year);
    }
  }

  /** The month step lands in the next calendar month, on the same day of the month or,
      when that month is shorter, on its last day. */
  lemma MonthStepLandsInNextMonth(d: Date)
    requires ValidDate(d)
    ensures var (y, m) := NextMonth(d.year, d.month);
            AddMonthClamped(d) == Date(y, m, if d.day < MonthLength(y, m) then d.day else MonthLength(y, m))
  {
    var (y, m) := NextMonth(d.year, d.month);
    assert GoDate(d.year, d.month + 2, 0) == Date(y, m, MonthLength(y, m)) by {
      var (y2, m2) := NextMonth(y, m);
      assert (d.year + (d.month + 1) / 12, (d.month + 1) % 12 + 1) == (y2, m2);
      assert PreviousMonth(y2, m2) == (y, m);
      assert CarryDays(y2, m2, 0) == CarryDays(y, m, MonthLength(y, m));
    }
    assert (d.year + d.month / 12, d.month % 12 + 1) == (y, m);
  }

  /** ... and is 28 to 31 days later. */
  lemma MonthStepDistance(d: Date)
    requires ValidDate(d)
    ensures 28 <= DayNumber(AddMonthClamped(d)) - DayNumber(d) <= 31
  {
    MonthStepLandsInNextMonth(d);
    MonthEnd(d.year, d.month);
  }

  /** A later date never steps to an earlier one, across December and leap Februaries too. */
  lemma MonthStepMonotone(a: Date, b: Date)
    requires ValidDate(a) && ValidDate(b)
    requires DayNumber(a) <= DayNumber(b)
    ensures DayNumber(AddMonthClamped(a)) <= DayNumber(AddMonthClamped(b))
  {
    DayNumberOrders(b, a);
    MonthStepLandsInNextMonth(a);
    MonthStepLandsInNextMonth(b);
    DayNumberOrders(AddMonthClamped(b), AddMonthClamped(a));
  }

  // ----- Instants -----

  /** The date of a day counted from 1970-01-01. */
  function CivilOf(day: int): (d: Date)
    ensures ValidDate(d)
  {
    CarryDays(1970, 1, 1 + day)
  }

  /** The day a date stands for, counted from 1970-01-01. */
  function EpochDay(d: Date): int
    requires ValidDate(d)
  {
    DayNumber(d) - MonthStart(1970, 1) - 1
  }

  /** Dates and days counted from 1970-01-01 are in one-to-one correspondence. */
  lemma CivilRoundTrip(d: Date, day: int)
    requires ValidDate(d)
    ensures CivilOf(EpochDay(d)) == d
    ensures EpochDay(CivilOf(day)) == day
  {
    CarryDaysKeepsDay(1970, 1, 1 + EpochDay(d));
    CarryDaysKeepsDay(1970, 1, 1 + day);
    DayNumberOrders(CivilOf(EpochDay(d)), d);
    DayNumberOrders(d, CivilOf(EpochDay(d)));
  }

  /** addMonthClamped on an instant, in seconds since 1970-01-01 UTC. */
  function AddMonth(t: int): int {
    EpochDay(AddMonthClamped(CivilOf(t / SECONDS_PER_DAY))) * SECONDS_PER_DAY + t % SECONDS_PER_DAY
  }

  /** A month later is 28 to 31 days later at the same time of day, on the stepped date. */
  lemma AddMonthDistance(t: int)
    ensures 28 * SECONDS_PER_DAY <= AddMonth(t) - t <= 31 * SECONDS_PER_DAY
    ensures AddMonth(t) % SECONDS_PER_DAY == t % SECONDS_PER_DAY
    ensures CivilOf(AddMonth(t) / SECONDS_PER_DAY) == AddMonthClamped(CivilOf(t / SECONDS_PER_DAY))
  {
    var day, second := t / SECONDS_PER_DAY, t % SECONDS_PER_DAY;
    var from := CivilOf(day);
    var to := AddMonthClamped(from);
    CivilRoundTrip(to, day);
    MonthStepDistance(from);
    DayAndSecond(EpochDay(to), second);
  }

  lemma DayAndSecond(day: int, second: int)
    requires 0 <= second < SECONDS_PER_DAY
    ensures (day * SECONDS_PER_DAY + second) / SECONDS_PER_DAY == day
    ensures (day * SECONDS_PER_DAY + second) % SECONDS_PER_DAY == second
  {
  }

  /** renewalNextCharge: Mollie's next payment date when it gives one, else the previous
      date, stepped by a month once it has been reached. */
  function RenewalNextCharge(mollieDate: Option<int>, previous: Option<int>, now: int): Option<int> {
    if mollieDate.Some? then mollieDate
    else if previous.None? || previous.value > now then previous
    else Some(AddMonth(previous.value))
  }

  /** Without a date from Mollie, a renewal keeps a missing date missing, never moves the
      charge date back, and moves it (28 to 31 days on) exactly when it has been reached. */
  lemma RenewalFallbackNeverMovesBack(previous: Option<int>, now: int)
    ensures var r := RenewalNextCharge(None, previous, now);
            && r.None? == previous.None?
            && (r.Some? ==> r.value >= previous.value)
            && (r.Some? ==> (r.value != previous.value <==> previous.value <= now))
            && (r.Some? && r != previous ==>
                  28 * SECONDS_PER_DAY <= r.value - previous.value <= 31 * SECONDS_PER_DAY)
  {
    if previous.Some? {
      AddMonthDistance(previous.value);
    }
  }
}
