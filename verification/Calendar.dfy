/**
  When the panel next resets a client's traffic, counted in calendar days: the
  earliest date after today with a given day of the month or a given weekday.
 */
module Calendar {

  // -------------------------------------------------------------------- dates

  datatype Date = Date(year: int, month: int, day: int)

  predicate Leap(year: int) {
    year % 4 == 0 && (year % 100 != 0 || year % 400 == 0)
  }

  function Days(year: int, month: int): (n: int)
    ensures 28 <= n <= 31
  {
    if month == 2 then if Leap(year) then 29 else 28
    else if month in {4, 6, 9, 11} then 30 else 31
  }

  predicate Valid(d: Date) {
    1 <= d.month <= 12 && 1 <= d.day <= Days(d.year, d.month)
  }

  predicate After(a: Date, b: Date) {
    a.year > b.year || (a.year == b.year && (a.month > b.month || (a.month == b.month && a.day > b.day)))
  }

  /** Tomorrow. */
  function NextDay(d: Date): Date {
    if d.day < Days(d.year, d.month) then Date(d.year, d.month, d.day + 1)
    else if d.month < 12 then Date(d.year, d.month + 1, 1)
    else Date(d.year + 1, 1, 1)
  }

  function PlusDays(d: Date, n: nat): Date {
    if n == 0 then d else NextDay(PlusDays(d, n - 1))
  }

  /** time.Date for a day of at most 31: an overflow runs into the next month. */
  function Normalized(year: int, month: int, day: int): Date {
    if day <= Days(year, month) then Date(year, month, day)
    else if month < 12 then Date(year, month + 1, day - Days(year, month))
    else Date(year + 1, 1, day - Days(year, month))
  }

  // --------------------------------------------------------------- day numbers

  function BeforeYear(year: int): int {
    365 * year + (year + 3) / 4 - (year + 99) / 100 + (year + 399) / 400
  }

  function BeforeMonth(year: int, month: int): int {
    var feb := if Leap(year) then 29 else 28;
    match month
    case 1 => 0
    case 2 => 31
    case 3 => 31 + feb
    case 4 => 62 + feb
    case 5 => 92 + feb
    case 6 => 123 + feb
    case 7 => 153 + feb
    case 8 => 184 + feb
    case 9 => 215 + feb
    case 10 => 245 + feb
    case 11 => 276 + feb
    case 12 => 306 + feb
    case _ => 337 + feb
  }

  /** Days since the first of January of the year 0. */
  function Number(d: Date): int {
    BeforeYear(d.year) + BeforeMonth(d.year, d.month) + d.day - 1
  }

  /** A quotient grows by one where the divisor divides. */
  lemma Steps(y: int, k: int)
    requires k in {4, 100, 400}
    ensures (y + k) / k - (y + (k - 1)) / k == if y % k == 0 then 1 else 0
  {
    var (q, r) := (y / k, y % k);
    Quotient(y + k, k, q + 1, r);
    if r == 0 {
      Quotient(y + (k - 1), k, q, k - 1);
    } else {
      Quotient(y + (k - 1), k, q + 1, r - 1);
    }
  }

  lemma Quotient(x: int, k: int, q: int, r: int)
    requires k in {4, 100, 400} && x == k * q + r && 0 <= r < k
    ensures x / k == q
  {
  }

  lemma Multiple(y: int, k: int, m: int)
    requires (k, m) in {(100, 4), (400, 100)} && y % k == 0
    ensures y % m == 0
  {
    var (q, f) := (y / k, k / m);
    Quotient(y, m, f * q, 0);
  }

  /** Every four hundredth year is a hundredth, and every hundredth a fourth. */
  lemma Multiples(y: int)
    ensures y % 400 == 0 ==> y % 100 == 0
    ensures y % 100 == 0 ==> y % 4 == 0
  {
    if y % 400 == 0 {
      Multiple(y, 400, 100);
    }
    if y % 100 == 0 {
      Multiple(y, 100, 4);
    }
  }

  lemma YearLength(year: int)
    ensures BeforeYear(year + 1) == BeforeYear(year) + if Leap(year) then 366 else 365
  {
    Steps(year, 4);
    Steps(year, 100);
    Steps(year, 400);
    Multiples(year);
    assert BeforeYear(year + 1) == 365 * year + 365 + (year + 4) / 4 - (year + 100) / 100 + (year + 400) / 400;
  }

  /** Day numbers count days: tomorrow's is one more. */
  lemma NumberCounts(d: Date)
    requires Valid(d)
    ensures Valid(NextDay(d)) && Number(NextDay(d)) == Number(d) + 1
  {
    YearLength(d.year);
  }

  lemma {:induction false} PlusDaysNumber(d: Date, n: nat)
    requires Valid(d)
    ensures Valid(PlusDays(d, n)) && Number(PlusDays(d, n)) == Number(d) + n
  {
    if n > 0 {
      PlusDaysNumber(d, n - 1);
      NumberCounts(PlusDays(d, n - 1));
    }
  }

  lemma {:induction false} YearsGrow(a: int, b: int)
    requires a < b
    ensures BeforeYear(a + 1) <= BeforeYear(b)
    decreases b - a
  {
    if a + 1 < b {
      YearLength(b - 1);
      YearsGrow(a, b - 1);
    }
  }

  lemma WithinYear(d: Date)
    requires Valid(d)
    ensures BeforeYear(d.year) <= Number(d) < BeforeYear(d.year + 1)
  {
    YearLength(d.year);
  }

  /** Later dates have larger numbers, and only they. */
  lemma AfterIsLater(a: Date, b: Date)
    requires Valid(a) && Valid(b)
    ensures After(a, b) <==> Number(a) > Number(b)
  {
    WithinYear(a);
    WithinYear(b);
    if a.year > b.year {
      YearsGrow(b.year, a.year);
    } else if a.year < b.year {
      YearsGrow(a.year, b.year);
    }
  }

  // ------------------------------------------------------------ monthly resets

  /** Months counted through the years. */
  function MonthOf(d: Date): int {
    12 * d.year + d.month
  }

  ghost predicate NextWithDay(r: Date, today: Date, day: int) {
    && Valid(r) && r.day == day && After(r, today)
    && forall d: Date :: Valid(d) && d.day == day && After(d, today) ==> !After(r, d)
  }

  /** The loop of nextMonthlyReset; `tries` counts its iterations. */
  method NextMonthlyReset(today: Date, day: int) returns (next: Date, tries: nat)
    requires Valid(today) && 1 <= day <= 31
    ensures NextWithDay(next, today, day)
    ensures 1 <= tries <= 3 && MonthOf(next) == MonthOf(today) + tries - 1
  {
    var year, month := today.year, today.month;
    tries := 0;
    while tries < 13
      invariant 1 <= month <= 12 && MonthOf(Date(year, month, 1)) == MonthOf(today) + tries
      invariant forall d: Date :: Valid(d) && d.day == day && After(d, today) ==> MonthOf(d) >= MonthOf(today) + tries
      invariant tries <= 2
      invariant tries == 2 ==> day <= Days(year, month)
    {
      var candidate := Normalized(year, month, day);
      tries := tries + 1;
      if candidate.day == day && After(candidate, today) {
        return candidate, tries;
      }
      month := month + 1;
      if month > 12 {
        month := 1;
        year := year + 1;
      }
    }
    assert false;
  }

  /** How many days the shown countdown has. */
  function FullDays(from: Date, to: Date): int {
    Number(to) - Number(from)
  }

  function FirstOfNext(year: int, month: int): Date {
    if month == 12 then Date(year + 1, 1, 1) else Date(year, month + 1, 1)
  }

  lemma MonthLength(year: int, month: int)
    requires 1 <= month <= 12
    ensures Number(FirstOfNext(year, month)) == Number(Date(year, month, 1)) + Days(year, month)
  {
    YearLength(year);
  }

  /** Some date with the wanted day lies within 61 days. */
  lemma SoonEnough(today: Date, day: int) returns (d: Date)
    requires Valid(today) && 1 <= day <= 31
    ensures Valid(d) && d.day == day && 1 <= Number(d) - Number(today) <= 61
  {
    var one := FirstOfNext(today.year, today.month);
    var two := FirstOfNext(one.year, one.month);
    MonthLength(today.year, today.month);
    MonthLength(one.year, one.month);
    if today.day < day <= Days(today.year, today.month) {
      d := today.(day := day);
    } else if day <= Days(one.year, one.month) {
      d := one.(day := day);
    } else {
      d := two.(day := day);
    }
  }

  /** The next date with a day of the month is 1 to 61 days away, and no day before it has that day. */
  lemma MonthlyCountdown(today: Date, day: int, next: Date)
    requires Valid(today) && NextWithDay(next, today, day)
    ensures 1 <= FullDays(today, next) <= 61
    ensures PlusDays(today, FullDays(today, next)) == next
    ensures forall k :: 0 < k < FullDays(today, next) ==> PlusDays(today, k).day != day
  {
    AfterIsLater(next, today);
    var d := SoonEnough(today, day);
    AfterIsLater(d, today);
    AfterIsLater(next, d);
    SameNumberSameDate(today, next);
    forall k | 0 < k < FullDays(today, next)
      ensures PlusDays(today, k).day != day
    {
      var p := PlusDays(today, k);
      PlusDaysNumber(today, k);
      AfterIsLater(p, today);
      AfterIsLater(next, p);
    }
  }

  lemma SameNumberSameDate(today: Date, next: Date)
    requires Valid(today) && Valid(next) && Number(next) >= Number(today)
    ensures PlusDays(today, FullDays(today, next)) == next
  {
    var p := PlusDays(today, FullDays(today, next));
    PlusDaysNumber(today, FullDays(today, next));
    AfterIsLater(p, next);
    AfterIsLater(next, p);
  }

  // ------------------------------------------------------------- weekly resets

  /** 0 is Sunday; the first of January of the year 0 was a Saturday. */
  function Weekday(d: Date): int {
    (Number(d) + 6) % 7
  }

  /** The first week of 2024 began on its first day. */
  lemma KnownWeek(day: int)
    requires 1 <= day <= 7
    ensures Weekday(Date(2024, 1, day)) == day % 7
    ensures forall weekday :: 1 <= weekday <= 7 ==> (OnPanelWeekday(Date(2024, 1, day), weekday) <==> weekday == day)
  {
    assert BeforeYear(2024) == 739251;
  }

  /** The panel counts Monday as 1 up to Sunday as 7. */
  predicate OnPanelWeekday(d: Date, weekday: int) {
    Weekday(d) == weekday % 7
  }

  function WeeklyDelta(today: Date, weekday: int): (delta: nat)
    ensures 1 <= delta <= 7
  {
    var delta := (weekday % 7 - Weekday(today) + 7) % 7;
    if delta == 0 then 7 else delta
  }

  function NextWeeklyReset(today: Date, weekday: int): Date {
    PlusDays(today, WeeklyDelta(today, weekday))
  }

  /** The weekly reset is on the wanted weekday, within a week, and no earlier day after today is. */
  lemma WeeklyCountdown(today: Date, weekday: int)
    requires Valid(today) && 1 <= weekday <= 7
    ensures var next := NextWeeklyReset(today, weekday);
            && Valid(next) && OnPanelWeekday(next, weekday) && 1 <= FullDays(today, next) <= 7
            && forall k :: 0 < k < FullDays(today, next) ==> !OnPanelWeekday(PlusDays(today, k), weekday)
  {
    var n := WeeklyDelta(today, weekday);
    PlusDaysNumber(today, n);
    WeekdayLater(today, n);
    WeekdayHit(Weekday(today), weekday, n);
    forall k | 0 < k < n
      ensures !OnPanelWeekday(PlusDays(today, k), weekday)
    {
      WeekdayLater(today, k);
      WeekdayHit(Weekday(today), weekday, k);
    }
  }

  lemma WeekdayLater(d: Date, n: nat)
    requires Valid(d)
    ensures Weekday(PlusDays(d, n)) == (Weekday(d) + n) % 7
  {
    PlusDaysNumber(d, n);
    Mod7(Number(d) + 6, n);
  }

  lemma Mod7(a: int, n: nat)
    ensures (a + n) % 7 == (a % 7 + n) % 7
  {
    var q := a / 7;
    assert a == 7 * q + a % 7;
    assert (a + n) - (a % 7 + n) == 7 * q;
  }

  /** With seven weekdays, only one delta below the chosen one could match, and none does. */
  lemma WeekdayHit(today: int, weekday: int, k: int)
    requires 0 <= today < 7 && 1 <= weekday <= 7 && 0 < k <= 7
    ensures (today + k) % 7 == weekday % 7 <==>
              k == (if (weekday % 7 - today + 7) % 7 == 0 then 7 else (weekday % 7 - today + 7) % 7)
  {
  }

  // ------------------------------------------------------------- what is shown

  datatype Period = Never | Daily | Monthly(day: int) | Weekly(weekday: int) | Unsupported

  datatype Display = NeverResets | Unknown | Today | InDays(days: int)

  function Countdown(today: Date, next: Date): Display {
    if FullDays(today, next) == 0 then Today else InDays(FullDays(today, next))
  }

  /** describeTrafficReset: a countdown is always to the earliest reset after today. */
  method DescribeTrafficReset(today: Date, period: Period) returns (shown: Display)
    requires Valid(today)
    ensures shown.NeverResets? <==> period.Never?
    ensures shown.Unknown? <==>
              || period.Unsupported?
              || (period.Monthly? && !(0 <= period.day <= 31))
              || (period.Weekly? && !(1 <= period.weekday <= 7))
    ensures !shown.Today?
    ensures period.Daily? ==> shown == InDays(1)
    ensures shown.InDays? && period.Monthly? ==>
              && 1 <= shown.days <= 61
              && NextWithDay(PlusDays(today, shown.days), today, if period.day == 0 then 1 else period.day)
    ensures shown.InDays? && period.Weekly? ==>
              && 1 <= shown.days <= 7 && OnPanelWeekday(PlusDays(today, shown.days), period.weekday)
              && forall k :: 0 < k < shown.days ==> !OnPanelWeekday(PlusDays(today, k), period.weekday)
  {
    match period {
      case Never => shown := NeverResets;
      case Daily =>
        NumberCounts(today);
        shown := Countdown(today, NextDay(today));
      case Monthly(d) =>
        var day := if d == 0 then 1 else d;
        if day < 0 || day > 31 {
          return Unknown;
        }
        var next, _ := NextMonthlyReset(today, day);
        MonthlyCountdown(today, day, next);
        shown := Countdown(today, next);
      case Weekly(weekday) =>
        if weekday < 1 || weekday > 7 {
          return Unknown;
        }
        WeeklyCountdown(today, weekday);
        PlusDaysNumber(today, WeeklyDelta(today, weekday));
        shown := Countdown(today, NextWeeklyReset(today, weekday));
      case Unsupported => shown := Unknown;
    }
  }
}
