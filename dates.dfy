/**
 * Proleptic Gregorian calendar dates as (year, month, day) with a bijection to
 * a day count (0001-01-01 is day 0, a Monday). This is the date arithmetic of
 * Python's datetime.date / timedelta / dateutil.relativedelta and of the
 * JavaScript Date calls the front end makes, at day granularity.
 */
module Dates {
  import opened Wrappers
  import opened Strings

  datatype Date = Date(year: int, month: int, day: int)

  predicate IsLeap(y: int) { y % 4 == 0 && (y % 100 != 0 || y % 400 == 0) }

  function DaysInMonth(y: int, m: int): (n: int)
    requires 1 <= m <= 12
    ensures 28 <= n <= 31
    ensures n == 29 <==> m == 2 && IsLeap(y)
  {
    if m == 2 then (if IsLeap(y) then 29 else 28)
    else if m == 4 || m == 6 || m == 9 || m == 11 then 30
    else 31
  }

  predicate Valid(d: Date) {
    1 <= d.month <= 12 && 1 <= d.day <= DaysInMonth(d.year, d.month)
  }

  /** A date that exists in the calendar. */
  type CalDate = d: Date | Valid(d) witness Date(1, 1, 1)

  function YearLength(y: int): int { if IsLeap(y) then 366 else 365 }

  /** Days from 0001-01-01 to 1 January of year y (negative before year 1). */
  function DaysBeforeYear(y: int): int
    decreases if y >= 1 then y - 1 else 1 - y
  {
    if y == 1 then 0
    else if y > 1 then DaysBeforeYear(y - 1) + YearLength(y - 1)
    else DaysBeforeYear(y + 1) - YearLength(y)
  }

  /** Days from 1 January to the first of month m. */
  function DaysBeforeMonth(y: int, m: int): (n: int)
    requires 1 <= m <= 12
    ensures 0 <= n && n + DaysInMonth(y, m) <= YearLength(y)
    ensures m == 12 ==> n + DaysInMonth(y, m) == YearLength(y)
  {
    [0, 31, 59, 90, 120, 151, 181, 212, 243, 273, 304, 334][m - 1]
      + (if m > 2 && IsLeap(y) then 1 else 0)
  }

  lemma DaysBeforeMonthStep(y: int, m: int)
    requires 1 <= m < 12
    ensures DaysBeforeMonth(y, m + 1) == DaysBeforeMonth(y, m) + DaysInMonth(y, m)
  {
  }

  /** The day count: the number of days since 0001-01-01. */
  function ToDays(d: CalDate): int {
    DaysBeforeYear(d.year) + DaysBeforeMonth(d.year, d.month) + d.day - 1
  }

  const Epoch: CalDate := Date(1, 1, 1)

  lemma DaysBeforeYearStep(y: int)
    ensures DaysBeforeYear(y + 1) == DaysBeforeYear(y) + YearLength(y)
  {
  }

  lemma {:induction false} DaysBeforeYearMonotone(a: int, b: int)
    requires a < b
    ensures DaysBeforeYear(a) + YearLength(a) <= DaysBeforeYear(b)
    decreases b - a
  {
    DaysBeforeYearStep(a);
    if a + 1 < b {
      DaysBeforeYearMonotone(a + 1, b);
    }
  }

  /** The day of year, 0 for 1 January. */
  lemma DayOfYearBounds(d: CalDate)
    ensures 0 <= ToDays(d) - DaysBeforeYear(d.year) < YearLength(d.year)
  {
  }

  /** The following day. */
  function NextDay(d: CalDate): (r: CalDate)
    ensures Before(d, r)
  {
    if d.day < DaysInMonth(d.year, d.month) then Date(d.year, d.month, d.day + 1)
    else if d.month < 12 then Date(d.year, d.month + 1, 1)
    else Date(d.year + 1, 1, 1)
  }

  lemma NextDayCount(d: CalDate)
    ensures ToDays(NextDay(d)) == ToDays(d) + 1
  {
    if d.day == DaysInMonth(d.year, d.month) {
      if d.month < 12 {
        DaysBeforeMonthStep(d.year, d.month);
      } else {
        DaysBeforeYearStep(d.year);
      }
    }
  }

  /** The preceding day. */
  function PrevDay(d: CalDate): (r: CalDate)
    ensures Before(r, d)
  {
    if d.day > 1 then Date(d.year, d.month, d.day - 1)
    else if d.month > 1 then Date(d.year, d.month - 1, DaysInMonth(d.year, d.month - 1))
    else Date(d.year - 1, 12, 31)
  }

  lemma PrevDayCount(d: CalDate)
    ensures ToDays(PrevDay(d)) == ToDays(d) - 1
  {
    if d.day == 1 {
      if d.month > 1 {
        DaysBeforeMonthStep(d.year, d.month - 1);
      } else {
        DaysBeforeYearStep(d.year - 1);
      }
    }
  }

  /** `d + timedelta(days=n)`; also JavaScript's setDate(getDate() + n). */
  function AddDays(d: CalDate, n: int): (r: CalDate)
    ensures ToDays(r) == ToDays(d) + n
    decreases if n >= 0 then n else -n
  {
    if n == 0 then d
    else if n > 0 then
      NextDayCount(d);
      AddDays(NextDay(d), n - 1)
    else
      PrevDayCount(d);
      AddDays(PrevDay(d), n + 1)
  }

  /** `(b - a).days` */
  function DaysBetween(a: CalDate, b: CalDate): int { ToDays(b) - ToDays(a) }

  /** Calendar order: year first, then month, then day. */
  predicate Before(a: Date, b: Date) {
    a.year < b.year || (a.year == b.year && (a.month < b.month || (a.month == b.month && a.day < b.day)))
  }

  lemma {:induction false} DaysBeforeMonthMonotone(y: int, a: int, b: int)
    requires 1 <= a < b <= 12
    ensures DaysBeforeMonth(y, a) + DaysInMonth(y, a) <= DaysBeforeMonth(y, b)
    decreases b - a
  {
    DaysBeforeMonthStep(y, a);
    if a + 1 < b {
      DaysBeforeMonthMonotone(y, a + 1, b);
    }
  }

  /** The day count orders dates exactly as the calendar does. */
  lemma BeforeIffFewerDays(a: CalDate, b: CalDate)
    ensures Before(a, b) <==> ToDays(a) < ToDays(b)
  {
    if a.year < b.year {
      DaysBeforeYearMonotone(a.year, b.year);
    } else if b.year < a.year {
      DaysBeforeYearMonotone(b.year, a.year);
    } else if a.month < b.month {
      DaysBeforeMonthMonotone(a.year, a.month, b.month);
    } else if b.month < a.month {
      DaysBeforeMonthMonotone(a.year, b.month, a.month);
    }
  }

  lemma ToDaysInjective(a: CalDate, b: CalDate)
    requires ToDays(a) == ToDays(b)
    ensures a == b
  {
    BeforeIffFewerDays(a, b);
    BeforeIffFewerDays(b, a);
  }

  /** The inverse of the day count. */
  function FromDays(n: int): (d: CalDate)
    ensures ToDays(d) == n
  {
    AddDays(Epoch, n)
  }

  lemma DayCountBijection(d: CalDate, n: int)
    ensures FromDays(ToDays(d)) == d
    ensures ToDays(FromDays(n)) == n
  {
    ToDaysInjective(FromDays(ToDays(d)), d);
  }

  lemma AddDaysCompose(d: CalDate, m: int, n: int)
    ensures AddDays(AddDays(d, m), n) == AddDays(d, m + n)
  {
    ToDaysInjective(AddDays(AddDays(d, m), n), AddDays(d, m + n));
  }

  /** Python's date.weekday(): Monday is 0, Sunday is 6. */
  function Weekday(d: CalDate): (w: int)
    ensures 0 <= w < 7
  {
    ToDays(d) % 7
  }

  /** JavaScript's Date.prototype.getDay(): Sunday is 0, Saturday is 6. */
  function JsDay(d: CalDate): (w: int)
    ensures 0 <= w < 7
    ensures w == (Weekday(d) + 1) % 7
  {
    (ToDays(d) + 1) % 7
  }

  function FirstOfMonth(d: CalDate): (r: CalDate)
    ensures r.year == d.year && r.month == d.month && r.day == 1
    ensures ToDays(r) == ToDays(d) - (d.day - 1)
  {
    Date(d.year, d.month, 1)
  }

  function LastOfMonth(d: CalDate): (r: CalDate)
    ensures r.year == d.year && r.month == d.month && r.day == DaysInMonth(d.year, d.month)
    ensures ToDays(d) <= ToDays(r)
  {
    Date(d.year, d.month, DaysInMonth(d.year, d.month))
  }

  function Jan1(y: int): (r: CalDate)
    ensures ToDays(r) == DaysBeforeYear(y)
  {
    Date(y, 1, 1)
  }

  function Dec31(y: int): (r: CalDate)
    ensures ToDays(r) == DaysBeforeYear(y + 1) - 1
  {
    DaysBeforeYearStep(y);
    Date(y, 12, 31)
  }

  /**
   * `d + relativedelta(months=k)`: the month moves by k and the day is clamped
   * to the length of the target month.
   */
  function AddMonths(d: CalDate, k: int): (r: CalDate)
    ensures r.year * 12 + r.month == d.year * 12 + d.month + k
    ensures r.day == if d.day <= DaysInMonth(r.year, r.month) then d.day else DaysInMonth(r.year, r.month)
  {
    var total := d.year * 12 + (d.month - 1) + k;
    var y, m := total / 12, total % 12 + 1;
    Date(y, m, if d.day <= DaysInMonth(y, m) then d.day else DaysInMonth(y, m))
  }

  /** `d + relativedelta(years=k)`: 29 February becomes 28 February in a common year. */
  function AddYears(d: CalDate, k: int): (r: CalDate)
    ensures r.year == d.year + k && r.month == d.month
    ensures r.day == if d.day <= DaysInMonth(r.year, r.month) then d.day else DaysInMonth(r.year, r.month)
  {
    var y := d.year + k;
    Date(y, d.month, if d.day <= DaysInMonth(y, d.month) then d.day else DaysInMonth(y, d.month))
  }

  lemma AddMonthsLater(d: CalDate, k: int)
    requires k > 0
    ensures ToDays(d) < ToDays(AddMonths(d, k))
  {
    BeforeIffFewerDays(d, AddMonths(d, k));
  }

  lemma AddYearsLater(d: CalDate, k: int)
    requires k > 0
    ensures ToDays(d) < ToDays(AddYears(d, k))
  {
    BeforeIffFewerDays(d, AddYears(d, k));
  }

  /** Calendar order is transitive. */
  lemma BeforeTransitive(a: Date, b: Date, c: Date)
    requires Before(a, b) && Before(b, c)
    ensures Before(a, c)
  {
  }

  /** A sequence of dates that moves forward at every step moves forward between any two indices. */
  lemma {:induction false} RisingChain(f: nat -> Date, i: nat, j: nat)
    requires forall k: nat :: Before(f(k), f(k + 1))
    requires i < j
    ensures Before(f(i), f(j))
    decreases j
  {
    if i < j - 1 {
      RisingChain(f, i, j - 1);
      BeforeTransitive(f(i), f(j - 1), f(j));
    }
  }

  /** Seven days on, within the month, into the next month or into the next year. */
  function WeekLater(d: CalDate): (r: CalDate)
    ensures Before(d, r)
  {
    var n := DaysInMonth(d.year, d.month);
    if d.day + 7 <= n then Date(d.year, d.month, d.day + 7)
    else if d.month < 12 then Date(d.year, d.month + 1, d.day + 7 - n)
    else Date(d.year + 1, 1, d.day + 7 - n)
  }

  lemma WeekLaterCount(d: CalDate)
    ensures ToDays(WeekLater(d)) == ToDays(d) + 7
  {
    if d.day + 7 > DaysInMonth(d.year, d.month) {
      if d.month < 12 {
        DaysBeforeMonthStep(d.year, d.month);
      } else {
        DaysBeforeYearStep(d.year);
      }
    }
  }

  /** One calendar month on, the day clamped to the next month's length. */
  function MonthLater(d: CalDate): (r: CalDate)
    ensures r.year * 12 + r.month == d.year * 12 + d.month + 1
    ensures r.day == if d.day <= DaysInMonth(r.year, r.month) then d.day else DaysInMonth(r.year, r.month)
    ensures Before(d, r)
  {
    if d.month < 12 then Date(d.year, d.month + 1, if d.day <= DaysInMonth(d.year, d.month + 1) then d.day else DaysInMonth(d.year, d.month + 1))
    else Date(d.year + 1, 1, d.day)
  }

  /** One calendar year on, 29 February becoming 28 February. */
  function YearLater(d: CalDate): (r: CalDate)
    ensures r.year == d.year + 1 && r.month == d.month
    ensures r.day == if d.day <= DaysInMonth(r.year, r.month) then d.day else DaysInMonth(r.year, r.month)
    ensures Before(d, r)
  {
    Date(d.year + 1, d.month, if d.day <= DaysInMonth(d.year + 1, d.month) then d.day else DaysInMonth(d.year + 1, d.month))
  }

  /**
   * JavaScript's setMonth(getMonth() + k): the month moves by k and a day past
   * the end of the target month overflows into the following month.
   */
  function JsShiftMonths(d: CalDate, k: int): (r: CalDate)
    ensures ToDays(r) == ToDays(AddMonths(FirstOfMonth(d), k)) + d.day - 1
  {
    AddDays(AddMonths(FirstOfMonth(d), k), d.day - 1)
  }

  lemma JsShiftMonthsAgreesWhenDayFits(d: CalDate, k: int)
    requires d.day <= DaysInMonth(AddMonths(d, k).year, AddMonths(d, k).month)
    ensures JsShiftMonths(d, k) == AddMonths(d, k)
  {
    ToDaysInjective(JsShiftMonths(d, k), AddMonths(d, k));
  }

  /** Monday of the week containing d (Python: `d - timedelta(days=d.weekday())`). */
  function MondayOf(d: CalDate): (r: CalDate)
    ensures Weekday(r) == 0
    ensures 0 <= ToDays(d) - ToDays(r) < 7
  {
    var r := AddDays(d, -Weekday(d));
    StepBackToMultiple(ToDays(d));
    r
  }

  lemma StepBackToMultiple(n: int)
    ensures (n - n % 7) % 7 == 0
  {
    assert n - n % 7 == (n / 7) * 7;
  }

  /** getDay() || 7 is the ISO day number 1..7, one more than weekday(). */
  lemma IsoDayNumber(n: int)
    ensures (if (n + 1) % 7 == 0 then 7 else (n + 1) % 7) == n % 7 + 1
    ensures (n + 3 - n % 7) % 7 == 3
  {
    StepBackToMultiple(n);
    assert n == (n / 7) * 7 + n % 7;
    assert n + 1 == (n / 7) * 7 + (n % 7 + 1);
    assert n + 3 - n % 7 == (n / 7) * 7 + 3;
  }

  /**
   * The ISO 8601 week number as getWeekNumber computes it: move to the
   * Thursday of d's Monday-to-Sunday week, then count the weeks of that
   * Thursday's year (ISO 8601:2004 section 4.1.4, week 1 holds the year's
   * first Thursday).
   */
  function IsoThursday(d: CalDate): (t: CalDate)
    ensures Weekday(t) == 3
    ensures ToDays(MondayOf(d)) + 3 == ToDays(t)
  {
    var dayNum := if JsDay(d) == 0 then 7 else JsDay(d);
    IsoDayNumber(ToDays(d));
    AddDays(d, 4 - dayNum)
  }

  function IsoWeek(d: CalDate): (w: int)
    ensures 1 <= w <= 53
    ensures w == (ToDays(IsoThursday(d)) - ToDays(Jan1(IsoThursday(d).year))) / 7 + 1
  {
    var t := IsoThursday(d);
    var doy := ToDays(t) - ToDays(Jan1(t.year));
    DayOfYearBounds(t);
    (doy + 1 + 6) / 7
  }

  /** Week 1 is the week that holds the first Thursday of the year. */
  lemma IsoWeekOneHoldsFirstThursday(d: CalDate)
    ensures IsoWeek(d) == 1 <==> IsoThursday(d).month == 1 && IsoThursday(d).day <= 7
  {
  }

  /** The English month abbreviation: strftime's `%b` in the C locale, and `{month: 'short'}` in en-US. */
  function MonthAbbrev(m: int): (r: string)
    requires 1 <= m <= 12
    ensures |r| == 3
  {
    ["Jan", "Feb", "Mar", "Apr", "May", "Jun", "Jul", "Aug", "Sep", "Oct", "Nov", "Dec"][m - 1]
  }

  /** `strftime('%b %Y')`, for years 1000 to 9999 where `%Y` has four digits. */
  function MonthYear(d: CalDate): string {
    MonthAbbrev(d.month) + " " + IntToString(d.year)
  }

  /** `strftime('%b %d')`: the day zero-padded to two digits. */
  function MonthDay(d: CalDate): (r: string)
    ensures |r| == 6
  {
    MonthAbbrev(d.month) + " " + TwoDigits(d.day)
  }

  /** JavaScript's `YYYY-MM-DD` rendering with zero-padded month and day. */
  function FormatIso(d: CalDate): string {
    IntToString(d.year) + "-" + PadLeft(NatToString(d.month), 2, '0') + "-" + PadLeft(NatToString(d.day), 2, '0')
  }

  /**
   * `datetime.strptime(s, '%Y-%m-%d').date()`: four digits, a dash, a month
   * of one or two digits, a dash, a day of one or two digits, naming a date
   * of years 1 to 9999; anything else is a ValueError (None).
   */
  function ParseIso(s: string): (r: Option<CalDate>)
    ensures r.Some? ==> 1 <= r.value.year
  {
    var parts := Split(s, '-');
    if |parts| != 3 then None
    else
      var y, m, d := parts[0], parts[1], parts[2];
      if |y| == 4 && AllDigits(y) && 1 <= |m| <= 2 && AllDigits(m) && 1 <= |d| <= 2 && AllDigits(d) then
        var date := Date(DigitsValue(y), DigitsValue(m), DigitsValue(d));
        if 1 <= date.year && Valid(date) then
          var valid: CalDate := date;
          Some(valid)
        else None
      else None
  }

  lemma SplitFirst(a: string, rest: string, sep: char)
    requires sep !in a
    ensures Split(a + [sep] + rest, sep) == [a] + Split(rest, sep)
  {
    var s := a + [sep] + rest;
    IndexOfAfter(a, sep, rest);
    assert s[..|a|] == a && s[|a| + 1..] == rest;
  }

  lemma SplitThree(a: string, b: string, c: string, sep: char)
    requires sep !in a && sep !in b && sep !in c
    ensures Split(a + [sep] + b + [sep] + c, sep) == [a, b, c]
  {
    var bc := b + [sep] + c;
    assert a + [sep] + b + [sep] + c == a + [sep] + bc;
    SplitFirst(a, bc, sep);
    SplitFirst(b, c, sep);
    assert Split(c, sep) == [c];
  }

  lemma NatToStringFourDigits(n: nat)
    requires 1000 <= n <= 9999
    ensures |NatToString(n)| == 4
  {
    var a := n / 10;
    var b := a / 10;
    var c := b / 10;
    assert 1 <= c < 10 && 10 <= b && 100 <= a;
    assert |NatToString(c)| == 1;
    assert NatToString(b) == NatToString(c) + [DigitChar(b % 10)];
    assert NatToString(a) == NatToString(b) + [DigitChar(a % 10)];
    assert NatToString(n) == NatToString(a) + [DigitChar(n % 10)];
  }

  lemma NatToStringAtMostTwo(n: nat)
    requires n < 100
    ensures |NatToString(n)| <= 2
  {
  }

  lemma PaddedPart(n: nat)
    requires 1 <= n < 100
    ensures var t := PadLeft(NatToString(n), 2, '0');
      |t| == 2 && AllDigits(t) && DigitsValue(t) == n && '-' !in t
  {
    NatToStringAtMostTwo(n);
    DigitsValueZeroPadded(NatToString(n), 2);
    NatToStringRoundTrip(n);
    var t := PadLeft(NatToString(n), 2, '0');
    DigitsFree(t, '-');
  }

  lemma DigitsFree(s: string, c: char)
    requires AllDigits(s) && !IsDigit(c)
    ensures c !in s
  {
  }

  /** A date of a four-digit year, rendered as YYYY-MM-DD, is read back as itself. */
  lemma IsoRoundTrip(d: CalDate)
    requires 1000 <= d.year <= 9999
    ensures ParseIso(FormatIso(d)) == Some(d)
  {
    var y := IntToString(d.year);
    var m := PadLeft(NatToString(d.month), 2, '0');
    var dd := PadLeft(NatToString(d.day), 2, '0');
    NatToStringFourDigits(d.year);
    NatToStringRoundTrip(d.year);
    DigitsFree(y, '-');
    PaddedPart(d.month);
    PaddedPart(d.day);
    assert FormatIso(d) == y + ['-'] + m + ['-'] + dd;
    SplitThree(y, m, dd, '-');
  }
}
