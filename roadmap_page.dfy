/**
 * The roadmap (timeline) view of the tasks page: the visible range for the
 * day, week and month zooms, navigation by a week, four weeks or three
 * months, the header cells, the placement of task bars and of the today
 * marker, and the period caption.
 *
 * Instants are a calendar date and a time of day in milliseconds, both in
 * one time zone; the task dates of the bars (`YYYY-MM-DD`) are read as
 * midnight of that zone.
 */
module RoadmapPage {
  import opened Wrappers
  import opened Strings
  import opened Dates

  const DayMs := 86400000

  /** A moment: a date and the milliseconds elapsed since its midnight. */
  datatype Instant = Instant(date: CalDate, ms: int)

  predicate ValidInstant(t: Instant) { 0 <= t.ms < DayMs }

  /** Milliseconds since the start of the day count, as `Date` subtraction sees them. */
  function Millis(t: Instant): int { ToDays(t.date) * DayMs + t.ms }

  /** 'day' and 'week' name those zooms; any other value is the month zoom. */
  datatype Zoom = DayZoom | WeekZoom | MonthZoom

  function ZoomOf(zoom: string): Zoom {
    if zoom == "day" then DayZoom else if zoom == "week" then WeekZoom else MonthZoom
  }

  // ---------------------------------------------------------------------------
  // getTimelineRange
  // ---------------------------------------------------------------------------

  datatype Range = Range(start: Instant, end: Instant, days: int)

  /**
   * `getTimelineRange`: seven days centred on the current date, four weeks
   * from the Sunday of its week, or ninety days from the first of its month;
   * the end is the start plus days - 1. Both keep the current time of day.
   */
  function TimelineRange(current: Instant, zoom: Zoom): (r: Range)
    ensures r.start.ms == current.ms && r.end.ms == current.ms
    ensures r.days == (match zoom case DayZoom => 7 case WeekZoom => 28 case MonthZoom => 90)
    ensures ToDays(r.end.date) == ToDays(r.start.date) + r.days - 1
    ensures ToDays(r.start.date) <= ToDays(current.date) < ToDays(r.start.date) + r.days
    ensures zoom == DayZoom ==> ToDays(current.date) - ToDays(r.start.date) == 3
    ensures zoom == WeekZoom ==> JsDay(r.start.date) == 0
    ensures zoom == MonthZoom ==> r.start.date == FirstOfMonth(current.date)
  {
    var d := current.date;
    var days := match zoom case DayZoom => 7 case WeekZoom => 28 case MonthZoom => 90;
    var start: CalDate := match zoom
      case DayZoom => AddDays(d, -3)
      case WeekZoom => AddDays(d, -JsDay(d))
      case MonthZoom => FirstOfMonth(d);
    StepBackToMultiple(ToDays(d) + 1);
    Range(Instant(start, current.ms), Instant(AddDays(start, days - 1), current.ms), days)
  }

  // ---------------------------------------------------------------------------
  // navigateTimeline and zoomTimeline
  // ---------------------------------------------------------------------------

  /**
   * `navigateTimeline`: 'today' jumps to now; 'prev' and 'next' move by 7
   * days, 28 days or (with setMonth's overflow) 3 months; anything else keeps
   * the date.
   */
  function Navigate(current: Instant, zoom: Zoom, direction: string, now: Instant): (r: Instant)
    ensures direction == "prev" || direction == "next" ==> r.ms == current.ms
  {
    var step := if direction == "prev" then -1 else 1;
    if direction == "today" then now
    else if direction == "prev" || direction == "next" then
      match zoom
      case DayZoom => Instant(AddDays(current.date, 7 * step), current.ms)
      case WeekZoom => Instant(AddDays(current.date, 28 * step), current.ms)
      case MonthZoom => Instant(JsShiftMonths(current.date, 3 * step), current.ms)
    else current
  }

  /** In the day and week zooms 'next' undoes 'prev' and moves the range by its own length or a quarter of it. */
  lemma NavigateRoundTrip(current: Instant, zoom: Zoom, now: Instant)
    requires zoom != MonthZoom
    ensures Navigate(Navigate(current, zoom, "prev", now), zoom, "next", now) == current
    ensures zoom == DayZoom ==> ToDays(Navigate(current, zoom, "next", now).date) == ToDays(current.date) + 7
    ensures zoom == WeekZoom ==> ToDays(Navigate(current, zoom, "next", now).date) == ToDays(current.date) + 28
  {
    var n := if zoom == DayZoom then 7 else 28;
    AddDaysCompose(current.date, -n, n);
    assert AddDays(current.date, 0) == current.date;
  }

  /** In the month zoom 'next' moves to the same day three months on whenever that day exists there. */
  lemma MonthStepWhenDayFits(current: Instant, now: Instant)
    requires current.date.day <= DaysInMonth(AddMonths(current.date, 3).year, AddMonths(current.date, 3).month)
    ensures Navigate(current, MonthZoom, "next", now).date == AddMonths(current.date, 3)
  {
    JsShiftMonthsAgreesWhenDayFits(current.date, 3);
  }

  class RoadmapState {
    var currentZoom: Zoom
    var currentDate: Instant

    constructor (now: Instant)
      ensures currentZoom == WeekZoom && currentDate == now
    {
      currentZoom := WeekZoom;
      currentDate := now;
    }

    /** `zoomTimeline`: only the zoom changes. */
    method ZoomTimeline(zoom: string)
      modifies this`currentZoom
      ensures currentZoom == ZoomOf(zoom)
    {
      currentZoom := ZoomOf(zoom);
    }

    /** `navigateTimeline`: the current date moves; the zoom stays. */
    method NavigateTimeline(direction: string, now: Instant)
      modifies this`currentDate
      ensures currentDate == Navigate(old(currentDate), currentZoom, direction, now)
    {
      if direction == "today" {
        currentDate := now;
      } else if direction == "prev" || direction == "next" {
        var step := if direction == "prev" then -1 else 1;
        match currentZoom {
          case DayZoom => currentDate := Instant(AddDays(currentDate.date, 7 * step), currentDate.ms);
          case WeekZoom => currentDate := Instant(AddDays(currentDate.date, 28 * step), currentDate.ms);
          case MonthZoom => currentDate := Instant(JsShiftMonths(currentDate.date, 3 * step), currentDate.ms);
        }
      }
    }
  }

  // ---------------------------------------------------------------------------
  // The header cells
  // ---------------------------------------------------------------------------

  /** A header cell: whether it is today's and its caption ('' for none). */
  datatype Cell = Cell(isToday: bool, text: string)

  /** `formatDate(date, 'MMM DD')`: the day of the month is not zero-padded. */
  function MonthDayCaption(d: CalDate): string {
    MonthAbbrev(d.month) + " " + NatToString(d.day)
  }

  /** `formatDate(date, 'MMM YYYY')`. */
  function MonthYearCaption(d: CalDate): string {
    MonthAbbrev(d.month) + " " + IntToString(d.year)
  }

  /** The caption of one day: every day in the day zoom, Mondays ('Week N', ISO 8601) in the week zoom, firsts of months in the month zoom. */
  function CellFor(d: CalDate, zoom: Zoom, today: CalDate): Cell {
    var text := match zoom
      case DayZoom => MonthDayCaption(d)
      case WeekZoom => if JsDay(d) == 1 then "Week " + IntToString(IsoWeek(d)) else ""
      case MonthZoom => if d.day == 1 then MonthYearCaption(d) else "";
    Cell(d == today, text)
  }

  /** Only today's cell is marked: a cell is today's exactly when its day count is today's. */
  lemma CellIsToday(d: CalDate, zoom: Zoom, today: CalDate)
    ensures CellFor(d, zoom, today).isToday <==> ToDays(d) == ToDays(today)
  {
    if ToDays(d) == ToDays(today) {
      ToDaysInjective(d, today);
    }
  }

  /** The sequence f(0), ..., f(n - 1). */
  function Tabulate<T>(f: nat -> T, n: nat): (s: seq<T>)
    ensures |s| == n
    ensures forall i :: 0 <= i < n ==> s[i] == f(i)
  {
    if n == 0 then [] else Tabulate(f, n - 1) + [f(n - 1)]
  }

  /** The header cells of a range: one per day, in order. */
  function Header(range: Range, zoom: Zoom, today: CalDate): (cs: seq<Cell>)
    requires range.days >= 0
  {
    Tabulate((i: nat) => CellFor(AddDays(range.start.date, i), zoom, today), range.days)
  }

  /** The header loop of `renderTimeline`. */
  method RenderTimeline(range: Range, zoom: Zoom, today: CalDate) returns (cells: seq<Cell>)
    requires range.days >= 0
    ensures cells == Header(range, zoom, today)
  {
    var f := (i: nat) => CellFor(AddDays(range.start.date, i), zoom, today);
    cells := [];
    for i := 0 to range.days
      invariant cells == Tabulate(f, i)
    {
      cells := cells + [f(i)];
    }
  }

  /** The i-th day after a Sunday falls on weekday i mod 7. */
  lemma JsDayAfterSunday(start: CalDate, i: nat)
    requires JsDay(start) == 0
    ensures JsDay(AddDays(start, i)) == i % 7
  {
    var q := (ToDays(start) + 1) / 7;
    assert ToDays(start) + 1 == 7 * q;
    assert ToDays(AddDays(start, i)) + 1 == 7 * q + i;
    MultipleOfSevenDrops(q, i);
  }

  lemma MultipleOfSevenDrops(q: int, x: int)
    ensures (7 * q + x) % 7 == x % 7
  {
  }

  /**
   * In the week zoom the range starts on a Sunday, so exactly the days at
   * offsets 1, 8, 15 and 22 are Mondays and carry a week caption.
   */
  lemma WeekCaptionsOnMondays(current: Instant, today: CalDate, i: nat)
    requires i < 28
    ensures CellFor(AddDays(TimelineRange(current, WeekZoom).start.date, i), WeekZoom, today).text != "" <==> i % 7 == 1
  {
    var start := TimelineRange(current, WeekZoom).start.date;
    JsDayAfterSunday(start, i);
    var d := AddDays(start, i);
    if JsDay(d) == 1 {
      var w := IsoWeek(d);
      assert ("Week " + IntToString(w))[0] == 'W';
    }
  }


  // ---------------------------------------------------------------------------
  // Task bars and the today marker
  // ---------------------------------------------------------------------------

  /** `Math.floor((day - start) / 86400000)` for a day read as midnight: the code as written. */
  function OffsetAsWritten(start: Instant, day: CalDate): int {
    (Millis(Instant(day, 0)) - Millis(start)) / DayMs
  }

  /** Read against a start taken after midnight, every offset is one day short. */
  lemma OffsetAsWrittenValue(start: Instant, day: CalDate)
    requires ValidInstant(start)
    ensures OffsetAsWritten(start, day) == ToDays(day) - ToDays(start.date) - (if start.ms > 0 then 1 else 0)
  {
    var k := ToDays(day) - ToDays(start.date);
    assert Millis(Instant(day, 0)) - Millis(start) == k * DayMs - start.ms;
    if start.ms > 0 {
      assert (k - 1) * DayMs <= k * DayMs - start.ms < k * DayMs;
    }
  }

  /** The day column of a date: its distance in days from the range's first day. */
  function Offset(start: Instant, day: CalDate): int {
    ToDays(day) - ToDays(start.date)
  }

  /** `Math.ceil((end - start) / day) + 1`: the number of days a task spans, both ends included. */
  function Duration(taskStart: CalDate, taskEnd: CalDate): int {
    ToDays(taskEnd) - ToDays(taskStart) + 1
  }

  /** A bar is shown when it starts before the range ends and ends after it starts. */
  predicate BarVisible(offset: int, duration: int, days: int) {
    offset < days && offset + duration > 0
  }

  /** n days as a percentage of the range. */
  function Percent(n: int, days: int): real
    requires days > 0
  {
    (n as real) * 100.0 / (days as real)
  }

  function Max(a: real, b: real): real { if a >= b then a else b }
  function Min(a: real, b: real): real { if a <= b then a else b }

  /** The style of a shown bar: left edge and width in percent of the range. */
  datatype BarStyle = Hidden | Shown(left: real, width: real)

  /** The bar as written: the width is capped by 100 - leftPercent, using the unclamped left edge. */
  function BarAsWritten(offset: int, duration: int, days: int): BarStyle
    requires days > 0
  {
    var left, width := Percent(offset, days), Percent(duration, days);
    if BarVisible(offset, duration, days) then Shown(Max(0.0, left), Min(100.0 - left, width)) else Hidden
  }

  /**
   * A task that began five days before a seven-day range and lasts ten days
   * ends on the range's fifth day (about 71 per cent), but its bar is drawn
   * from 0 to about 143 per cent.
   */
  lemma EarlyBarOverrunsAsWritten()
    ensures BarAsWritten(-5, 10, 7) == Shown(0.0, 1000.0 / 7.0)
    ensures Percent(-5 + 10, 7) == 500.0 / 7.0
  {
  }

  /** The bar clipped to the range: from the later of its start and the range start to the earlier of its end and the range end. */
  function Bar(offset: int, duration: int, days: int): (b: BarStyle)
    requires days > 0
    ensures b.Shown? <==> BarVisible(offset, duration, days)
    ensures b.Shown? ==> b.left == Max(0.0, Percent(offset, days))
    ensures b.Shown? ==> b.left + b.width == Min(100.0, Percent(offset + duration, days))
  {
    var left := Max(0.0, Percent(offset, days));
    var right := Min(100.0, Percent(offset + duration, days));
    if BarVisible(offset, duration, days) then Shown(left, right - left) else Hidden
  }

  /** A shown bar lies inside the range and has positive width. */
  lemma BarInsideRange(offset: int, duration: int, days: int)
    requires days > 0 && BarVisible(offset, duration, days)
    ensures 0.0 <= Bar(offset, duration, days).left
    ensures duration > 0 ==> Bar(offset, duration, days).width > 0.0
    ensures Bar(offset, duration, days).left + Bar(offset, duration, days).width <= 100.0
  {
    PercentBelow(offset, days);
    PercentAbove(offset + duration, days);
    if duration > 0 {
      PercentMonotone(offset, offset + duration, days);
    }
  }

  lemma PercentMonotone(m: int, n: int, days: int)
    requires days > 0 && m < n
    ensures Percent(m, days) < Percent(n, days)
  {
    assert (m as real) * 100.0 < (n as real) * 100.0;
  }

  lemma PercentBelow(n: int, days: int)
    requires days > 0 && n < days
    ensures Percent(n, days) < 100.0
  {
    assert (n as real) < (days as real);
    assert (n as real) * 100.0 < (days as real) * 100.0;
  }

  lemma PercentAbove(n: int, days: int)
    requires days > 0 && n > 0
    ensures Percent(n, days) > 0.0
  {
  }

  /** A task bar: the start and end dates it carries and the style given to it. */
  datatype TaskBar = TaskBar(taskStart: CalDate, taskEnd: CalDate, style: BarStyle)

  /** `positionTaskBars`, measuring offsets from the first day of the range. */
  method PositionTaskBars(bars: array<TaskBar>, range: Range)
    requires range.days > 0
    modifies bars
    ensures forall i :: 0 <= i < bars.Length ==>
              bars[i] == old(bars[i]).(style := Bar(Offset(range.start, old(bars[i]).taskStart), Duration(old(bars[i]).taskStart, old(bars[i]).taskEnd), range.days))
  {
    for i := 0 to bars.Length
      invariant forall j :: 0 <= j < i ==>
                  bars[j] == old(bars[j]).(style := Bar(Offset(range.start, old(bars[j]).taskStart), Duration(old(bars[j]).taskStart, old(bars[j]).taskEnd), range.days))
      invariant forall j :: i <= j < bars.Length ==> bars[j] == old(bars[j])
    {
      var b := bars[i];
      var offset := Offset(range.start, b.taskStart);
      bars[i] := b.(style := Bar(offset, Duration(b.taskStart, b.taskEnd), range.days));
    }
  }

  /** As written, a one-day task on the range's first day is hidden whenever the range was computed after midnight. */
  lemma FirstDayTaskHiddenAsWritten(start: Instant, days: int)
    requires ValidInstant(start) && start.ms > 0 && days > 0
    ensures !BarVisible(OffsetAsWritten(start, start.date), Duration(start.date, start.date), days)
    ensures BarVisible(Offset(start, start.date), Duration(start.date, start.date), days)
  {
    OffsetAsWrittenValue(start, start.date);
  }

  /** The today marker: shown at today's column when today lies in the range. */
  function TodayMarker(start: Instant, today: CalDate, days: int): (m: Option<real>)
    requires days > 0
    ensures m.Some? <==> 0 <= Offset(start, today) < days
    ensures m.Some? ==> 0.0 <= m.value < 100.0
  {
    var offset := Offset(start, today);
    if 0 <= offset && offset < days then
      PercentBelow(offset, days);
      Some(Percent(offset, days))
    else None
  }

  /** In the day zoom today sits in the fourth of seven columns; as written the marker lands one column early after midnight. */
  lemma TodayMarkerInDayZoom(now: Instant)
    requires ValidInstant(now) && now.ms > 0
    ensures TodayMarker(TimelineRange(now, DayZoom).start, now.date, 7) == Some(Percent(3, 7))
    ensures OffsetAsWritten(TimelineRange(now, DayZoom).start, now.date) == 2
  {
    var start := TimelineRange(now, DayZoom).start;
    OffsetAsWrittenValue(start, now.date);
  }

  // ---------------------------------------------------------------------------
  // formatPeriod
  // ---------------------------------------------------------------------------

  /**
   * `formatPeriod`: 'Mon d1-d2, yyyy' within one month, 'Mon d1 - Mon d2, yyyy'
   * within one year, else 'Mon yyyy - Mon yyyy'.
   */
  function FormatPeriod(start: CalDate, end: CalDate): (s: string)
    ensures StartsWith(s, MonthAbbrev(start.month) + " ")
  {
    var head := MonthAbbrev(start.month) + " ";
    var s := if start.month == end.month && start.year == end.year then
        head + NatToString(start.day) + "-" + NatToString(end.day) + ", " + IntToString(start.year)
      else if start.year == end.year then
        head + NatToString(start.day) + " - " + MonthAbbrev(end.month) + " " + NatToString(end.day) + ", " + IntToString(start.year)
      else
        head + IntToString(start.year) + " - " + MonthAbbrev(end.month) + " " + IntToString(end.year);
    StartsWithConcat(head, s[|head|..]);
    assert s == head + s[|head|..];
    s
  }

  /** A week-zoom range starting 28 December 2025 spans two years and is captioned by months and years. */
  lemma PeriodAcrossYears()
    ensures FormatPeriod(Date(2025, 12, 28), Date(2026, 1, 24)) == "Dec 2025 - Jan 2026"
  {
    var head, y1, y2 := "Dec ", IntToString(2025), IntToString(2026);
    YearDigits();
    assert FormatPeriod(Date(2025, 12, 28), Date(2026, 1, 24)) == head + y1 + " - " + "Jan" + " " + y2;
  }

  lemma YearDigits()
    ensures IntToString(2025) == "2025" && IntToString(2026) == "2026"
  {
    assert NatToString(202) == "202";
  }

}
