/**
 Bounded collection windows (src/market_intelligence/providers/windows.py).

 Instants are UTC microseconds. A bound is stored as text: a day, an hour or the first day of a month,
 so formatting truncates and parsing returns the start of the unit. `Stamp` is that text.
 */
module Windows {
  import opened Keys

  const SECOND := 1_000_000
  const HOUR := 3_600 * SECOND
  const DAY := 86_400 * SECOND

  /** The three window classes: retail sales is monthly, RTO data hourly, everything else daily. */
  datatype Operation = RetailSales | RtoRegion | Daily

  datatype Granularity = ByMonth | ByDay | ByHour

  datatype Stamp =
    | DayStamp(day: int)
    | HourStamp(hour: int)
    | MonthStamp(year: int, month: int)

  datatype Window = Window(start: Stamp, end: Stamp)

  /** The window part of an operation configuration. */
  datatype Spec =
    | Fixed(window: Window)
    | RollingSeconds(lookback: int, overlap: int, lag: int, granularity: Granularity)
    | RollingMonths(lookbackMonths: int, overlapMonths: int, lagMonths: int, unit: Granularity)

  function Unit(g: Granularity): (u: int) {
    match g
    case ByHour => HOUR
    case ByDay => DAY
    case ByMonth => DAY
  }

  lemma HourRemainder(t: int)
    ensures (t - t % HOUR) % HOUR == 0 && 0 <= t % HOUR < HOUR
  {
    assert t - t % HOUR == HOUR * (t / HOUR);
  }

  lemma DayRemainder(t: int)
    ensures (t - t % DAY) % DAY == 0 && 0 <= t % DAY < DAY
  {
    assert t - t % DAY == DAY * (t / DAY);
  }

  /** Clearing the fields below the unit. */
  function Floor(t: int, g: Granularity): (r: int)
    ensures r <= t < r + Unit(g) && r % Unit(g) == 0
  {
    if g.ByHour? then HourRemainder(t); t - t % HOUR else DayRemainder(t); t - t % DAY
  }

  function Expected(op: Operation): (g: Granularity) {
    match op
    case RetailSales => ByMonth
    case RtoRegion => ByHour
    case Daily => ByDay
  }

  /** Longest window in seconds. */
  function Ceiling(op: Operation): (c: int) {
    86_400 * (match op case RetailSales => 366 case RtoRegion => 7 case Daily => 31)
  }

  function Parse(s: Stamp): (t: int)
    requires !s.MonthStamp?
  {
    match s
    case DayStamp(d) => d * DAY
    case HourStamp(h) => h * HOUR
  }

  /** strftime with the hourly or the daily pattern: everything below the unit is dropped. */
  function Format(g: Granularity, t: int): (s: Stamp)
    ensures !s.MonthStamp? && Parse(s) <= t < Parse(s) + Unit(g)
  {
    if g.ByHour? then HourStamp(t / HOUR) else DayStamp(t / DAY)
  }

  function MonthIndex(s: Stamp): (i: int)
    requires s.MonthStamp?
  {
    s.year * 12 + s.month
  }

  /** Months are counted from January of year zero. */
  function MonthText(value: int): (s: Stamp)
    ensures s.MonthStamp? && 1 <= s.month <= 12 && MonthIndex(s) == value + 1
  {
    MonthStamp(value / 12, value % 12 + 1)
  }

  predicate CalendarMonth(s: Stamp) {
    s.MonthStamp? && 1 <= s.year <= 9999 && 1 <= s.month <= 12
  }

  /** The fixed-window branch of validate_window. */
  predicate ValidFixed(op: Operation, w: Window) {
    if op.RetailSales? then
      CalendarMonth(w.start) && CalendarMonth(w.end) && 0 <= MonthIndex(w.end) - MonthIndex(w.start) <= 11
    else
      !w.start.MonthStamp? && !w.end.MonthStamp? &&
      0 < Parse(w.end) - Parse(w.start) <= Ceiling(op) * SECOND
  }

  /** The rolling-window branch of validate_window. */
  predicate ValidRolling(op: Operation, c: Spec) {
    match c
    case Fixed(_) => false
    case RollingMonths(lookback, overlap, lag, unit) =>
      op.RetailSales? && 1 <= lookback <= 12 && 0 <= overlap < lookback && 0 <= lag <= 12 && unit.ByMonth?
    case RollingSeconds(lookback, overlap, lag, granularity) =>
      !op.RetailSales? && granularity == Expected(op) &&
      (if op.RtoRegion? then 3_600 else 86_400) <= lookback <= Ceiling(op) &&
      0 <= overlap < lookback && 0 <= lag <= Ceiling(op)
  }

  predicate ValidSpec(op: Operation, c: Spec) {
    if c.Fixed? then ValidFixed(op, c.window) else ValidRolling(op, c)
  }

  /**
   What a stored configuration may ask for, operation by operation: retail sales in months, up to a year; RTO data in hours,
   up to 7 days; everything else in days, up to 31; the overlap shorter than the lookback; a fixed window that runs forward.
   */
  lemma AcceptedSpecs(op: Operation, c: Spec)
    ensures ValidSpec(op, c) <==>
            match c
            case Fixed(w) =>
              if op.RetailSales? then
                && w.start.MonthStamp? && w.end.MonthStamp? && 1 <= w.start.year <= 9999 && 1 <= w.end.year <= 9999
                && 1 <= w.start.month <= 12 && 1 <= w.end.month <= 12
                && (w.start.year == w.end.year ==> w.start.month <= w.end.month)
                && (w.start.year == w.end.year || (w.end.year == w.start.year + 1 && w.end.month < w.start.month))
              else
                && !w.start.MonthStamp? && !w.end.MonthStamp?
                && Parse(w.start) < Parse(w.end) <= Parse(w.start) + (if op.RtoRegion? then 7 else 31) * DAY
            case RollingMonths(lookback, overlap, lag, unit) =>
              op.RetailSales? && unit == ByMonth && 1 <= lookback <= 12 && 0 <= overlap < lookback && 0 <= lag <= 12
            case RollingSeconds(lookback, overlap, lag, unit) =>
              && 0 <= overlap < lookback
              && (|| (op.RtoRegion? && unit == ByHour && 3_600 <= lookback <= 604_800 && 0 <= lag <= 604_800)
                  || (op.Daily? && unit == ByDay && 86_400 <= lookback <= 2_678_400 && 0 <= lag <= 2_678_400))
  {
  }

  /** A clock reading: the instant, and the calendar month it falls in counted from year zero. */
  datatype Clock = Clock(instant: int, month: int)

  function Max(a: int, b: int): (m: int) { if a < b then b else a }
  function Min(a: int, b: int): (m: int) { if a < b then a else b }

  /** End of a rolling window in seconds mode: the last complete unit before now minus the lag. */
  function RollingEnd(c: Spec, now: int): (end: int)
    requires c.RollingSeconds?
  {
    Floor(now - c.lag * SECOND, c.granularity)
  }

  /** Where the window must begin before rounding: never before the lookback, never within the last hour. */
  function RollingFrom(c: Spec, now: int, watermark: Option<Clock>): (from: int)
    requires c.RollingSeconds?
  {
    var end := RollingEnd(c, now);
    var start := end - c.lookback * SECOND;
    if watermark.None? then start
    else Max(start, Min(watermark.value.instant - c.overlap * SECOND, end - HOUR))
  }

  function EndMonth(c: Spec, now: Clock): (m: int)
    requires c.RollingMonths?
  {
    now.month - 1 - c.lagMonths
  }

  function StartMonth(c: Spec, now: Clock, watermark: Option<Clock>): (m: int)
    requires c.RollingMonths?
  {
    var end := EndMonth(c, now);
    var start := end - c.lookbackMonths + 1;
    if watermark.None? then start
    else Max(start, Min(watermark.value.month - c.overlapMonths, end))
  }

  /** resolve_window on a configuration that validate_window accepted. */
  function Resolve(c: Spec, now: Clock, watermark: Option<Clock>): (w: Window) {
    match c
    case Fixed(w) => w
    case RollingMonths(_, _, _, _) =>
      Window(MonthText(StartMonth(c, now, watermark)), MonthText(EndMonth(c, now)))
    case RollingSeconds(_, _, _, g) =>
      var start := Floor(RollingFrom(c, now.instant, watermark), g);
      Window(Format(g, start), Format(g, RollingEnd(c, now.instant)))
  }

  lemma FormatAligned(g: Granularity, t: int)
    requires !g.ByMonth? && t % Unit(g) == 0
    ensures Parse(Format(g, t)) == t
  {
  }

  /** Rounding down to a unit never passes an aligned lower bound. */
  lemma FloorKeepsAligned(t: int, bound: int, g: Granularity)
    requires bound % Unit(g) == 0 && bound <= t
    ensures bound <= Floor(t, g)
  {
  }

  /** The bounds of a seconds window, before formatting. */
  lemma RollingBounds(op: Operation, c: Spec, now: Clock, watermark: Option<Clock>)
    requires ValidRolling(op, c) && c.RollingSeconds?
    ensures var end, from := RollingEnd(c, now.instant), RollingFrom(c, now.instant, watermark);
            var start, unit := Floor(from, c.granularity), Unit(c.granularity);
            && now.instant - c.lag * SECOND - unit < end <= now.instant - c.lag * SECOND
            && start <= from < start + unit && start < end && end - start <= Ceiling(op) * SECOND
            && start % unit == 0 && end % unit == 0
  {
    var g, end, from := c.granularity, RollingEnd(c, now.instant), RollingFrom(c, now.instant, watermark);
    var oldest := end - Ceiling(op) * SECOND;
    assert oldest % Unit(g) == 0;
    FloorKeepsAligned(from, oldest, g);
  }

  /** A window that begins in the unit of the lookback, of `back`, or of an hour before the end. */
  predicate Begins(start: int, end: int, unit: int, lookback: int, back: Option<int>) {
    && (back.None? || back.value <= end - lookback ==> start <= end - lookback < start + unit)
    && (back.Some? && end - lookback < back.value <= end - HOUR ==> start <= back.value < start + unit)
    && (back.Some? && end - HOUR < back.value ==> start <= end - HOUR < start + unit)
  }

  /**
   Seconds mode: every clock and every watermark give a window the fixed validator accepts, at most 31 days long, or 7
   for RTO data. It ends at the last complete unit before the lag. It begins at the lookback, or at the watermark less
   the overlap when that is later, but an hour before the end when that is later still; rounding loses less than one
   unit. It contains every instant `t` the lookback and the overlap ask for.
   */
  lemma RollingWindowSound(op: Operation, c: Spec, now: Clock, watermark: Option<Clock>, t: int)
    requires ValidRolling(op, c) && c.RollingSeconds?
    ensures var w := Resolve(c, now, watermark);
            var unit := Unit(c.granularity);
            && ValidFixed(op, w)
            && now.instant - c.lag * SECOND - unit < Parse(w.end) <= now.instant - c.lag * SECOND
            && Parse(w.end) % unit == 0 && Parse(w.start) % unit == 0
            && 0 < Parse(w.end) - Parse(w.start) <= (if op.RtoRegion? then 7 else 31) * DAY
            && Begins(Parse(w.start), Parse(w.end), unit, c.lookback * SECOND,
                      if watermark.Some? then Some(watermark.value.instant - c.overlap * SECOND) else None)
            && (Parse(w.end) - c.lookback * SECOND < t <= Parse(w.end) &&
                (watermark.Some? ==> watermark.value.instant - c.overlap * SECOND < t) ==>
                Parse(w.start) <= t <= Parse(w.end))
  {
    var g := c.granularity;
    var end := RollingEnd(c, now.instant);
    var from := RollingFrom(c, now.instant, watermark);
    FormatAligned(g, Floor(from, g));
    FormatAligned(g, end);
    RollingBounds(op, c, now, watermark);
  }

  predicate BeginsInMonth(start: int, end: int, lookback: int, back: Option<int>) {
    && (back.None? || back.value <= end - lookback + 1 ==> start == end - lookback + 1)
    && (back.Some? && end - lookback + 1 < back.value <= end ==> start == back.value)
    && (back.Some? && end < back.value ==> start == end)
  }

  /**
   Months mode: the span is always 0 to 11 months and ends at the last complete month before the lag. It begins with the
   lookback, or with the watermark's month less the overlap when that is later, and never after its end. It contains
   every month `m` the lookback and the overlap ask for.
   */
  lemma MonthlyWindowSound(c: Spec, now: Clock, watermark: Option<Clock>, m: int)
    requires ValidRolling(RetailSales, c)
    ensures var w := Resolve(c, now, watermark);
            && 0 <= MonthIndex(w.end) - MonthIndex(w.start) <= 11
            && MonthIndex(w.end) == now.month - c.lagMonths
            && 1 <= w.start.month <= 12 && 1 <= w.end.month <= 12
            && BeginsInMonth(MonthIndex(w.start), MonthIndex(w.end), c.lookbackMonths,
                             if watermark.Some? then Some(watermark.value.month + 1 - c.overlapMonths) else None)
            && (now.month - c.lagMonths - c.lookbackMonths < m <= now.month - c.lagMonths &&
                (watermark.Some? ==> watermark.value.month + 1 - c.overlapMonths <= m) ==>
                MonthIndex(w.start) <= m <= MonthIndex(w.end))
  {
  }

  /**
   The exact condition of acceptance over all operations: a resolved rolling window passes the fixed
   validator unless it is monthly and reaches back before year 1.
   */
  lemma ResolvedWindowAccepted(op: Operation, c: Spec, now: Clock, watermark: Option<Clock>)
    requires ValidRolling(op, c) && now.month < 12 * 10_000
    ensures ValidFixed(op, Resolve(c, now, watermark)) <==>
            (op.RetailSales? ==> 1 <= Resolve(c, now, watermark).start.year)
  {
    if c.RollingSeconds? {
      RollingWindowSound(op, c, now, watermark, 0);
    } else {
      MonthlyWindowSound(c, now, watermark, 0);
    }
  }

  /** A clock in January of year 1 resolves a monthly window the validator refuses. */
  lemma MonthlyWindowBeforeYearOne()
    ensures var c := RollingMonths(1, 0, 0, ByMonth);
            ValidRolling(RetailSales, c) && !ValidFixed(RetailSales, Resolve(c, Clock(0, 12), None))
  {
  }
}
