/** The time window of a query: the main window as OpenTSDB time strings or as
    instants, the baseline (comparison) window derived from it, and the period
    arithmetic behind both.

    Instants are integer milliseconds. The date library's parsing, formatting and
    unit arithmetic are the fields of a `Calendar` passed in by the caller: adding
    `k` units (`"h"`, `"d"`, `"M"`, `"y"`, ...) to an instant is `shift`, which is
    calendar-aware for months and years. The facts that need more of the library
    take it as an explicit hypothesis (`RoundTrips`, `ParsesWholeSeconds`, `Linear`). */
module TimeWindow {
  import opened Base
  import Numbers

  /** The date-library operations the window computations call. */
  datatype Calendar = Calendar(
    normDate: string -> string,      // parse with "YYYY/MM/DD", format back
    normTime: string -> string,      // parse with "HH:mm:ss", format back
    parseDateTime: string -> int,    // parse with "YYYY/MM/DD HH:mm:ss"
    formatDateTime: int -> string,   // format with "YYYY/MM/DD HH:mm:ss"
    shift: (int, int, string) -> int, // `add(k, unit)` on an instant; a negative `k` subtracts
    unitMillis: string -> int)       // the fixed length of a unit, where `Linear` holds

  /** The instant truncated to the whole second at or below it. */
  function WholeSecond(t: int): (r: int)
    ensures r % 1000 == 0 && t - 1000 < r <= t
  {
    t - t % 1000
  }

  /** Formatting an instant and parsing the text back yields the instant truncated to
      the second (the format "YYYY/MM/DD HH:mm:ss" has no milliseconds). */
  ghost predicate RoundTrips(cal: Calendar) {
    forall t :: cal.parseDateTime(cal.formatDateTime(t)) == WholeSecond(t)
  }

  /** A parsed date and time is a whole second. */
  ghost predicate ParsesWholeSeconds(cal: Calendar) {
    forall s :: cal.parseDateTime(s) % 1000 == 0
  }

  /** Unit arithmetic that ignores the calendar: `k` units are always `k` times the
      unit's length. True of the fixed-length units (ms, s, m, h, and d, w in UTC);
      false of months, quarters and years, whose lengths vary. */
  ghost predicate Linear(cal: Calendar) {
    forall t, k, u :: cal.shift(t, k, u) == t + k * cal.unitMillis(u)
  }

  /** A moment.js duration: a plain number of milliseconds (from `diff`), or `n` units
      of a period (from `moment.duration(n, unit)`), applied on the calendar. */
  datatype Duration = Millis(ms: int) | Units(n: nat, unit: string)

  /** `t.add(d)`. */
  function AddDuration(cal: Calendar, t: int, d: Duration): int {
    match d
    case Millis(ms) => t + ms
    case Units(n, unit) => cal.shift(t, n, unit)
  }

  /** `t.subtract(d)`. */
  function SubtractDuration(cal: Calendar, t: int, d: Duration): int {
    match d
    case Millis(ms) => t - ms
    case Units(n, unit) => cal.shift(t, -(n as int), unit)
  }

  /** The length of a duration where unit arithmetic is linear. */
  function DurationMillis(cal: Calendar, d: Duration): int {
    match d
    case Millis(ms) => ms
    case Units(n, unit) => n * cal.unitMillis(unit)
  }

  /** With linear unit arithmetic, adding or subtracting a duration moves an instant by
      its length, wherever the instant lies. */
  lemma LinearDuration(cal: Calendar, t: int, d: Duration)
    requires Linear(cal)
    ensures AddDuration(cal, t, d) == t + DurationMillis(cal, d)
    ensures SubtractDuration(cal, t, d) == t - DurationMillis(cal, d)
  {
    if d.Units? {
      assert cal.shift(t, -(d.n as int), d.unit) == t + -(d.n as int) * cal.unitMillis(d.unit);
    }
  }

  /** The dashboard's global time settings. An absent (null) text field is "". */
  datatype GlobalConfig = GlobalConfig(
    absoluteTimeSpecification: bool,
    fromDate: string, fromTime: string, toDate: string, toTime: string,
    relativePeriod: string,
    autoReload: bool,
    baselining: bool,
    baselineDatumStyle: string,
    baselineFromDate: string, baselineFromTime: string,
    baselineToDate: string, baselineToTime: string,
    baselineRelativePeriod: string,
    globalDownsampling: bool,
    globalDownsampleTo: string)

  /** A date field and a time field recombined as "YYYY/MM/DD HH:mm:ss". */
  function DateTimeText(cal: Calendar, date: string, time: string): string {
    cal.normDate(date) + " " + cal.normTime(time)
  }

  /** The instant named by a date field and a time field. */
  function DateTimeInstant(cal: Calendar, date: string, time: string): int {
    cal.parseDateTime(DateTimeText(cal, date, time))
  }

  predicate IsLetter(c: char) { 'a' <= c <= 'z' || 'A' <= c <= 'Z' }

  /** The match of /[a-zA-Z]+$/: the longest suffix of letters ("" when there is none). */
  function TrailingLetters(s: string): (r: string)
    ensures |r| <= |s| && r == s[|s| - |r|..]
    ensures forall i :: 0 <= i < |r| ==> IsLetter(r[i])
    ensures |r| < |s| ==> !IsLetter(s[|s| - |r| - 1])
  {
    if s != [] && IsLetter(s[|s| - 1]) then TrailingLetters(s[..|s| - 1]) + [s[|s| - 1]] else []
  }

  /** The two matches /^[0-9]+/ and /[a-zA-Z]+$/ of a period such as "2h" or "10m";
      `None` when either match fails. */
  function SplitPeriod(period: string): (r: Option<(nat, string)>)
    ensures r.Some? <==> period != [] && Numbers.IsDigit(period[0]) && IsLetter(period[|period| - 1])
    ensures r.Some? ==> r.value.1 != "" && r.value.1 == TrailingLetters(period)
  {
    var digits := Numbers.DigitPrefix(period, 10);
    var letters := TrailingLetters(period);
    if digits == [] || letters == [] then None
    else Some((Numbers.DigitsValue(digits, 10), letters))
  }

  /** `periodToDiff`: the duration a period denotes. A period without a leading number
      or a trailing unit throws, since the failed match is null and its `.length` is read. */
  function PeriodToDiff(period: string): (r: Completion<Duration>)
    ensures r.Abrupt? <==> SplitPeriod(period).None?
    ensures r.Abrupt? ==> r.fault == NullMatch
    ensures r.Normal? ==> r.value == Units(SplitPeriod(period).value.0, SplitPeriod(period).value.1)
  {
    match SplitPeriod(period)
    case None => Abrupt(NullMatch)
    case Some((n, unit)) => Normal(Units(n, unit))
  }

  /** `tsdb_fromTimestampAsTsdbString`: the start of the main window as an API string. */
  function FromTimestampAsTsdbString(cal: Calendar, g: GlobalConfig): (r: string)
  {
    if g.absoluteTimeSpecification then DateTimeText(cal, g.fromDate, g.fromTime)
    else if g.relativePeriod == "" then ""
    else g.relativePeriod + "-ago"
  }

  /** `tsdb_toTimestampAsTsdbString`: the end of the main window; `None` means "now". */
  function ToTimestampAsTsdbString(cal: Calendar, g: GlobalConfig): (r: Option<string>)
  {
    if !g.absoluteTimeSpecification || g.toDate == "" || g.toTime == "" then None
    else Some(DateTimeText(cal, g.toDate, g.toTime))
  }

  /** `tsdb_fromTimestampAsMoment`: the start of the main window as an instant, `now`
      being the caller's datum or the current time. */
  function FromTimestampAsMoment(cal: Calendar, g: GlobalConfig, now: int): (r: Completion<int>)
  {
    if g.absoluteTimeSpecification then Normal(DateTimeInstant(cal, g.fromDate, g.fromTime))
    else if g.relativePeriod == "" then Normal(now)
    else match SplitPeriod(g.relativePeriod)
      case None => Abrupt(NullMatch)
      case Some((n, unit)) => Normal(SubtractDuration(cal, now, Units(n, unit)))
  }

  /** `tsdb_toTimestampAsMoment`: the end of the main window as an instant. */
  function ToTimestampAsMoment(cal: Calendar, g: GlobalConfig, now: int): (r: int)
  {
    if !g.absoluteTimeSpecification || g.toDate == "" || g.toTime == "" then now
    else DateTimeInstant(cal, g.toDate, g.toTime)
  }

  /** `baselineOffset`: how far the baseline window lies behind the main window. */
  function BaselineOffset(cal: Calendar, g: GlobalConfig, now: int): (r: Completion<Duration>)
  {
    match g.baselineDatumStyle
    case "from" =>
      (match FromTimestampAsMoment(cal, g, now)
       case Abrupt(f) => Abrupt(f)
       case Normal(mainFrom) => Normal(Millis(mainFrom - DateTimeInstant(cal, g.baselineFromDate, g.baselineFromTime))))
    case "to" =>
      Normal(Millis(ToTimestampAsMoment(cal, g, now) - DateTimeInstant(cal, g.baselineToDate, g.baselineToTime)))
    case "relative" => PeriodToDiff(g.baselineRelativePeriod)
    case _ => Abrupt(UnrecognizedBaselineStyle(g.baselineDatumStyle))
  }

  /** The length of the main window, as both baseline functions compute it: the
      difference of the instants for an absolute window, the period itself otherwise. */
  function MainDuration(cal: Calendar, g: GlobalConfig, now: int): (r: Completion<Duration>)
  {
    if g.absoluteTimeSpecification then
      match FromTimestampAsMoment(cal, g, now)
      case Abrupt(f) => Abrupt(f)
      case Normal(mainFrom) => Normal(Millis(ToTimestampAsMoment(cal, g, now) - mainFrom))
    else PeriodToDiff(g.relativePeriod)
  }

  /** `tsdb_baselineFromTimestampAsTsdbString`. `Normal(None)` is the `undefined` an
      unrecognised style falls through to (the switch has no default branch). */
  function BaselineFromTimestampAsTsdbString(cal: Calendar, g: GlobalConfig, now: int): (r: Completion<Option<string>>)
  {
    match g.baselineDatumStyle
    case "from" => Normal(Some(DateTimeText(cal, g.baselineFromDate, g.baselineFromTime)))
    case "to" =>
      (match MainDuration(cal, g, now)
       case Abrupt(f) => Abrupt(f)
       case Normal(diff) =>
         Normal(Some(cal.formatDateTime(SubtractDuration(cal, DateTimeInstant(cal, g.baselineToDate, g.baselineToTime), diff)))))
    case "relative" =>
      (match FromTimestampAsMoment(cal, g, now)
       case Abrupt(f) => Abrupt(f)
       case Normal(mainFrom) =>
         match PeriodToDiff(g.baselineRelativePeriod)
         case Abrupt(f) => Abrupt(f)
         case Normal(diff) => Normal(Some(cal.formatDateTime(SubtractDuration(cal, mainFrom, diff)))))
    case _ => Normal(None)
  }

  /** `tsdb_baselineToTimestampAsTsdbString`, with the same fall-through. */
  function BaselineToTimestampAsTsdbString(cal: Calendar, g: GlobalConfig, now: int): (r: Completion<Option<string>>)
  {
    match g.baselineDatumStyle
    case "from" =>
      (match MainDuration(cal, g, now)
       case Abrupt(f) => Abrupt(f)
       case Normal(diff) =>
         Normal(Some(cal.formatDateTime(AddDuration(cal, DateTimeInstant(cal, g.baselineFromDate, g.baselineFromTime), diff)))))
    case "to" => Normal(Some(DateTimeText(cal, g.baselineToDate, g.baselineToTime)))
    case "relative" =>
      (match PeriodToDiff(g.baselineRelativePeriod)
       case Abrupt(f) => Abrupt(f)
       case Normal(diff) => Normal(Some(cal.formatDateTime(SubtractDuration(cal, ToTimestampAsMoment(cal, g, now), diff)))))
    case _ => Normal(None)
  }

  // ---------------------------------------------------------------------------
  // Properties

  /** A period throws exactly when it does not start with a digit or does not end with
      a letter; in particular the empty period throws. */
  lemma PeriodThrowsIff(period: string)
    ensures PeriodToDiff(period).Abrupt?
        <==> period == [] || !Numbers.IsDigit(period[0]) || !IsLetter(period[|period| - 1])
    ensures PeriodToDiff("").Abrupt?
  {
  }

  /** The string form and the instant form of the main window denote the same window:
      an absolute start parses to the start instant and an absolute end to the end
      instant; a relative window reads "<period>-ago" up to "now", and it starts one
      period before `now`. */
  lemma MainWindowAgrees(cal: Calendar, g: GlobalConfig, now: int)
    ensures g.absoluteTimeSpecification ==>
      FromTimestampAsMoment(cal, g, now) == Normal(cal.parseDateTime(FromTimestampAsTsdbString(cal, g)))
    ensures ToTimestampAsTsdbString(cal, g).Some? ==>
      ToTimestampAsMoment(cal, g, now) == cal.parseDateTime(ToTimestampAsTsdbString(cal, g).value)
    ensures ToTimestampAsTsdbString(cal, g).None? ==> ToTimestampAsMoment(cal, g, now) == now
    ensures !g.absoluteTimeSpecification && g.relativePeriod != "" ==>
      FromTimestampAsTsdbString(cal, g) == g.relativePeriod + "-ago"
      && (FromTimestampAsMoment(cal, g, now).Normal? <==> PeriodToDiff(g.relativePeriod).Normal?)
      && (PeriodToDiff(g.relativePeriod).Normal? ==>
            FromTimestampAsMoment(cal, g, now).value == SubtractDuration(cal, now, PeriodToDiff(g.relativePeriod).value))
  {
  }

  /** Truncating to the second commutes with adding a whole number of seconds. */
  lemma WholeSecondShift(a: int, x: int)
    requires a % 1000 == 0
    ensures WholeSecond(a + x) == a + WholeSecond(x)
  {
    var q := a / 1000;
    assert a == 1000 * q;
    assert (1000 * q + x) % 1000 == x % 1000;
  }

  /** A window end `a` anchored at the whole second `anchor`, and an end `b` placed at
      `placed` and truncated to the second. The anchored end is `a` moved by `a - anchor`;
      when `placed` is a window length `b - a` from the anchor (`exact`), so is the other
      end, and the two lie the window length apart within a second. */
  lemma AnchoredEnd(anchor: int, a: int, b: int, pa: int, pb: int, placed: int, exact: bool)
    requires anchor % 1000 == 0 && pa == anchor && pb == WholeSecond(placed)
    requires exact ==> placed == anchor + (b - a)
    ensures pa == WholeSecond(a - (a - anchor))
    ensures exact ==> pb == WholeSecond(b - (a - anchor))
    ensures exact ==> (b - a) - 1000 < pb - pa < (b - a) + 1000
  {
    WholeSecondShift(anchor, 0);
    if exact {
      WholeSecondShift(anchor, b - a);
    }
  }

  /** Whenever both ends of the baseline window are defined, the baseline window is the
      main window moved back by `baselineOffset`, to the second the format keeps. That
      holds outright for the end a style anchors ("from" its start, "to" its end) and for
      both ends of "relative". The other end of "from" and "to" is placed with the main
      duration, which agrees when the main window is absolute or unit arithmetic is
      linear; the baseline window is then as long as the main one, within that second. */
  lemma BaselineIsShiftedMainWindow(cal: Calendar, g: GlobalConfig, now: int, bFrom: string, bTo: string)
    requires RoundTrips(cal) && ParsesWholeSeconds(cal)
    requires BaselineFromTimestampAsTsdbString(cal, g, now) == Normal(Some(bFrom))
    requires BaselineToTimestampAsTsdbString(cal, g, now) == Normal(Some(bTo))
    ensures FromTimestampAsMoment(cal, g, now).Normal? && BaselineOffset(cal, g, now).Normal?
    ensures g.baselineDatumStyle != "to" || g.absoluteTimeSpecification || Linear(cal) ==>
      cal.parseDateTime(bFrom)
      == WholeSecond(SubtractDuration(cal, FromTimestampAsMoment(cal, g, now).value, BaselineOffset(cal, g, now).value))
    ensures g.baselineDatumStyle != "from" || g.absoluteTimeSpecification || Linear(cal) ==>
      cal.parseDateTime(bTo)
      == WholeSecond(SubtractDuration(cal, ToTimestampAsMoment(cal, g, now), BaselineOffset(cal, g, now).value))
    ensures (g.baselineDatumStyle != "relative" && g.absoluteTimeSpecification) || Linear(cal) ==>
      var len := ToTimestampAsMoment(cal, g, now) - FromTimestampAsMoment(cal, g, now).value;
      len - 1000 < cal.parseDateTime(bTo) - cal.parseDateTime(bFrom) < len + 1000
  {
    var style := g.baselineDatumStyle;
    if style == "from" {
      FromStyleEnds(cal, g, now, bFrom, bTo);
      MainDurationIsWindowLength(cal, g, now);
      ShiftedFromStyle(cal, DateTimeText(cal, g.baselineFromDate, g.baselineFromTime),
                       FromTimestampAsMoment(cal, g, now).value, ToTimestampAsMoment(cal, g, now),
                       MainDuration(cal, g, now).value, BaselineOffset(cal, g, now).value,
                       bFrom, bTo, g.absoluteTimeSpecification);
    } else if style == "to" {
      ToStyleEnds(cal, g, now, bFrom, bTo);
      MainDurationIsWindowLength(cal, g, now);
      ShiftedToStyle(cal, DateTimeText(cal, g.baselineToDate, g.baselineToTime),
                     FromTimestampAsMoment(cal, g, now).value, ToTimestampAsMoment(cal, g, now),
                     MainDuration(cal, g, now).value, BaselineOffset(cal, g, now).value,
                     bFrom, bTo, g.absoluteTimeSpecification);
    } else {
      ShiftedRelativeStyle(cal, g, now, bFrom, bTo);
    }
  }

  /** The baseline window of the "from" style: its start is the anchor text, its end the
      anchor plus the main duration `md`; its offset is the main start less the anchor. */
  lemma ShiftedFromStyle(cal: Calendar, anchorText: string, mainFrom: int, mainTo: int, md: Duration,
                         off: Duration, bFrom: string, bTo: string, absolute: bool)
    requires RoundTrips(cal) && ParsesWholeSeconds(cal)
    requires bFrom == anchorText
    requires bTo == cal.formatDateTime(AddDuration(cal, cal.parseDateTime(anchorText), md))
    requires absolute ==> md == Millis(mainTo - mainFrom)
    requires Linear(cal) ==> DurationMillis(cal, md) == mainTo - mainFrom
    requires off == Millis(mainFrom - cal.parseDateTime(anchorText))
    ensures
      cal.parseDateTime(bFrom) == WholeSecond(SubtractDuration(cal, mainFrom, off))
      && (absolute || Linear(cal) ==>
            cal.parseDateTime(bTo) == WholeSecond(SubtractDuration(cal, mainTo, off))
            && mainTo - mainFrom - 1000 < cal.parseDateTime(bTo) - cal.parseDateTime(bFrom) < mainTo - mainFrom + 1000)
  {
    var anchor := cal.parseDateTime(anchorText);
    if Linear(cal) {
      LinearDuration(cal, anchor, md);
    }
    AnchoredEnd(anchor, mainFrom, mainTo, cal.parseDateTime(bFrom), cal.parseDateTime(bTo),
                AddDuration(cal, anchor, md), absolute || Linear(cal));
  }

  /** The baseline window of the "to" style: its start is the anchor less the main
      duration `md`, its end the anchor text; its offset is the main end less the anchor. */
  lemma ShiftedToStyle(cal: Calendar, anchorText: string, mainFrom: int, mainTo: int, md: Duration,
                       off: Duration, bFrom: string, bTo: string, absolute: bool)
    requires RoundTrips(cal) && ParsesWholeSeconds(cal)
    requires bFrom == cal.formatDateTime(SubtractDuration(cal, cal.parseDateTime(anchorText), md))
    requires bTo == anchorText
    requires absolute ==> md == Millis(mainTo - mainFrom)
    requires Linear(cal) ==> DurationMillis(cal, md) == mainTo - mainFrom
    requires off == Millis(mainTo - cal.parseDateTime(anchorText))
    ensures
      cal.parseDateTime(bTo) == WholeSecond(SubtractDuration(cal, mainTo, off))
      && (absolute || Linear(cal) ==>
            cal.parseDateTime(bFrom) == WholeSecond(SubtractDuration(cal, mainFrom, off))
            && mainTo - mainFrom - 1000 < cal.parseDateTime(bTo) - cal.parseDateTime(bFrom) < mainTo - mainFrom + 1000)
  {
    var anchor := cal.parseDateTime(anchorText);
    if Linear(cal) {
      LinearDuration(cal, anchor, md);
    }
    AnchoredEnd(anchor, mainTo, mainFrom, cal.parseDateTime(bTo), cal.parseDateTime(bFrom),
                SubtractDuration(cal, anchor, md), absolute || Linear(cal));
  }

  /** What the "from" style computes: the anchor text, then the anchor plus the main
      duration; its offset is the main start less the anchor. */
  lemma FromStyleEnds(cal: Calendar, g: GlobalConfig, now: int, bFrom: string, bTo: string)
    requires g.baselineDatumStyle == "from"
    requires BaselineFromTimestampAsTsdbString(cal, g, now) == Normal(Some(bFrom))
    requires BaselineToTimestampAsTsdbString(cal, g, now) == Normal(Some(bTo))
    ensures MainDuration(cal, g, now).Normal? && FromTimestampAsMoment(cal, g, now).Normal?
    ensures bFrom == DateTimeText(cal, g.baselineFromDate, g.baselineFromTime)
    ensures bTo == cal.formatDateTime(AddDuration(cal, DateTimeInstant(cal, g.baselineFromDate, g.baselineFromTime),
                                                  MainDuration(cal, g, now).value))
    ensures BaselineOffset(cal, g, now)
         == Normal(Millis(FromTimestampAsMoment(cal, g, now).value - DateTimeInstant(cal, g.baselineFromDate, g.baselineFromTime)))
  {
    MainDurationIsWindowLength(cal, g, now);
  }

  /** What the "to" style computes: the anchor less the main duration, then the anchor
      text; its offset is the main end less the anchor. */
  lemma ToStyleEnds(cal: Calendar, g: GlobalConfig, now: int, bFrom: string, bTo: string)
    requires g.baselineDatumStyle == "to"
    requires BaselineFromTimestampAsTsdbString(cal, g, now) == Normal(Some(bFrom))
    requires BaselineToTimestampAsTsdbString(cal, g, now) == Normal(Some(bTo))
    ensures MainDuration(cal, g, now).Normal? && FromTimestampAsMoment(cal, g, now).Normal?
    ensures bFrom == cal.formatDateTime(SubtractDuration(cal, DateTimeInstant(cal, g.baselineToDate, g.baselineToTime),
                                                        MainDuration(cal, g, now).value))
    ensures bTo == DateTimeText(cal, g.baselineToDate, g.baselineToTime)
    ensures BaselineOffset(cal, g, now)
         == Normal(Millis(ToTimestampAsMoment(cal, g, now) - DateTimeInstant(cal, g.baselineToDate, g.baselineToTime)))
  {
    MainDurationIsWindowLength(cal, g, now);
  }

  /** The baseline window of any other defined style ("relative"): both main ends less the period. */
  lemma ShiftedRelativeStyle(cal: Calendar, g: GlobalConfig, now: int, bFrom: string, bTo: string)
    requires RoundTrips(cal) && g.baselineDatumStyle != "from" && g.baselineDatumStyle != "to"
    requires BaselineFromTimestampAsTsdbString(cal, g, now) == Normal(Some(bFrom))
    requires BaselineToTimestampAsTsdbString(cal, g, now) == Normal(Some(bTo))
    ensures FromTimestampAsMoment(cal, g, now).Normal? && BaselineOffset(cal, g, now).Normal?
    ensures cal.parseDateTime(bFrom)
      == WholeSecond(SubtractDuration(cal, FromTimestampAsMoment(cal, g, now).value, BaselineOffset(cal, g, now).value))
    ensures cal.parseDateTime(bTo)
      == WholeSecond(SubtractDuration(cal, ToTimestampAsMoment(cal, g, now), BaselineOffset(cal, g, now).value))
    ensures Linear(cal) ==>
      var len := ToTimestampAsMoment(cal, g, now) - FromTimestampAsMoment(cal, g, now).value;
      len - 1000 < cal.parseDateTime(bTo) - cal.parseDateTime(bFrom) < len + 1000
  {
    var diff := PeriodToDiff(g.baselineRelativePeriod).value;
    var mainFrom, mainTo := FromTimestampAsMoment(cal, g, now).value, ToTimestampAsMoment(cal, g, now);
    assert cal.parseDateTime(bFrom) == WholeSecond(SubtractDuration(cal, mainFrom, diff));
    assert cal.parseDateTime(bTo) == WholeSecond(SubtractDuration(cal, mainTo, diff));
    if Linear(cal) {
      LinearDuration(cal, mainFrom, diff);
      LinearDuration(cal, mainTo, diff);
    }
  }

  /** A defined main duration spans the main window: subtracting it from the window's
      end gives the window's start. For an absolute window it is the distance between
      the instants; for a relative one it is the period itself, which is as long as the
      window wherever unit arithmetic is linear, but not, say, "1y" across a 29 February. */
  lemma MainDurationIsWindowLength(cal: Calendar, g: GlobalConfig, now: int)
    requires MainDuration(cal, g, now).Normal?
    ensures FromTimestampAsMoment(cal, g, now).Normal?
    ensures FromTimestampAsMoment(cal, g, now).value
         == SubtractDuration(cal, ToTimestampAsMoment(cal, g, now), MainDuration(cal, g, now).value)
    ensures g.absoluteTimeSpecification ==>
      MainDuration(cal, g, now).value
      == Millis(ToTimestampAsMoment(cal, g, now) - FromTimestampAsMoment(cal, g, now).value)
    ensures !g.absoluteTimeSpecification ==> MainDuration(cal, g, now) == PeriodToDiff(g.relativePeriod)
    ensures Linear(cal) ==>
      DurationMillis(cal, MainDuration(cal, g, now).value)
      == ToTimestampAsMoment(cal, g, now) - FromTimestampAsMoment(cal, g, now).value
  {
    if Linear(cal) {
      LinearDuration(cal, ToTimestampAsMoment(cal, g, now), MainDuration(cal, g, now).value);
    }
  }

  /** An unrecognised datum style leaves both baseline strings undefined, while
      `baselineOffset` throws for it; the three named styles never give undefined. */
  lemma UnrecognizedStyle(cal: Calendar, g: GlobalConfig, now: int)
    ensures (g.baselineDatumStyle !in {"from", "to", "relative"}) <==>
      (BaselineFromTimestampAsTsdbString(cal, g, now) == Normal(None))
    ensures (g.baselineDatumStyle !in {"from", "to", "relative"}) <==>
      (BaselineToTimestampAsTsdbString(cal, g, now) == Normal(None))
    ensures (g.baselineDatumStyle !in {"from", "to", "relative"}) <==>
      (BaselineOffset(cal, g, now) == Abrupt(UnrecognizedBaselineStyle(g.baselineDatumStyle)))
  {
  }
}
