/** The service object itself: its one piece of state, the `imageRenderCount` behind
    the cache-busting `&ignore=` token, and the entry points that build query strings
    and export URLs. */
module Services {
  import opened Base
  import opened QueryString
  import TimeWindow
  import Numbers
  import opened ExportUrl
  import opened Planner

  /** The arguments `tsdb_queryString` passes on: the main window, and an end of "now"
      allowed to replace the end on auto-reload. */
  function MainArgs(cal: TimeWindow.Calendar, g: TimeWindow.GlobalConfig, graphId: string,
                    metrics: seq<Metric>, perLine: Option<Metric -> string>, now: int,
                    downsampleOverride: Option<string -> string>, noIgnore: bool,
                    filtersSupported: bool): (a: QueryArgs)
    ensures a.from == Some(TimeWindow.FromTimestampAsTsdbString(cal, g))
    ensures a.to == TimeWindow.ToTimestampAsTsdbString(cal, g)
    ensures a.allowAutoReloadOverrideEndDate && a.noIgnore == noIgnore
  {
    QueryArgs(graphId,
              Some(TimeWindow.FromTimestampAsTsdbString(cal, g)),
              TimeWindow.ToTimestampAsTsdbString(cal, g),
              g.autoReload, true, cal.formatDateTime(now), noIgnore, metrics,
              FragmentConfig(downsampleOverride, g.globalDownsampling, g.globalDownsampleTo, perLine, filtersSupported))
  }

  /** The arguments `tsdb_queryStringForBaseline` passes on: the baseline window, no
      auto-reload override, and no `noIgnore` (it is not passed on, so it is falsy). */
  function BaselineArgs(cal: TimeWindow.Calendar, g: TimeWindow.GlobalConfig, graphId: string,
                        metrics: seq<Metric>, perLine: Option<Metric -> string>, now: int,
                        downsampleOverride: Option<string -> string>,
                        filtersSupported: bool): (r: Completion<QueryArgs>)
    ensures r.Abrupt? <==>
              TimeWindow.BaselineFromTimestampAsTsdbString(cal, g, now).Abrupt?
              || TimeWindow.BaselineToTimestampAsTsdbString(cal, g, now).Abrupt?
    ensures r.Normal? ==>
              r.value.from == TimeWindow.BaselineFromTimestampAsTsdbString(cal, g, now).value
              && r.value.to == TimeWindow.BaselineToTimestampAsTsdbString(cal, g, now).value
              && !r.value.allowAutoReloadOverrideEndDate && !r.value.noIgnore
  {
    match TimeWindow.BaselineFromTimestampAsTsdbString(cal, g, now)
    case Abrupt(f) => Abrupt(f)
    case Normal(from) =>
      match TimeWindow.BaselineToTimestampAsTsdbString(cal, g, now)
      case Abrupt(f) => Abrupt(f)
      case Normal(to) =>
        Normal(QueryArgs(graphId, from, to, g.autoReload, false, cal.formatDateTime(now), false, metrics,
                         FragmentConfig(downsampleOverride, g.globalDownsampling, g.globalDownsampleTo, perLine, filtersSupported)))
  }

  /** A baseline query with an unrecognised baseline style has no start (the baseline
      string functions fall through to `undefined`), so it is rejected with the
      missing-start error and never reaches the counter. */
  lemma BaselineWithUnknownStyle(cal: TimeWindow.Calendar, g: TimeWindow.GlobalConfig, graphId: string,
                                 metrics: seq<Metric>, perLine: Option<Metric -> string>, now: int,
                                 downsampleOverride: Option<string -> string>, filtersSupported: bool, count: nat)
    requires g.baselineDatumStyle !in {"from", "to", "relative"}
    ensures BaselineArgs(cal, g, graphId, metrics, perLine, now, downsampleOverride, filtersSupported).Normal?
    ensures var a := BaselineArgs(cal, g, graphId, metrics, perLine, now, downsampleOverride, filtersSupported).value;
            Build(a, count) == Built("", count, Some(NoStartDate), false)
  {
    TimeWindow.UnrecognizedStyle(cal, g, now);
  }

  /** A baseline query never takes the auto-reload end and never writes `&ignore=`: a
      recognised style always gives an end string, so once the start and the metrics are
      there it writes `&end=` with the baseline end; an unrecognised style has no start.
      Either way the counter is left as it was, even when auto-reload is on. */
  lemma BaselineIgnoresAutoReload(cal: TimeWindow.Calendar, g: TimeWindow.GlobalConfig, graphId: string,
                                  metrics: seq<Metric>, perLine: Option<Metric -> string>, now: int,
                                  downsampleOverride: Option<string -> string>, filtersSupported: bool, count: nat)
    requires BaselineArgs(cal, g, graphId, metrics, perLine, now, downsampleOverride, filtersSupported).Normal?
    ensures var a := BaselineArgs(cal, g, graphId, metrics, perLine, now, downsampleOverride, filtersSupported).value;
            !MissingStart(a) ==> a.to.Some?
    ensures var a := BaselineArgs(cal, g, graphId, metrics, perLine, now, downsampleOverride, filtersSupported).value;
            Build(a, count).renderCount == count
    ensures var a := BaselineArgs(cal, g, graphId, metrics, perLine, now, downsampleOverride, filtersSupported).value;
            !MissingStart(a) && metrics != [] ==>
              Build(a, count).url == "start=" + a.from.value + "&end=" + a.to.value + Fragments(a.config, a.metrics)
  {
    var a := BaselineArgs(cal, g, graphId, metrics, perLine, now, downsampleOverride, filtersSupported).value;
    TimeWindow.UnrecognizedStyle(cal, g, now);
    BuildCounter(a, count);
  }

  // ---------------------------------------------------------------------------
  // Planning the data queries of `perform_queries`

  /** What one call of `perform_queries` is about: where the data is read from, the
      calendar and global settings, the graph, the datum instant and the options. */
  datatype Planning = Planning(
    baseReadUrl: string, cal: TimeWindow.Calendar, g: TimeWindow.GlobalConfig,
    graphId: string, now: int, options: QueryOptions, filtersSupported: bool)

  /** The arguments the query-string function of `constructUrls` builds from one set:
      no per-line function and no `noIgnore`. */
  function SetArgs(p: Planning, baseline: bool, ms: seq<Metric>): Completion<QueryArgs> {
    if baseline then BaselineArgs(p.cal, p.g, p.graphId, ms, None, p.now, p.options.downsampleOverride, p.filtersSupported)
    else Normal(MainArgs(p.cal, p.g, p.graphId, ms, None, p.now, p.options.downsampleOverride, false, p.filtersSupported))
  }

  /** The data URL of one set. */
  function RequestUrl(p: Planning, qs: string): string {
    p.baseReadUrl + "/api/query?" + qs + UrlSuffix(p.options)
  }

  /** The outcome of `constructUrls`: the requests, the counter after them, the last
      error recorded and whether the rate-counter warning was recorded. */
  datatype Planned = Planned(requests: seq<MetricsAndUrl>, count: nat, error: Option<string>, warned: bool)

  /** `constructUrls` over the sets `sets` with dictionaries `dicts`, starting from the
      counter value `count`; an exception of the query-string function ends it. */
  function Plan(p: Planning, baseline: bool, dicts: seq<map<string, Metric>>, sets: seq<seq<Metric>>, count: nat)
    : Completion<Planned>
    requires |dicts| == |sets|
  {
    if sets == [] then Normal(Planned([], count, None, false))
    else
      match Plan(p, baseline, dicts[..|dicts| - 1], sets[..|sets| - 1], count)
      case Abrupt(f) => Abrupt(f)
      case Normal(pl) =>
        match SetArgs(p, baseline, sets[|sets| - 1])
        case Abrupt(f) => Abrupt(f)
        case Normal(a) =>
          var b := Build(a, pl.count);
          Normal(Planned(pl.requests + [MetricsAndUrl(dicts[|dicts| - 1], RequestUrl(p, b.url))], b.renderCount,
                         if b.error.Some? then b.error else pl.error, pl.warned || b.warned))
  }

  /** A diagnostics map after recording `err` under `k`, if there is one. */
  function ErrorsAfter(e: map<string, string>, k: string, err: Option<string>): map<string, string> {
    if err.Some? then e[k := err.value] else e
  }

  /** A diagnostics map after recording the rate-counter warning under `k`, if `warned`. */
  function WarningsAfter(w: map<string, string>, k: string, warned: bool): map<string, string> {
    if warned then w[k := RateCounterWithoutRate] else w
  }

  lemma PlanSnoc(p: Planning, baseline: bool, dicts: seq<map<string, Metric>>, sets: seq<seq<Metric>>,
                 d: map<string, Metric>, s: seq<Metric>, count: nat)
    requires |dicts| == |sets|
    ensures Plan(p, baseline, dicts + [d], sets + [s], count) ==
            match Plan(p, baseline, dicts, sets, count)
            case Abrupt(f) => Abrupt(f)
            case Normal(pl) =>
              match SetArgs(p, baseline, s)
              case Abrupt(f) => Abrupt(f)
              case Normal(a) =>
                var b := Build(a, pl.count);
                Normal(Planned(pl.requests + [MetricsAndUrl(d, RequestUrl(p, b.url))], b.renderCount,
                               if b.error.Some? then b.error else pl.error, pl.warned || b.warned))
  {
    assert (dicts + [d])[..|dicts|] == dicts;
    assert (sets + [s])[..|sets|] == sets;
  }

  /** Whether the query-string function throws does not depend on the set. */
  lemma SetArgsThrowUniformly(p: Planning, baseline: bool, ms: seq<Metric>, ms': seq<Metric>)
    ensures SetArgs(p, baseline, ms).Abrupt? == SetArgs(p, baseline, ms').Abrupt?
    ensures SetArgs(p, baseline, ms).Abrupt? ==> SetArgs(p, baseline, ms) == SetArgs(p, baseline, ms')
  {
  }

  /** A set whose query throws is the first set, and `constructUrls` throws with it. */
  lemma ThrowAtFirst(p: Planning, baseline: bool, dicts: seq<map<string, Metric>>,
                     sets: seq<seq<Metric>>, count: nat, i: nat)
    requires |dicts| == |sets| && i < |sets|
    requires i > 0 ==> SetArgs(p, baseline, sets[0]).Normal?
    requires SetArgs(p, baseline, sets[i]).Abrupt?
    ensures i == 0
    ensures Plan(p, baseline, dicts, sets, count) == Abrupt(SetArgs(p, baseline, sets[0]).fault)
  {
    SetArgsThrowUniformly(p, baseline, sets[0], sets[i]);
    PlanSnoc(p, baseline, [], [], dicts[0], sets[0], count);
    assert dicts[..1] == [dicts[0]] && sets[..1] == [sets[0]];
    PlanAbruptStays(p, baseline, dicts, sets, count, 1);
  }

  /** Once `constructUrls` has thrown, it has thrown for good. */
  lemma {:induction false} PlanAbruptStays(p: Planning, baseline: bool, dicts: seq<map<string, Metric>>,
                                           sets: seq<seq<Metric>>, count: nat, i: nat)
    requires |dicts| == |sets| && i <= |sets|
    requires Plan(p, baseline, dicts[..i], sets[..i], count).Abrupt?
    ensures Plan(p, baseline, dicts, sets, count) == Plan(p, baseline, dicts[..i], sets[..i], count)
    decreases |sets| - i
  {
    if i == |sets| {
      assert dicts[..i] == dicts && sets[..i] == sets;
    } else {
      PlanSnoc(p, baseline, dicts[..i], sets[..i], dicts[i], sets[i], count);
      TakeSnoc(dicts, i);
      TakeSnoc(sets, i);
      PlanAbruptStays(p, baseline, dicts, sets, count, i + 1);
    }
  }

  /** A completed plan has one request per set, carrying that set's dictionary. */
  lemma {:induction false} PlanShape(p: Planning, baseline: bool, dicts: seq<map<string, Metric>>,
                                     sets: seq<seq<Metric>>, count: nat)
    requires |dicts| == |sets|
    requires Plan(p, baseline, dicts, sets, count).Normal?
    ensures |Plan(p, baseline, dicts, sets, count).value.requests| == |sets|
    ensures forall i :: 0 <= i < |sets| ==> Plan(p, baseline, dicts, sets, count).value.requests[i].metrics == dicts[i]
  {
    if sets != [] {
      var init, initSets := dicts[..|dicts| - 1], sets[..|sets| - 1];
      PlanLast(p, baseline, dicts, sets, count);
      PlanShape(p, baseline, init, initSets, count);
      var r, r0 := Plan(p, baseline, dicts, sets, count).value.requests,
                   Plan(p, baseline, init, initSets, count).value.requests;
      forall i | 0 <= i < |sets| ensures r[i].metrics == dicts[i] {
        if i < |r0| {
          assert r[i] == r[..|r0|][i];
          assert init[i] == dicts[i];
        }
      }
    }
  }

  /** A completed plan extends the plan of all but the last set by one request, which
      carries the last dictionary. */
  lemma PlanLast(p: Planning, baseline: bool, dicts: seq<map<string, Metric>>, sets: seq<seq<Metric>>, count: nat)
    requires |dicts| == |sets| && sets != []
    requires Plan(p, baseline, dicts, sets, count).Normal?
    ensures Plan(p, baseline, dicts[..|dicts| - 1], sets[..|sets| - 1], count).Normal?
    ensures var r, r0 := Plan(p, baseline, dicts, sets, count).value.requests,
                         Plan(p, baseline, dicts[..|dicts| - 1], sets[..|sets| - 1], count).value.requests;
            |r| == |r0| + 1 && r[..|r0|] == r0 && r[|r0|].metrics == dicts[|dicts| - 1]
  {
  }

  /** The main queries never throw. */
  lemma {:induction false} PlanMainNormal(p: Planning, dicts: seq<map<string, Metric>>, sets: seq<seq<Metric>>, count: nat)
    requires |dicts| == |sets|
    ensures Plan(p, false, dicts, sets, count).Normal?
  {
    if sets != [] {
      PlanMainNormal(p, dicts[..|dicts| - 1], sets[..|sets| - 1], count);
    }
  }

  /** Whether each main query writes an `&ignore=` token: no end date and no auto-reload. */
  predicate MainIgnores(p: Planning) {
    !p.g.autoReload && TimeWindow.ToTimestampAsTsdbString(p.cal, p.g).None?
  }

  function MainSetArgs(p: Planning, ms: seq<Metric>): QueryArgs {
    MainArgs(p.cal, p.g, p.graphId, ms, None, p.now, p.options.downsampleOverride, false, p.filtersSupported)
  }

  /** The counter value the `i`-th main query is built on. */
  function CounterAt(p: Planning, count: nat, i: nat): nat {
    if MainIgnores(p) then count + i else count
  }

  /** An invariant of the main plan over `sets`: no error, and the `i`-th request is
      the query of set `i` built on `CounterAt(p, count, i)`. */
  predicate MainPlanned(p: Planning, dicts: seq<map<string, Metric>>, sets: seq<seq<Metric>>, count: nat)
    requires |dicts| == |sets|
  {
    && Plan(p, false, dicts, sets, count).Normal?
    && var pl := Plan(p, false, dicts, sets, count).value;
       && pl.error.None?
       && pl.count == CounterAt(p, count, |sets|)
       && |pl.requests| == |sets|
       && (forall i :: 0 <= i < |sets| ==>
             pl.requests[i].url == RequestUrl(p, Build(MainSetArgs(p, sets[i]), CounterAt(p, count, i)).url))
  }

  lemma PlanMainStep(p: Planning, dicts: seq<map<string, Metric>>, sets: seq<seq<Metric>>,
                     d: map<string, Metric>, ms: seq<Metric>, count: nat)
    requires |dicts| == |sets|
    requires TimeWindow.FromTimestampAsTsdbString(p.cal, p.g) != "" && ms != []
    requires MainPlanned(p, dicts, sets, count)
    ensures MainPlanned(p, dicts + [d], sets + [ms], count)
  {
    var n := |sets|;
    var pl := Plan(p, false, dicts, sets, count).value;
    PlanSnoc(p, false, dicts, sets, d, ms, count);
    var a := MainSetArgs(p, ms);
    var c := CounterAt(p, count, n);
    BuildCounter(a, c);
    BuildValidation(a, c);
    var b := Build(a, c);
    assert b.error.None? && b.renderCount == CounterAt(p, count, n + 1);
    var all := Plan(p, false, dicts + [d], sets + [ms], count).value;
    assert all.requests == pl.requests + [MetricsAndUrl(d, RequestUrl(p, b.url))];
    forall i | 0 <= i < n + 1
      ensures all.requests[i].url == RequestUrl(p, Build(MainSetArgs(p, (sets + [ms])[i]), CounterAt(p, count, i)).url)
    {
      if i < n { assert (sets + [ms])[i] == sets[i]; }
    }
  }

  /** The main queries over non-empty sets with a start date: no error, and the `i`-th
      query is built on the counter value advanced once per earlier set when the
      `&ignore=` token is written. */
  lemma {:induction false} PlanMainRequests(p: Planning, dicts: seq<map<string, Metric>>, sets: seq<seq<Metric>>, count: nat)
    requires |dicts| == |sets|
    requires TimeWindow.FromTimestampAsTsdbString(p.cal, p.g) != ""
    requires forall i :: 0 <= i < |sets| ==> sets[i] != []
    ensures MainPlanned(p, dicts, sets, count)
  {
    if sets != [] {
      var n := |sets| - 1;
      var init, dinit := sets[..n], dicts[..n];
      assert forall i :: 0 <= i < n ==> init[i] == sets[i];
      assert sets == init + [sets[n]] && dicts == dinit + [dicts[n]];
      PlanMainRequests(p, dinit, init, count);
      PlanMainStep(p, dinit, init, dicts[n], sets[n], count);
    }
  }

  /** When the main queries write `&ignore=`, the sets get the tokens `count + 1`,
      `count + 2`, ... in order, so no two of their URLs are alike. */
  lemma PlanMainIgnoreTokens(p: Planning, dicts: seq<map<string, Metric>>, sets: seq<seq<Metric>>, count: nat, i: nat)
    requires |dicts| == |sets|
    requires TimeWindow.FromTimestampAsTsdbString(p.cal, p.g) != ""
    requires forall i :: 0 <= i < |sets| ==> sets[i] != []
    requires MainIgnores(p) && i < |sets|
    ensures Plan(p, false, dicts, sets, count).Normal?
    ensures |Plan(p, false, dicts, sets, count).value.requests| == |sets|
    ensures Plan(p, false, dicts, sets, count).value.requests[i].url
            == RequestUrl(p, IgnoredQuery(p, sets[i], count + i + 1))
  {
    PlannedToken(p, dicts, sets, count, i, count + i + 1);
  }

  /** `PlanMainIgnoreTokens` for the token `n` named apart. */
  lemma PlannedToken(p: Planning, dicts: seq<map<string, Metric>>, sets: seq<seq<Metric>>, count: nat, i: nat, n: nat)
    requires |dicts| == |sets|
    requires TimeWindow.FromTimestampAsTsdbString(p.cal, p.g) != ""
    requires forall i :: 0 <= i < |sets| ==> sets[i] != []
    requires MainIgnores(p) && i < |sets| && n == count + i + 1
    ensures Plan(p, false, dicts, sets, count).Normal?
    ensures |Plan(p, false, dicts, sets, count).value.requests| == |sets|
    ensures Plan(p, false, dicts, sets, count).value.requests[i].url == RequestUrl(p, IgnoredQuery(p, sets[i], n))
  {
    MainPlannedAt(p, dicts, sets, count, i);
    var c := CounterAt(p, count, i);
    assert c + 1 == n;
    IgnoreTokenUrl(p, sets[i], c);
  }

  /** The `i`-th request of a main plan. */
  lemma MainPlannedAt(p: Planning, dicts: seq<map<string, Metric>>, sets: seq<seq<Metric>>, count: nat, i: nat)
    requires |dicts| == |sets| && i < |sets|
    requires TimeWindow.FromTimestampAsTsdbString(p.cal, p.g) != ""
    requires forall i :: 0 <= i < |sets| ==> sets[i] != []
    ensures Plan(p, false, dicts, sets, count).Normal?
    ensures |Plan(p, false, dicts, sets, count).value.requests| == |sets|
    ensures Plan(p, false, dicts, sets, count).value.requests[i].url
            == RequestUrl(p, Build(MainSetArgs(p, sets[i]), CounterAt(p, count, i)).url)
  {
    PlanMainRequests(p, dicts, sets, count);
  }

  /** The query string of the main set `ms` that ignores caching with token `n`. */
  function IgnoredQuery(p: Planning, ms: seq<Metric>, n: nat): string {
    "start=" + TimeWindow.FromTimestampAsTsdbString(p.cal, p.g)
    + "&ignore=" + Numbers.NatToString(n) + Fragments(MainSetArgs(p, ms).config, ms)
  }

  /** A main query built while the window ignores caching carries the next counter value. */
  lemma IgnoreTokenUrl(p: Planning, ms: seq<Metric>, c: nat)
    requires TimeWindow.FromTimestampAsTsdbString(p.cal, p.g) != ""
    requires MainIgnores(p) && ms != []
    ensures Build(MainSetArgs(p, ms), c).url == IgnoredQuery(p, ms, c + 1)
  {
    var a := MainSetArgs(p, ms);
    assert !MissingStart(a) && a.metrics != [] && !a.autoReload && a.to.None? && !a.noIgnore;
    BuildCounter(a, c);
  }

  /** When the ignore token is written, the requests of one call of `constructUrls` all
      have different URLs: request i carries `ignore=count+i+1` and nothing after the
      token's digits can be read as one more digit. */
  lemma IgnoredRequestsDiffer(p: Planning, dicts: seq<map<string, Metric>>, sets: seq<seq<Metric>>, count: nat,
                              i: nat, j: nat)
    requires |dicts| == |sets|
    requires TimeWindow.FromTimestampAsTsdbString(p.cal, p.g) != ""
    requires forall i :: 0 <= i < |sets| ==> sets[i] != []
    requires MainIgnores(p) && i < |sets| && j < |sets| && i != j
    ensures Plan(p, false, dicts, sets, count).Normal?
    ensures |Plan(p, false, dicts, sets, count).value.requests| == |sets|
    ensures Plan(p, false, dicts, sets, count).value.requests[i].url
         != Plan(p, false, dicts, sets, count).value.requests[j].url
  {
    var n, n' := count + i + 1, count + j + 1;
    PlannedToken(p, dicts, sets, count, i, n);
    PlannedToken(p, dicts, sets, count, j, n');
    IgnoredUrlsDiffer(p, sets[i], sets[j], n, n');
  }

  /** Two ignore-token request URLs with different counter values differ. */
  lemma IgnoredUrlsDiffer(p: Planning, ms: seq<Metric>, ms': seq<Metric>, n: nat, n': nat)
    requires n != n'
    ensures RequestUrl(p, IgnoredQuery(p, ms, n)) != RequestUrl(p, IgnoredQuery(p, ms', n'))
  {
    var t, t' := Numbers.NatToString(n), Numbers.NatToString(n');
    var rest := Fragments(MainSetArgs(p, ms).config, ms) + UrlSuffix(p.options);
    var rest' := Fragments(MainSetArgs(p, ms').config, ms') + UrlSuffix(p.options);
    IgnoredUrlShape(p, ms, n);
    IgnoredUrlShape(p, ms', n');
    AfterTokenIsAmpersand(MainSetArgs(p, ms).config, ms, p.options);
    AfterTokenIsAmpersand(MainSetArgs(p, ms').config, ms', p.options);
    if IgnoreHead(p) + (t + rest) == IgnoreHead(p) + (t' + rest') {
      CommonHead(IgnoreHead(p), t + rest, t' + rest');
      DigitRunsAgree(t, rest, t', rest');
      NatToStringInjective(n, n');
    }
  }

  /** A request URL up to the digits of its ignore token. */
  function IgnoreHead(p: Planning): string {
    p.baseReadUrl + "/api/query?" + "start=" + TimeWindow.FromTimestampAsTsdbString(p.cal, p.g) + "&ignore="
  }

  /** An ignore-token request URL is the head, the token's digits and what follows them. */
  lemma IgnoredUrlShape(p: Planning, ms: seq<Metric>, n: nat)
    ensures RequestUrl(p, IgnoredQuery(p, ms, n))
         == IgnoreHead(p) + (Numbers.NatToString(n) + (Fragments(MainSetArgs(p, ms).config, ms) + UrlSuffix(p.options)))
  {
    TokenRegroup(p.baseReadUrl, "/api/query?", "start=", TimeWindow.FromTimestampAsTsdbString(p.cal, p.g), "&ignore=",
                 Numbers.NatToString(n), Fragments(MainSetArgs(p, ms).config, ms), UrlSuffix(p.options));
  }

  lemma TokenRegroup(x: string, y: string, c: string, s: string, e: string, t: string, f: string, u: string)
    ensures x + y + (c + s + e + t + f) + u == x + y + c + s + e + (t + (f + u))
  {
  }

  lemma CommonHead(h: string, x: string, y: string)
    requires h + x == h + y
    ensures x == y
  {
    assert (h + x)[|h|..] == x;
    assert (h + y)[|h|..] == y;
  }

  /** What follows the token in a request URL, the metric fragments and then the
      suffix, starts with `&`. */
  lemma AfterTokenIsAmpersand(c: FragmentConfig, ms: seq<Metric>, o: QueryOptions)
    ensures |Fragments(c, ms) + UrlSuffix(o)| > 0 && (Fragments(c, ms) + UrlSuffix(o))[0] == '&'
  {
    FragmentsStartWithAmpersand(c, ms);
    UrlSuffixIsJoin(o);
  }

  lemma {:induction false} FragmentsStartWithAmpersand(c: FragmentConfig, ms: seq<Metric>)
    ensures Fragments(c, ms) == "" || Fragments(c, ms)[0] == '&'
    decreases |ms|
  {
    if ms != [] {
      FragmentsStartWithAmpersand(c, ms[..|ms| - 1]);
    }
  }

  /** Two digit runs each followed by a non-digit that spell the same text are equal. */
  lemma DigitRunsAgree(t: string, r: string, t': string, r': string)
    requires Numbers.AllDigits(t) && Numbers.AllDigits(t')
    requires |r| > 0 && !Numbers.IsDigit(r[0]) && |r'| > 0 && !Numbers.IsDigit(r'[0])
    requires t + r == t' + r'
    ensures t == t'
  {
    DigitRunNotLonger(t, r, t', r');
    DigitRunNotLonger(t', r', t, r);
    assert (t + r)[..|t|] == t;
    assert (t' + r')[..|t'|] == t';
  }

  /** A digit run followed by a non-digit is no shorter than any digit run it begins with. */
  lemma DigitRunNotLonger(t: string, r: string, t': string, r': string)
    requires Numbers.AllDigits(t') && |r| > 0 && !Numbers.IsDigit(r[0])
    requires t + r == t' + r'
    ensures |t'| <= |t|
  {
    if |t| < |t'| {
      ConcatAt(t, r, t', r', |t|);
      assert false;
    }
  }

  /** Where two splittings of one text overlap, the tail of the first holds what the
      head of the second holds. */
  lemma ConcatAt(a: string, b: string, a': string, b': string, k: nat)
    requires a + b == a' + b' && |a| <= k < |a'| && k < |a| + |b|
    ensures b[k - |a|] == a'[k]
  {
    assert (a + b)[k] == b[k - |a|];
    assert (a' + b')[k] == a'[k];
  }

  /** The main requests of `perform_queries`: one per set of the partition, none
      recording an error, counting on from the counter's value. */
  lemma MainRequestsOfMetrics(p: Planning, metrics: seq<Metric>, count: nat)
    requires TimeWindow.FromTimestampAsTsdbString(p.cal, p.g) != ""
    ensures MainPlanned(p, Dicts(metrics), Partition(metrics), count)
  {
    PartitionSetsNonEmpty(metrics);
    PlanMainRequests(p, Dicts(metrics), Partition(metrics), count);
  }

  lemma ErrorsAfterTwice(e: map<string, string>, k: string, first: Option<string>, second: Option<string>)
    ensures ErrorsAfter(ErrorsAfter(e, k, first), k, second) == ErrorsAfter(e, k, if second.Some? then second else first)
  {
  }

  lemma WarningsAfterTwice(w: map<string, string>, k: string, first: bool, second: bool)
    ensures WarningsAfter(WarningsAfter(w, k, first), k, second) == WarningsAfter(w, k, first || second)
  {
  }

  class GraphServices {
    var imageRenderCount: nat

    constructor()
      ensures imageRenderCount == 0
    {
      imageRenderCount := 0;
    }

    /** `tsdb_queryStringInternal`: the text, counter and diagnostics are those of
        `Build` on the counter's value before the call. */
    method QueryStringInternal(ctx: RenderContext, a: QueryArgs) returns (url: string)
      modifies this, ctx
      ensures url == Build(a, old(imageRenderCount)).url
      ensures imageRenderCount == Build(a, old(imageRenderCount)).renderCount
      ensures ctx.renderErrors == if Build(a, old(imageRenderCount)).error.Some?
                                  then old(ctx.renderErrors)[a.graphId := Build(a, old(imageRenderCount)).error.value]
                                  else old(ctx.renderErrors)
      ensures ctx.renderWarnings == if Build(a, old(imageRenderCount)).warned
                                    then old(ctx.renderWarnings)[a.graphId := RateCounterWithoutRate]
                                    else old(ctx.renderWarnings)
      ensures ctx.renderMessages == old(ctx.renderMessages)
    {
      // validation
      if a.from.None? || a.from.value == "" {
        ctx.renderErrors := ctx.renderErrors[a.graphId := NoStartDate];
        return "";
      }
      if |a.metrics| == 0 {
        ctx.renderErrors := ctx.renderErrors[a.graphId := NoMetrics];
        return "";
      }
      url := "start=" + a.from.value;
      var end := WriteEnd(a);
      url := url + end;
      var fragments := WriteFragments(ctx, a.graphId, a.config, a.metrics);
      url := url + fragments;
    }

    /** The end parameter, with the pre-increment of the counter for `&ignore=`. */
    method WriteEnd(a: QueryArgs) returns (end: string)
      modifies this
      ensures (end, imageRenderCount) == EndParameter(a, old(imageRenderCount))
    {
      if a.autoReload && a.allowAutoReloadOverrideEndDate {
        end := "&end=" + a.nowText;
      } else if a.to.Some? {
        end := "&end=" + a.to.value;
      } else if !a.noIgnore {
        imageRenderCount := imageRenderCount + 1;
        end := "&ignore=" + Numbers.NatToString(imageRenderCount);
      } else {
        end := "";
      }
    }

    /** One pass of the metric loop: the metric's sub-query is appended to `text`, and
        its rate-counter warning written. */
    static method WriteFragment(ctx: RenderContext, graphId: string, c: FragmentConfig,
                                text: string, ghost done: seq<Metric>, metric: Metric)
      returns (text': string)
      requires text == Fragments(c, done)
      modifies ctx
      ensures text' == Fragments(c, done + [metric])
      ensures ctx.renderWarnings == WarningsAfter(old(ctx.renderWarnings), graphId, RateCounterIgnored(metric))
      ensures ctx.renderErrors == old(ctx.renderErrors) && ctx.renderMessages == old(ctx.renderMessages)
    {
      var fragment, warn := MetricFragmentOf(c, metric);
      FragmentAppended(c, done, metric, text, fragment);
      text' := text + fragment;
      WarnRateCounter(ctx, graphId, warn);
    }

    /** Records the rate-counter warning under `graphId` when `warn` is set. */
    static method WarnRateCounter(ctx: RenderContext, graphId: string, warn: bool)
      modifies ctx
      ensures ctx.renderWarnings == WarningsAfter(old(ctx.renderWarnings), graphId, warn)
      ensures ctx.renderErrors == old(ctx.renderErrors) && ctx.renderMessages == old(ctx.renderMessages)
    {
      if warn {
        ctx.renderWarnings := ctx.renderWarnings[graphId := RateCounterWithoutRate];
      }
    }

    /** The metric loop: one sub-query per metric, and the warning for each metric
        that asks for a rate counter without a rate. */
    static method WriteFragments(ctx: RenderContext, graphId: string, c: FragmentConfig, metrics: seq<Metric>)
      returns (text: string)
      modifies ctx
      ensures text == Fragments(c, metrics)
      ensures ctx.renderWarnings == if AnyRateCounterIgnored(metrics)
                                    then old(ctx.renderWarnings)[graphId := RateCounterWithoutRate]
                                    else old(ctx.renderWarnings)
      ensures ctx.renderErrors == old(ctx.renderErrors) && ctx.renderMessages == old(ctx.renderMessages)
    {
      text := "";
      ghost var done: seq<Metric> := [];
      ghost var w0 := ctx.renderWarnings;
      for i := 0 to |metrics|
        invariant done == metrics[..i]
        invariant text == Fragments(c, done)
        invariant ctx.renderWarnings == WarningsAfter(w0, graphId, AnyRateCounterIgnored(done))
        invariant ctx.renderErrors == old(ctx.renderErrors) && ctx.renderMessages == old(ctx.renderMessages)
      {
        var metric := metrics[i];
        TakeSnoc(metrics, i);
        AnyRateCounterIgnoredSnoc(done, metric);
        WarningsAfterTwice(w0, graphId, AnyRateCounterIgnored(done), RateCounterIgnored(metric));
        text := WriteFragment(ctx, graphId, c, text, done, metric);
        done := done + [metric];
      }
      TakeAll(metrics);
    }

    /** `tsdb_queryString`: the main window, with auto-reload allowed to set the end. */
    method QueryString(ctx: RenderContext, cal: TimeWindow.Calendar, g: TimeWindow.GlobalConfig, graphId: string,
                       metrics: seq<Metric>, perLine: Option<Metric -> string>, now: int,
                       downsampleOverride: Option<string -> string>, noIgnore: bool, filtersSupported: bool)
      returns (url: string)
      modifies this, ctx
      ensures var a := MainArgs(cal, g, graphId, metrics, perLine, now, downsampleOverride, noIgnore, filtersSupported);
              url == Build(a, old(imageRenderCount)).url
              && imageRenderCount == Build(a, old(imageRenderCount)).renderCount
              && ctx.renderErrors == (if Build(a, old(imageRenderCount)).error.Some?
                                      then old(ctx.renderErrors)[graphId := Build(a, old(imageRenderCount)).error.value]
                                      else old(ctx.renderErrors))
              && ctx.renderWarnings == (if Build(a, old(imageRenderCount)).warned
                                        then old(ctx.renderWarnings)[graphId := RateCounterWithoutRate]
                                        else old(ctx.renderWarnings))
      ensures ctx.renderMessages == old(ctx.renderMessages)
    {
      url := QueryStringInternal(ctx, MainArgs(cal, g, graphId, metrics, perLine, now, downsampleOverride, noIgnore, filtersSupported));
    }

    /** `tsdb_queryStringForBaseline`: the baseline window; an exception thrown while
        computing it propagates before anything is written. */
    method QueryStringForBaseline(ctx: RenderContext, cal: TimeWindow.Calendar, g: TimeWindow.GlobalConfig, graphId: string,
                                  metrics: seq<Metric>, perLine: Option<Metric -> string>, now: int,
                                  downsampleOverride: Option<string -> string>, filtersSupported: bool)
      returns (r: Completion<string>)
      modifies this, ctx
      ensures var b := BaselineArgs(cal, g, graphId, metrics, perLine, now, downsampleOverride, filtersSupported);
              if b.Abrupt? then
                r == Abrupt(b.fault) && imageRenderCount == old(imageRenderCount)
                && ctx.renderErrors == old(ctx.renderErrors) && ctx.renderWarnings == old(ctx.renderWarnings)
              else
                r == Normal(Build(b.value, old(imageRenderCount)).url)
                && imageRenderCount == Build(b.value, old(imageRenderCount)).renderCount
                && ctx.renderErrors == (if Build(b.value, old(imageRenderCount)).error.Some?
                                        then old(ctx.renderErrors)[graphId := Build(b.value, old(imageRenderCount)).error.value]
                                        else old(ctx.renderErrors))
                && ctx.renderWarnings == (if Build(b.value, old(imageRenderCount)).warned
                                          then old(ctx.renderWarnings)[graphId := RateCounterWithoutRate]
                                          else old(ctx.renderWarnings))
      ensures ctx.renderMessages == old(ctx.renderMessages)
    {
      var b := BaselineArgs(cal, g, graphId, metrics, perLine, now, downsampleOverride, filtersSupported);
      if b.Abrupt? {
        return Abrupt(b.fault);
      }
      var url := QueryStringInternal(ctx, b.value);
      r := Normal(url);
    }

    /** One round of `constructUrls`: the query string of one set (through
        `tsdb_queryString` or `tsdb_queryStringForBaseline`) between the data path and the
        option suffix. */
    method RequestFor(ctx: RenderContext, p: Planning, baseline: bool, ms: seq<Metric>, dict: map<string, Metric>)
      returns (r: Completion<MetricsAndUrl>)
      modifies this, ctx
      ensures match SetArgs(p, baseline, ms)
              case Abrupt(f) =>
                r == Abrupt(f) && imageRenderCount == old(imageRenderCount)
                && ctx.renderErrors == old(ctx.renderErrors) && ctx.renderWarnings == old(ctx.renderWarnings)
              case Normal(a) =>
                var b := Build(a, old(imageRenderCount));
                r == Normal(MetricsAndUrl(dict, RequestUrl(p, b.url)))
                && imageRenderCount == b.renderCount
                && ctx.renderErrors == ErrorsAfter(old(ctx.renderErrors), p.graphId, b.error)
                && ctx.renderWarnings == WarningsAfter(old(ctx.renderWarnings), p.graphId, b.warned)
      ensures ctx.renderMessages == old(ctx.renderMessages)
    {
      var qs: string;
      if baseline {
        var q := QueryStringForBaseline(ctx, p.cal, p.g, p.graphId, ms, None, p.now,
                                        p.options.downsampleOverride, p.filtersSupported);
        if q.Abrupt? {
          return Abrupt(q.fault);
        }
        qs := q.value;
      } else {
        qs := QueryString(ctx, p.cal, p.g, p.graphId, ms, None, p.now, p.options.downsampleOverride,
                          false, p.filtersSupported);
      }
      var url := p.baseReadUrl + "/api/query?";
      url := url + qs;
      url := url + UrlSuffix(p.options);
      r := Normal(MetricsAndUrl(dict, url));
    }

    /** The service and render context hold what `Plan` says after the given sets. */
    ghost predicate Tracks(ctx: RenderContext, p: Planning, baseline: bool,
                           dicts: seq<map<string, Metric>>, sets: seq<seq<Metric>>,
                           c0: nat, e0: map<string, string>, w0: map<string, string>,
                           requests: seq<MetricsAndUrl>)
      requires |dicts| == |sets|
      reads this, ctx
    {
      var plan := Plan(p, baseline, dicts, sets, c0);
      plan.Normal? && requests == plan.value.requests && imageRenderCount == plan.value.count
      && ctx.renderErrors == ErrorsAfter(e0, p.graphId, plan.value.error)
      && ctx.renderWarnings == WarningsAfter(w0, p.graphId, plan.value.warned)
    }

    /** Iteration `i` of the request loop of `constructUrls`: the query of set `i`, or the
        exception, which only the first set can raise. */
    method AddRequest(ctx: RenderContext, p: Planning, baseline: bool,
                      dicts: seq<map<string, Metric>>, arrays: seq<seq<Metric>>, i: nat,
                      requests: seq<MetricsAndUrl>,
                      ghost c0: nat, ghost e0: map<string, string>, ghost w0: map<string, string>)
      returns (r: Completion<seq<MetricsAndUrl>>)
      requires |dicts| == |arrays| && i < |arrays|
      requires Tracks(ctx, p, baseline, dicts[..i], arrays[..i], c0, e0, w0, requests)
      requires i > 0 ==> SetArgs(p, baseline, arrays[0]).Normal?
      modifies this, ctx
      ensures r.Normal? ==> SetArgs(p, baseline, arrays[i]).Normal?
                            && Tracks(ctx, p, baseline, dicts[..i + 1], arrays[..i + 1], c0, e0, w0, r.value)
      ensures r.Abrupt? ==> Plan(p, baseline, dicts, arrays, c0) == Abrupt(r.fault)
                            && imageRenderCount == c0 && ctx.renderErrors == e0 && ctx.renderWarnings == w0
      ensures ctx.renderMessages == old(ctx.renderMessages)
    {
      ghost var pl := Plan(p, baseline, dicts[..i], arrays[..i], c0).value;
      assert i == 0 ==> imageRenderCount == c0 && ctx.renderErrors == e0 && ctx.renderWarnings == w0 by {
        if i == 0 {
          assert dicts[..i] == [] && arrays[..i] == [];
        }
      }
      TakeSnoc(dicts, i);
      TakeSnoc(arrays, i);
      PlanSnoc(p, baseline, dicts[..i], arrays[..i], dicts[i], arrays[i], c0);
      var q := RequestFor(ctx, p, baseline, arrays[i], dicts[i]);
      if q.Abrupt? {
        ThrowAtFirst(p, baseline, dicts, arrays, c0, i);
        return Abrupt(q.fault);
      }
      ghost var b := Build(SetArgs(p, baseline, arrays[i]).value, pl.count);
      ErrorsAfterTwice(e0, p.graphId, pl.error, b.error);
      WarningsAfterTwice(w0, p.graphId, pl.warned, b.warned);
      r := Normal(requests + [q.value]);
    }

    /** The request loop of `constructUrls` over given sets and dictionaries. */
    method RequestsFor(ctx: RenderContext, p: Planning, baseline: bool,
                       dicts: seq<map<string, Metric>>, arrays: seq<seq<Metric>>)
      returns (r: Completion<seq<MetricsAndUrl>>)
      requires |dicts| == |arrays|
      modifies this, ctx
      ensures var plan := Plan(p, baseline, dicts, arrays, old(imageRenderCount));
              if plan.Abrupt? then
                r == Abrupt(plan.fault) && imageRenderCount == old(imageRenderCount)
                && ctx.renderErrors == old(ctx.renderErrors) && ctx.renderWarnings == old(ctx.renderWarnings)
              else
                r == Normal(plan.value.requests) && imageRenderCount == plan.value.count
                && ctx.renderErrors == ErrorsAfter(old(ctx.renderErrors), p.graphId, plan.value.error)
                && ctx.renderWarnings == WarningsAfter(old(ctx.renderWarnings), p.graphId, plan.value.warned)
      ensures ctx.renderMessages == old(ctx.renderMessages)
    {
      ghost var c0, e0, w0 := imageRenderCount, ctx.renderErrors, ctx.renderWarnings;
      var requests: seq<MetricsAndUrl> := [];
      for i := 0 to |arrays|
        invariant Tracks(ctx, p, baseline, dicts[..i], arrays[..i], c0, e0, w0, requests)
        invariant ctx.renderMessages == old(ctx.renderMessages)
        invariant i > 0 ==> SetArgs(p, baseline, arrays[0]).Normal?
      {
        var q := AddRequest(ctx, p, baseline, dicts, arrays, i, requests, c0, e0, w0);
        if q.Abrupt? {
          return Abrupt(q.fault);
        }
        requests := q.value;
      }
      TakeAll(dicts);
      TakeAll(arrays);
      r := Normal(requests);
    }

    /** `constructUrls`: the metrics split into sets, and one request per set. */
    method ConstructUrls(ctx: RenderContext, p: Planning, baseline: bool, metrics: seq<Metric>)
      returns (r: Completion<seq<MetricsAndUrl>>)
      modifies this, ctx
      ensures var plan := Plan(p, baseline, Dicts(metrics), Partition(metrics), old(imageRenderCount));
              if plan.Abrupt? then
                r == Abrupt(plan.fault) && imageRenderCount == old(imageRenderCount)
                && ctx.renderErrors == old(ctx.renderErrors) && ctx.renderWarnings == old(ctx.renderWarnings)
              else
                r == Normal(plan.value.requests) && imageRenderCount == plan.value.count
                && ctx.renderErrors == ErrorsAfter(old(ctx.renderErrors), p.graphId, plan.value.error)
                && ctx.renderWarnings == WarningsAfter(old(ctx.renderWarnings), p.graphId, plan.value.warned)
      ensures ctx.renderMessages == old(ctx.renderMessages)
    {
      var dicts, arrays := SeparateMetrics(metrics);
      r := RequestsFor(ctx, p, baseline, dicts, arrays);
    }

    /** `perform_queries` up to the point where the requests are out: the main
        requests, then the baseline requests when baselining is on and supported (an
        exception while building those propagates), and the shared state the response
        callbacks start from. */
    method PerformQueries(ctx: RenderContext, p: Planning, metrics: seq<Metric>) returns (r: Completion<QueryRun>)
      modifies this, ctx
      ensures Plan(p, false, Dicts(metrics), Partition(metrics), old(imageRenderCount)).Normal?
      ensures var main := Plan(p, false, Dicts(metrics), Partition(metrics), old(imageRenderCount)).value;
              var baselining := p.g.baselining && p.options.supportsBaselining;
              var base := Plan(p, true, Dicts(metrics), Partition(metrics), main.count);
              var e1 := ErrorsAfter(old(ctx.renderErrors), p.graphId, main.error);
              var w1 := WarningsAfter(old(ctx.renderWarnings), p.graphId, main.warned);
              if baselining && base.Abrupt? then
                r == Abrupt(base.fault)
                && imageRenderCount == main.count && ctx.renderErrors == e1 && ctx.renderWarnings == w1
              else
                r.Normal? && fresh(r.value) && r.value.Valid()
                && r.value.graphId == p.graphId
                && r.value.mainRequests == main.requests
                && r.value.baselineRequests == (if baselining then base.value.requests else [])
                && r.value.pendingMain == Range(|main.requests|)
                && r.value.pendingBaseline == Range(|r.value.baselineRequests|)
                && r.value.receivedNormalResponses == 0 && r.value.receivedBaselineResponses == 0
                && !r.value.errorResponse && r.value.processed == [] && r.value.errorCalls == 0
                && imageRenderCount == (if baselining then base.value.count else main.count)
                && ctx.renderErrors == (if baselining then ErrorsAfter(e1, p.graphId, base.value.error) else e1)
                && ctx.renderWarnings == (if baselining then WarningsAfter(w1, p.graphId, base.value.warned) else w1)
      ensures ctx.renderMessages == old(ctx.renderMessages)
    {
      PlanMainNormal(p, Dicts(metrics), Partition(metrics), imageRenderCount);
      PlanShape(p, false, Dicts(metrics), Partition(metrics), imageRenderCount);
      var urls := ConstructUrls(ctx, p, false, metrics);
      var baselineUrls: seq<MetricsAndUrl> := [];
      if p.g.baselining && p.options.supportsBaselining {
        ghost var main := Plan(p, false, Dicts(metrics), Partition(metrics), old(imageRenderCount)).value;
        assert imageRenderCount == main.count;
        var b := ConstructUrls(ctx, p, true, metrics);
        if b.Abrupt? {
          return Abrupt(b.fault);
        }
        PlanShape(p, true, Dicts(metrics), Partition(metrics), main.count);
        baselineUrls := b.value;
      }
      var run := new QueryRun(p.graphId, urls.value, baselineUrls);
      r := Normal(run);
    }

    /** `tsdbGraphUrl`: the export URL of a graph, or `None` (undefined) when the query
        string is rejected or a metric names an invalid axis. */
    method TsdbGraphUrl(path: Option<string>, ctx: RenderContext, baseReadUrl: string,
                        cal: TimeWindow.Calendar, g: TimeWindow.GlobalConfig, graphId: string,
                        metrics: seq<Metric>, forceAxis: Option<string>,
                        downsampleOverride: Option<string -> string>,
                        yAxis: Option<AxisParams>, y2Axis: Option<AxisParams>, key: Option<KeyParams>,
                        lineSmoothing: bool, style: Option<string>, globalAnnotations: bool,
                        addIgnore: bool, filtersSupported: bool, now: int)
      returns (r: Option<string>)
      modifies this, ctx
      ensures var a := MainArgs(cal, g, graphId, metrics, Some(AxisAnnotator(forceAxis)), now,
                                downsampleOverride, !addIgnore, filtersSupported);
              var b := Build(a, old(imageRenderCount));
              var sides := AxisSides(forceAxis, metrics);
              r == GraphUrl(baseReadUrl, path, b.url, sides, yAxis, y2Axis, key, lineSmoothing, style, globalAnnotations)
              && imageRenderCount == b.renderCount
              && ctx.renderErrors == (if b.error.Some? then old(ctx.renderErrors)[graphId := b.error.value]
                                      else if sides.None? then old(ctx.renderErrors)[graphId := InvalidAxis]
                                      else old(ctx.renderErrors))
              && ctx.renderWarnings == (if b.warned then old(ctx.renderWarnings)[graphId := RateCounterWithoutRate]
                                        else old(ctx.renderWarnings))
      ensures ctx.renderMessages == old(ctx.renderMessages)
    {
      ghost var a := MainArgs(cal, g, graphId, metrics, Some(AxisAnnotator(forceAxis)), now,
                              downsampleOverride, !addIgnore, filtersSupported);
      ghost var b := Build(a, imageRenderCount);
      BuildValidation(a, imageRenderCount);
      var qs := QueryString(ctx, cal, g, graphId, metrics, Some(AxisAnnotator(forceAxis)), now,
                            downsampleOverride, !addIgnore, filtersSupported);
      r := GraphUrlAfterQuery(ctx, baseReadUrl, path, qs, graphId, metrics, forceAxis,
                              yAxis, y2Axis, key, lineSmoothing, style, globalAnnotations);
    }

    /** The rest of `tsdbGraphUrl` once the query string `qs` is built: an empty one gives
        `None`, an invalid axis records its error and gives `None`, and otherwise the
        graph options follow the query string. */
    static method GraphUrlAfterQuery(ctx: RenderContext, baseReadUrl: string, path: Option<string>, qs: string,
                                     graphId: string, metrics: seq<Metric>, forceAxis: Option<string>,
                                     yAxis: Option<AxisParams>, y2Axis: Option<AxisParams>, key: Option<KeyParams>,
                                     lineSmoothing: bool, style: Option<string>, globalAnnotations: bool)
      returns (r: Option<string>)
      modifies ctx
      ensures r == GraphUrl(baseReadUrl, path, qs, AxisSides(forceAxis, metrics), yAxis, y2Axis, key,
                            lineSmoothing, style, globalAnnotations)
      ensures ctx.renderErrors == if qs != "" && AxisSides(forceAxis, metrics).None?
                                  then old(ctx.renderErrors)[graphId := InvalidAxis]
                                  else old(ctx.renderErrors)
      ensures ctx.renderWarnings == old(ctx.renderWarnings) && ctx.renderMessages == old(ctx.renderMessages)
    {
      var p := if path.None? then "/#" else path.value;
      var url := baseReadUrl + p;
      if qs == "" {
        return None;
      }
      url := url + qs;
      var valid, sides := CheckAxes(forceAxis, metrics);
      if !valid {
        ctx.RecordError(graphId, InvalidAxis);
        return None;
      }
      url := url + GraphOptionsText(sides.usingLeftAxis, sides.usingRightAxis, yAxis, y2Axis,
                                    key, lineSmoothing, style, globalAnnotations);
      r := Some(url);
    }

  }

  /** The export URL exists exactly when the query string passes validation and every
      metric's axis is valid. */
  lemma GraphUrlExistsIff(baseReadUrl: string, path: Option<string>, a: QueryArgs, count: nat,
                          forceAxis: Option<string>,
                          yAxis: Option<AxisParams>, y2Axis: Option<AxisParams>, key: Option<KeyParams>,
                          lineSmoothing: bool, style: Option<string>, globalAnnotations: bool)
    ensures GraphUrl(baseReadUrl, path, Build(a, count).url, AxisSides(forceAxis, a.metrics),
                     yAxis, y2Axis, key, lineSmoothing, style, globalAnnotations).Some?
            <==> Build(a, count).error.None?
                 && forall i :: 0 <= i < |a.metrics| ==> OnLeft(forceAxis, a.metrics[i]) || OnRight(forceAxis, a.metrics[i])
  {
    BuildValidation(a, count);
    AxisSidesIff(forceAxis, a.metrics);
  }

  lemma GraphUrlPrefix(baseReadUrl: string, path: Option<string>, qs: string, sides: Option<Sides>,
                       yAxis: Option<AxisParams>, y2Axis: Option<AxisParams>, key: Option<KeyParams>,
                       lineSmoothing: bool, style: Option<string>, globalAnnotations: bool, start: string)
    requires |start| <= |qs| && qs[..|start|] == start
    requires GraphUrl(baseReadUrl, path, qs, sides, yAxis, y2Axis, key, lineSmoothing, style, globalAnnotations).Some?
    ensures var r := GraphUrl(baseReadUrl, path, qs, sides, yAxis, y2Axis, key, lineSmoothing, style, globalAnnotations).value;
            var head := baseReadUrl + (if path.None? then "/#" else path.value) + start;
            |r| >= |head| && r[..|head|] == head
  {
    var r := GraphUrl(baseReadUrl, path, qs, sides, yAxis, y2Axis, key, lineSmoothing, style, globalAnnotations).value;
    var pre := baseReadUrl + (if path.None? then "/#" else path.value);
    assert r == pre + qs + r[|pre + qs|..];
    PrefixThrough(pre, qs, r[|pre + qs|..], start);
  }

  /** An export URL begins with the base URL, the path ("/#" when none is given) and
      `start=<from>`. */
  lemma GraphUrlStart(baseReadUrl: string, path: Option<string>, a: QueryArgs, count: nat,
                      forceAxis: Option<string>,
                      yAxis: Option<AxisParams>, y2Axis: Option<AxisParams>, key: Option<KeyParams>,
                      lineSmoothing: bool, style: Option<string>, globalAnnotations: bool)
    requires a.from.Some?
    requires GraphUrl(baseReadUrl, path, Build(a, count).url, AxisSides(forceAxis, a.metrics),
                      yAxis, y2Axis, key, lineSmoothing, style, globalAnnotations).Some?
    ensures var r := GraphUrl(baseReadUrl, path, Build(a, count).url, AxisSides(forceAxis, a.metrics),
                              yAxis, y2Axis, key, lineSmoothing, style, globalAnnotations).value;
            var head := baseReadUrl + (if path.None? then "/#" else path.value) + "start=" + a.from.value;
            |r| >= |head| && r[..|head|] == head
  {
    BuildValidation(a, count);
    BuildStart(a, count);
    GraphUrlPrefix(baseReadUrl, path, Build(a, count).url, AxisSides(forceAxis, a.metrics),
                   yAxis, y2Axis, key, lineSmoothing, style, globalAnnotations, "start=" + a.from.value);
    var pre := baseReadUrl + (if path.None? then "/#" else path.value);
    Base.Regroup(pre, "start=", a.from.value);
  }
}
