/** The OpenTSDB query string of one graph: the time parameters and one
    `&m=<aggregator>:[<downsample>:][rate[{counter[,max[,reset]]}]:]<metric>[{...}][{...}]`
    sub-query per metric, with the validation and diagnostics the builder records. */
module QueryString {
  import opened Base
  import Numbers

  /** A tag of a metric; `groupBy` null (legacy metrics) counts as true. */
  datatype Tag = Tag(name: string, value: string, groupBy: Option<bool>)

  /** The per-metric graph options the query depends on. An absent text field is "". */
  datatype GraphOptions = GraphOptions(
    aggregator: string,
    downsample: bool, downsampleBy: string, downsampleTo: string,
    rate: bool, rateCounter: bool, rateCounterMax: string, rateCounterReset: string,
    axis: Option<string>)

  datatype Metric = Metric(id: string, name: string, tags: seq<Tag>, graphOptions: GraphOptions)

  const NoStartDate := "No start date specified"
  const NoMetrics := "No metrics specified"
  const RateCounterWithoutRate := "You have specified a rate counter without a rate, ignoring"

  // ---------------------------------------------------------------------------
  // The rate token

  /** `tsdb_rateString`. */
  function RateString(o: GraphOptions): (r: string)
    ensures |r| >= 4 && r[..4] == "rate"
    ensures r == "rate" <==> !o.rateCounter
  {
    if !o.rateCounter then "rate"
    else
      var withMax := "rate{counter" + (if o.rateCounterMax != "" then "," + o.rateCounterMax else "");
      var resetSep := if o.rateCounterMax != "" then "," else ",,";
      withMax + (if o.rateCounterReset != "" then resetSep + o.rateCounterReset else "") + "}"
  }

  /** Reads a rate token back as (counter, max, reset). */
  function ParseRate(r: string): Option<(bool, string, string)> {
    if r == "rate" then Some((false, "", ""))
    else if |r| >= 13 && r[..12] == "rate{counter" && r[|r| - 1] == '}' then
      var body := r[12..|r| - 1];
      if body == "" then Some((true, "", ""))
      else if body[0] != ',' then None
      else
        var x := body[1..];
        var k := IndexOf(x, ',');
        if k < 0 then Some((true, x, "")) else Some((true, x[..k], x[k + 1..]))
    else None
  }

  /** The rate token is unambiguous: the counter flag, the maximum and the reset value
      can be read back from it (this is what the ",," for an absent maximum is for). */
  lemma RateStringRoundTrip(o: GraphOptions)
    requires ',' !in o.rateCounterMax
    ensures ParseRate(RateString(o))
         == Some(if o.rateCounter then (true, o.rateCounterMax, o.rateCounterReset) else (false, "", ""))
  {
    if o.rateCounter {
      var m, z := o.rateCounterMax, o.rateCounterReset;
      var body := (if m != "" then "," + m else "") + (if z != "" then (if m != "" then "," else ",,") + z else "");
      assert RateString(o) == "rate{counter" + body + "}";
      CounterToken(body);
      CounterBody(m, z, body);
    }
  }

  /** A counter token is recognised, and what is read back is read from its body, what lies
      between `rate{counter` and `}`. */
  lemma CounterToken(body: string)
    ensures ParseRate("rate{counter" + body + "}")
         == if body == "" then Some((true, "", ""))
            else if body[0] != ',' then None
            else if IndexOf(body[1..], ',') < 0 then Some((true, body[1..], ""))
            else Some((true, body[1..][..IndexOf(body[1..], ',')], body[1..][IndexOf(body[1..], ',') + 1..]))
  {
    var r := "rate{counter" + body + "}";
    assert |r| == 13 + |body|;
    assert r != "rate";
    assert r[..12] == "rate{counter";
    assert r[12..|r| - 1] == body;
  }

  /** The body of a counter token reads back as its maximum and reset value. */
  lemma CounterBody(m: string, z: string, body: string)
    requires ',' !in m
    requires body == (if m != "" then "," + m else "") + (if z != "" then (if m != "" then "," else ",,") + z else "")
    ensures body == "" <==> m == "" && z == ""
    ensures body != "" ==> body[0] == ',' && var x := body[1..];
              (if IndexOf(x, ',') < 0 then (x, "") else (x[..IndexOf(x, ',')], x[IndexOf(x, ',') + 1..])) == (m, z)
  {
    if m != "" && z != "" {
      assert body == "," + (m + "," + z);
      var x := m + "," + z;
      assert body[1..] == x;
      IndexOfAfterPrefix(m, z, ',');
      assert x[..|m|] == m && x[|m| + 1..] == z;
    } else if m != "" {
      assert body == "," + m;
      assert body[1..] == m;
    } else if z != "" {
      assert body == "," + ("," + z);
      assert body[1..] == "," + z;
      assert IndexOf("," + z, ',') == 0;
      assert ("," + z)[1..] == z;
    }
  }

  /** The pinned examples: (5, "") gives `rate{counter,5}`, ("", "") gives
      `rate{counter}`, ("", "r") gives `rate{counter,,r}`. */
  lemma RateStringExamples(o: GraphOptions)
    requires o.rateCounter
    ensures o.rateCounterMax == "5" && o.rateCounterReset == "" ==> RateString(o) == "rate{counter,5}"
    ensures o.rateCounterMax == "" && o.rateCounterReset == "" ==> RateString(o) == "rate{counter}"
    ensures o.rateCounterMax == "" && o.rateCounterReset == "r" ==> RateString(o) == "rate{counter,,r}"
  {
  }

  // ---------------------------------------------------------------------------
  // Tag blocks

  /** A tag written into the group-by block: a value, and `groupBy` null or true. */
  predicate IsGroupByTag(t: Tag) { t.value != "" && (t.groupBy.None? || t.groupBy.value) }

  /** A tag written into the filter block: a value that is not a wildcard, and
      `groupBy` explicitly false. */
  predicate IsFilterTag(t: Tag) {
    t.value != "" && t.value != "*" && t.value != "wildcard(*)" && t.groupBy.Some? && !t.groupBy.value
  }

  function GroupByTags(ts: seq<Tag>): seq<Tag> { Filter(ts, IsGroupByTag) }

  function FilterTags(ts: seq<Tag>): seq<Tag> { Filter(ts, IsFilterTag) }

  function TagPairs(ts: seq<Tag>): (r: seq<(string, string)>)
    ensures |r| == |ts| && forall i :: 0 <= i < |ts| ==> r[i] == (ts[i].name, ts[i].value)
  {
    if ts == [] then [] else TagPairs(ts[..|ts| - 1]) + [(ts[|ts| - 1].name, ts[|ts| - 1].value)]
  }

  function PairTexts(ps: seq<(string, string)>): (r: seq<string>)
    ensures |r| == |ps| && forall i :: 0 <= i < |ps| ==> r[i] == ps[i].0 + "=" + ps[i].1
  {
    if ps == [] then [] else PairTexts(ps[..|ps| - 1]) + [ps[|ps| - 1].0 + "=" + ps[|ps| - 1].1]
  }

  /** `k1=v1,k2=v2,...` in list order. */
  function TagList(ts: seq<Tag>): string { Join(PairTexts(TagPairs(ts)), ",") }

  /** The group-by block and, when filters are supported, the filter block, with the
      empty `{}` placeholder the filter block needs when there is no group-by tag. */
  function TagBlocks(ts: seq<Tag>, filtersSupported: bool): string {
    GroupBlock(GroupByTags(ts)) + FilterBlock(GroupByTags(ts) != [], FilterTags(ts), filtersSupported)
  }

  /** The group-by block: absent when no tag groups. */
  function GroupBlock(g: seq<Tag>): string {
    if g != [] then "{" + TagList(g) + "}" else ""
  }

  /** The filter block, after an empty `{}` when there is no group-by block. */
  function FilterBlock(grouped: bool, f: seq<Tag>, filtersSupported: bool): string {
    if filtersSupported && f != [] then (if grouped then "" else "{}") + "{" + TagList(f) + "}" else ""
  }

  lemma TagListSnoc(ts: seq<Tag>, t: Tag)
    requires ts != []
    ensures TagList(ts + [t]) == TagList(ts) + "," + (t.name + "=" + t.value)
  {
    assert (ts + [t])[..|ts|] == ts;
    assert TagPairs(ts + [t]) == TagPairs(ts) + [(t.name, t.value)];
    assert PairTexts(TagPairs(ts) + [(t.name, t.value)]) == PairTexts(TagPairs(ts)) + [t.name + "=" + t.value];
    JoinSnoc(PairTexts(TagPairs(ts)), t.name + "=" + t.value, ",");
  }

  /** What a tag loop has written after the selected tags `ts`: nothing, or the
      opening text `open` and the list so far (the closing brace is still missing). */
  function Unclosed(ts: seq<Tag>, open: string): string {
    if |ts| == 0 then "" else open + TagList(ts)
  }

  /** The first selected tag opens the list. */
  lemma UnclosedFirst(prefix: string, t: Tag, open: string)
    ensures prefix + (open + t.name + "=" + t.value) == prefix + Unclosed([t], open)
  {
    assert TagPairs([t]) == [(t.name, t.value)];
    assert TagList([t]) == t.name + "=" + t.value;
  }

  /** A later selected tag continues it after a comma. */
  lemma UnclosedNext(prefix: string, ts: seq<Tag>, t: Tag, open: string)
    requires |ts| > 0
    ensures prefix + (open + TagList(ts)) + ("," + t.name + "=" + t.value)
         == prefix + Unclosed(ts + [t], open)
  {
    TagListSnoc(ts, t);
  }

  /** One more selected tag: `url += sep + name + "=" + value` extends the open list. */
  lemma UnclosedStep(prefix: string, ts: seq<Tag>, t: Tag, open: string, sep: string)
    requires sep == if |ts| == 0 then open else ","
    ensures prefix + Unclosed(ts, open) + (sep + t.name + "=" + t.value)
         == prefix + Unclosed(ts + [t], open)
  {
    if |ts| == 0 {
      UnclosedFirst(prefix, t, open);
      assert prefix + "" == prefix;
    } else {
      UnclosedNext(prefix, ts, t, open);
    }
  }

  /** Before either tag loop nothing is selected and nothing is written after the prefix. */
  lemma TagLoopStart(tags: seq<Tag>, prefix: string, open: string)
    ensures TagsWritten(GroupByTags(tags[..0]), prefix, open, prefix, open)
    ensures TagsWritten(FilterTags(tags[..0]), prefix, open, prefix, open)
  {
    assert tags[..0] == [];
    assert prefix + "" == prefix;
  }

  /** One more tag offered to the group-by selection. */
  lemma GroupByStep(tags: seq<Tag>, t: nat)
    requires t < |tags|
    ensures IsGroupByTag(tags[t]) ==> GroupByTags(tags[..t + 1]) == GroupByTags(tags[..t]) + [tags[t]]
    ensures !IsGroupByTag(tags[t]) ==> GroupByTags(tags[..t + 1]) == GroupByTags(tags[..t])
  {
    TakeSnoc(tags, t);
    FilterSnoc(tags[..t], tags[t], IsGroupByTag);
    assert GroupByTags(tags[..t]) + [] == GroupByTags(tags[..t]);
  }

  /** One more tag offered to the filter selection. */
  lemma FilterStep(tags: seq<Tag>, t: nat)
    requires t < |tags|
    ensures IsFilterTag(tags[t]) ==> FilterTags(tags[..t + 1]) == FilterTags(tags[..t]) + [tags[t]]
    ensures !IsFilterTag(tags[t]) ==> FilterTags(tags[..t + 1]) == FilterTags(tags[..t])
  {
    TakeSnoc(tags, t);
    FilterSnoc(tags[..t], tags[t], IsFilterTag);
    assert FilterTags(tags[..t]) + [] == FilterTags(tags[..t]);
  }

  /** What a tag loop has written after `prefix` once it has selected `ts`, and the
      separator it will write next. */
  ghost predicate TagsWritten(ts: seq<Tag>, prefix: string, open: string, text: string, sep: string) {
    && sep == (if |ts| == 0 then open else ",")
    && text == prefix + Unclosed(ts, open)
  }

  /** The group-by loop of `tsdb_queryStringInternal`: the block is left open and
      `sep` tells whether anything was written. */
  method GroupByLoop(tags: seq<Tag>) returns (text: string, sep: string)
    ensures sep == if |GroupByTags(tags)| == 0 then "{" else ","
    ensures text == Unclosed(GroupByTags(tags), "{")
  {
    text := "";
    sep := "{";
    TagLoopStart(tags, "", "{");
    for t := 0 to |tags|
      invariant TagsWritten(GroupByTags(tags[..t]), "", "{", text, sep)
    {
      text, sep := GroupByVisit(tags, t, text, sep);
    }
    TakeAll(tags);
    assert "" + Unclosed(GroupByTags(tags), "{") == Unclosed(GroupByTags(tags), "{");
  }

  /** One pass of the group-by loop, on tag `tags[t]`. */
  method GroupByVisit(tags: seq<Tag>, t: nat, text: string, sep: string) returns (text': string, sep': string)
    requires t < |tags|
    requires TagsWritten(GroupByTags(tags[..t]), "", "{", text, sep)
    ensures TagsWritten(GroupByTags(tags[..t + 1]), "", "{", text', sep')
  {
    text', sep' := text, sep;
    var tag := tags[t];
    GroupByStep(tags, t);
    if tag.value != "" && (tag.groupBy.None? || tag.groupBy.value) {
      UnclosedStep("", GroupByTags(tags[..t]), tag, "{", sep);
      text' := text' + (sep' + tag.name + "=" + tag.value);
      sep' := ",";
    }
  }

  /** The filter loop: it continues after `prefix`, opening with `sep`. */
  method FilterLoop(tags: seq<Tag>, prefix: string, open: string) returns (text: string, sep: string)
    ensures sep == if |FilterTags(tags)| == 0 then open else ","
    ensures text == prefix + Unclosed(FilterTags(tags), open)
  {
    text := prefix;
    sep := open;
    TagLoopStart(tags, prefix, open);
    for t := 0 to |tags|
      invariant TagsWritten(FilterTags(tags[..t]), prefix, open, text, sep)
    {
      text, sep := FilterVisit(tags, t, prefix, open, text, sep);
    }
    TakeAll(tags);
  }

  /** One pass of the filter loop, on tag `tags[t]`. */
  method FilterVisit(tags: seq<Tag>, t: nat, prefix: string, open: string, text: string, sep: string)
    returns (text': string, sep': string)
    requires t < |tags|
    requires TagsWritten(FilterTags(tags[..t]), prefix, open, text, sep)
    ensures TagsWritten(FilterTags(tags[..t + 1]), prefix, open, text', sep')
  {
    text', sep' := text, sep;
    var tag := tags[t];
    FilterStep(tags, t);
    if tag.value != "" && tag.value != "*" && tag.value != "wildcard(*)" && tag.groupBy.Some? && !tag.groupBy.value {
      UnclosedStep(prefix, FilterTags(tags[..t]), tag, open, sep);
      text' := text' + (sep' + tag.name + "=" + tag.value);
      sep' := ",";
    }
  }

  /** The group-by loop and its closing brace, written when `sep` shows the block was opened. */
  method CloseGroupBy(tags: seq<Tag>) returns (text: string, sep: string)
    ensures text == GroupBlock(GroupByTags(tags))
    ensures sep == if GroupByTags(tags) == [] then "{" else ","
  {
    text, sep := GroupByLoop(tags);
    OpenersAreNotCommas();
    if sep == "," {
      text := text + "}";
    }
  }

  /** The filter loop after the group-by text, opened by `{` after a group-by block and by
      `{}{` otherwise, and its closing brace. */
  method CloseFilter(tags: seq<Tag>, groupText: string, groupSep: string) returns (text: string)
    requires groupSep == "{" || groupSep == ","
    ensures text == groupText + FilterBlock(groupSep == ",", FilterTags(tags), true)
  {
    var sep;
    if groupSep == "," {
      sep := "{";
    } else {
      sep := "{}{";
    }
    ghost var open := sep;
    ghost var f := FilterTags(tags);
    OpenersAreNotCommas();
    text, sep := FilterLoop(tags, groupText, sep);
    FilterClosed(groupText, f, open, groupSep == ",");
    if sep == "," {
      text := text + "}";
    }
  }

  /** What the filter loop leaves, closed when something was selected, is the filter block. */
  lemma FilterClosed(groupText: string, f: seq<Tag>, open: string, grouped: bool)
    requires open == if grouped then "{" else "{}{"
    ensures f != [] ==> groupText + Unclosed(f, open) + "}" == groupText + FilterBlock(grouped, f, true)
    ensures f == [] ==> groupText + Unclosed(f, open) == groupText + FilterBlock(grouped, f, true)
  {
    if f != [] {
      var placeholder := if grouped then "" else "{}";
      assert open == placeholder + "{";
      Regroup(groupText, open + TagList(f), "}");
    } else {
      AppendEmpty(groupText);
    }
  }

  /** The two tag loops of `tsdb_queryStringInternal`, with their separator variable. */
  method TagBlocksOf(tags: seq<Tag>, filtersSupported: bool) returns (text: string)
    ensures text == TagBlocks(tags, filtersSupported)
  {
    var sep;
    text, sep := CloseGroupBy(tags);
    // TSDB 2.2 and later support filters
    if filtersSupported {
      text := CloseFilter(tags, text, sep);
    } else {
      AppendEmpty(text);
    }
  }

  // ---------------------------------------------------------------------------
  // One `&m=` sub-query

  /** What the builder is given besides the metrics: the caller's downsample override,
      the dashboard-wide downsampling, the per-line suffix function and the filter gate
      (TSDB 2.2 and later). */
  datatype FragmentConfig = FragmentConfig(
    downsampleOverride: Option<string -> string>,
    globalDownsampling: bool, globalDownsampleTo: string,
    perLine: Option<Metric -> string>,
    filtersSupported: bool)

  /** The downsample field: the override, else the global setting, else the metric's own. */
  function DownsampleField(c: FragmentConfig, o: GraphOptions): Option<string> {
    if c.downsampleOverride.Some? then Some(c.downsampleOverride.value(o.downsampleBy))
    else if c.globalDownsampling then Some(c.globalDownsampleTo + "-" + o.downsampleBy)
    else if o.downsample then Some(o.downsampleTo + "-" + o.downsampleBy)
    else None
  }

  function DownsamplePart(c: FragmentConfig, o: GraphOptions): string {
    match DownsampleField(c, o)
    case None => ""
    case Some(d) => d + ":"
  }

  /** Only `rate` writes the rate token; `rateCounter` alone is ignored with a warning. */
  function RatePart(o: GraphOptions): string {
    if o.rate then RateString(o) + ":" else ""
  }

  function PerLinePart(c: FragmentConfig, m: Metric): string {
    if c.perLine.Some? then c.perLine.value(m) else ""
  }

  predicate RateCounterIgnored(m: Metric) { !m.graphOptions.rate && m.graphOptions.rateCounter }

  /** The sub-query of one metric. */
  function MetricFragment(c: FragmentConfig, m: Metric): string {
    var o := m.graphOptions;
    "&m=" + o.aggregator + ":" + DownsamplePart(c, o) + RatePart(o) + m.name
    + TagBlocks(m.tags, c.filtersSupported) + PerLinePart(c, m)
  }

  /** The colon-separated fields of a sub-query, in the order OpenTSDB reads them:
      `&m=<aggregator>`, the optional downsample, the optional rate token, and the
      metric with its tag blocks and per-line suffix. */
  function Fields(c: FragmentConfig, m: Metric): seq<string> {
    var o := m.graphOptions;
    ["&m=" + o.aggregator]
    + (if DownsampleField(c, o).Some? then [DownsampleField(c, o).value] else [])
    + (if o.rate then [RateString(o)] else [])
    + [m.name + TagBlocks(m.tags, c.filtersSupported) + PerLinePart(c, m)]
  }

  lemma JoinTwo(a: string, b: string, sep: string)
    ensures Join([a, b], sep) == a + sep + b
  {
    assert [a, b][..1] == [a];
  }

  lemma JoinThree(a: string, b: string, c: string, sep: string)
    ensures Join([a, b, c], sep) == a + sep + b + sep + c
  {
    assert [a, b, c][..2] == [a, b];
    JoinTwo(a, b, sep);
  }

  lemma JoinFour(a: string, b: string, c: string, d: string, sep: string)
    ensures Join([a, b, c, d], sep) == a + sep + b + sep + c + sep + d
  {
    assert [a, b, c, d][..3] == [a, b, c];
    JoinThree(a, b, c, sep);
  }

  function Present(x: Option<string>): seq<string> {
    if x.Some? then [x.value] else []
  }

  function Terminated(x: Option<string>): string {
    if x.Some? then x.value + ":" else ""
  }

  /** Optional colon-terminated fields between a first and a last field. */
  lemma JoinWithOptional(a: string, x: Option<string>, y: Option<string>, last: string)
    ensures a + ":" + Terminated(x) + Terminated(y) + last == Join([a] + Present(x) + Present(y) + [last], ":")
  {
    if x.Some? && y.Some? {
      assert [a] + Present(x) + Present(y) + [last] == [a, x.value, y.value, last];
      JoinFour(a, x.value, y.value, last, ":");
      assert a + ":" + (x.value + ":") + (y.value + ":") + last
          == a + ":" + x.value + ":" + y.value + ":" + last;
    } else if x.Some? {
      assert [a] + Present(x) + Present(y) + [last] == [a, x.value, last];
      JoinThree(a, x.value, last, ":");
      assert a + ":" + (x.value + ":") + "" + last == a + ":" + x.value + ":" + last;
    } else if y.Some? {
      assert [a] + Present(x) + Present(y) + [last] == [a, y.value, last];
      JoinThree(a, y.value, last, ":");
      assert a + ":" + "" + (y.value + ":") + last == a + ":" + y.value + ":" + last;
    } else {
      assert [a] + Present(x) + Present(y) + [last] == [a, last];
      JoinTwo(a, last, ":");
      assert a + ":" + "" + "" + last == a + ":" + last;
    }
  }

  /** The sub-query is its fields joined by colons. */
  lemma FragmentIsJoinOfFields(c: FragmentConfig, m: Metric)
    ensures MetricFragment(c, m) == Join(Fields(c, m), ":")
  {
    var o := m.graphOptions;
    var a := "&m=" + o.aggregator;
    var last := m.name + TagBlocks(m.tags, c.filtersSupported) + PerLinePart(c, m);
    var ds := DownsampleField(c, o);
    var rt := if o.rate then Some(RateString(o)) else None;
    var tb := TagBlocks(m.tags, c.filtersSupported);
    var pl := PerLinePart(c, m);
    assert DownsamplePart(c, o) == Terminated(ds);
    assert RatePart(o) == Terminated(rt);
    assert Fields(c, m) == [a] + Present(ds) + Present(rt) + [last];
    JoinWithOptional(a, ds, rt, last);
    ConcatAssoc(a + ":" + Terminated(ds) + Terminated(rt), m.name, tb, pl);
  }

  /** Reading a sub-query back: split at the colons, it yields its fields in order, as
      long as none of them contains a colon. */
  lemma FragmentFieldOrder(c: FragmentConfig, m: Metric)
    requires forall i :: 0 <= i < |Fields(c, m)| ==> ':' !in Fields(c, m)[i]
    ensures Split(MetricFragment(c, m), ':') == Fields(c, m)
  {
    FragmentIsJoinOfFields(c, m);
    SplitJoin(Fields(c, m), ':');
  }

  /** The builder's per-metric steps, appending to the text as it goes; `warn` is set
      when the metric asks for a rate counter without a rate. */
  method MetricFragmentOf(c: FragmentConfig, m: Metric) returns (text: string, warn: bool)
    ensures text == MetricFragment(c, m)
    ensures warn <==> RateCounterIgnored(m)
  {
    var o := m.graphOptions;
    text := "&m=" + o.aggregator + ":";
    if c.downsampleOverride.Some? {
      text := text + (c.downsampleOverride.value(o.downsampleBy) + ":");
    } else if c.globalDownsampling {
      text := text + (c.globalDownsampleTo + "-" + o.downsampleBy + ":");
    } else if o.downsample {
      text := text + (o.downsampleTo + "-" + o.downsampleBy + ":");
    } else {
      text := text + "";
    }
    warn := false;
    if o.rate {
      var r := RateStringOf(o);
      text := text + (r + ":");
    } else {
      if o.rateCounter {
        warn := true;
      }
      text := text + "";
    }
    text := text + m.name;
    var blocks := TagBlocksOf(m.tags, c.filtersSupported);
    text := text + blocks;
    if c.perLine.Some? {
      text := text + c.perLine.value(m);
    } else {
      text := text + "";
    }
  }

  /** `tsdb_rateString` as written: a local string that is extended step by step. */
  method RateStringOf(o: GraphOptions) returns (r: string)
    ensures r == RateString(o)
  {
    r := "rate";
    if o.rateCounter {
      r := r + "{counter";
      var rctrSep := ",";
      if o.rateCounterMax != "" {
        r := r + ("," + o.rateCounterMax);
      } else {
        rctrSep := ",,";
      }
      if o.rateCounterReset != "" {
        r := r + (rctrSep + o.rateCounterReset);
      }
      r := r + "}";
    }
  }

  // ---------------------------------------------------------------------------
  // The whole query string

  /** The arguments of `tsdb_queryStringInternal`. `nowText` is the formatted end
      instant used on auto-reload (the datum, or the clock when there is none). */
  datatype QueryArgs = QueryArgs(
    graphId: string,
    from: Option<string>, to: Option<string>,
    autoReload: bool, allowAutoReloadOverrideEndDate: bool, nowText: string,
    noIgnore: bool,
    metrics: seq<Metric>,
    config: FragmentConfig)

  /** What one build produces: the text, the new `imageRenderCount`, the error it
      records (if any) and whether it records the rate-counter warning. */
  datatype Built = Built(url: string, renderCount: nat, error: Option<string>, warned: bool)

  function Fragments(c: FragmentConfig, ms: seq<Metric>): string {
    if ms == [] then "" else Fragments(c, ms[..|ms| - 1]) + MetricFragment(c, ms[|ms| - 1])
  }

  /** Whether the metric loop has written the rate-counter warning after `ms`. */
  predicate AnyRateCounterIgnored(ms: seq<Metric>) {
    ms != [] && (AnyRateCounterIgnored(ms[..|ms| - 1]) || RateCounterIgnored(ms[|ms| - 1]))
  }

  lemma FragmentsSnoc(c: FragmentConfig, ms: seq<Metric>, m: Metric)
    ensures Fragments(c, ms + [m]) == Fragments(c, ms) + MetricFragment(c, m)
  {
    assert (ms + [m])[..|ms|] == ms;
  }

  /** The metric loop's text, one fragment further. */
  lemma FragmentAppended(c: FragmentConfig, ms: seq<Metric>, m: Metric, text: string, fragment: string)
    requires text == Fragments(c, ms) && fragment == MetricFragment(c, m)
    ensures text + fragment == Fragments(c, ms + [m])
  {
    FragmentsSnoc(c, ms, m);
  }

  lemma AnyRateCounterIgnoredSnoc(ms: seq<Metric>, m: Metric)
    ensures AnyRateCounterIgnored(ms + [m]) <==> AnyRateCounterIgnored(ms) || RateCounterIgnored(m)
  {
    assert (ms + [m])[..|ms|] == ms;
  }

  /** The warning is written when some metric asks for a rate counter without a rate. */
  lemma {:induction false} AnyRateCounterIgnoredIff(ms: seq<Metric>)
    ensures AnyRateCounterIgnored(ms) <==> exists i :: 0 <= i < |ms| && RateCounterIgnored(ms[i])
  {
    if ms != [] {
      var init := ms[..|ms| - 1];
      AnyRateCounterIgnoredIff(init);
      if AnyRateCounterIgnored(init) {
        var k :| 0 <= k < |init| && RateCounterIgnored(init[k]);
        assert ms[k] == init[k];
      }
      if exists i :: 0 <= i < |ms| && RateCounterIgnored(ms[i]) {
        var k :| 0 <= k < |ms| && RateCounterIgnored(ms[k]);
        if k < |init| { assert init[k] == ms[k]; }
      }
    }
  }

  predicate MissingStart(a: QueryArgs) { a.from.None? || a.from.value == "" }

  /** The end parameter and the counter after it. */
  function EndParameter(a: QueryArgs, count: nat): (string, nat) {
    if a.autoReload && a.allowAutoReloadOverrideEndDate then ("&end=" + a.nowText, count)
    else if a.to.Some? then ("&end=" + a.to.value, count)
    else if !a.noIgnore then ("&ignore=" + Numbers.NatToString(count + 1), count + 1)
    else ("", count)
  }

  /** `tsdb_queryStringInternal` on the counter value `count`. */
  function Build(a: QueryArgs, count: nat): Built {
    if MissingStart(a) then Built("", count, Some(NoStartDate), false)
    else if a.metrics == [] then Built("", count, Some(NoMetrics), false)
    else
      var (end, count') := EndParameter(a, count);
      Built("start=" + a.from.value + end + Fragments(a.config, a.metrics), count',
            None, AnyRateCounterIgnored(a.metrics))
  }

  /** Validation: the start date is checked first, then the metric list; a failed check
      records its error and gives the empty string, and a passed one gives text that
      begins with `start=<from>`. */
  lemma BuildValidation(a: QueryArgs, count: nat)
    ensures Build(a, count).error == Some(NoStartDate) <==> MissingStart(a)
    ensures Build(a, count).error == Some(NoMetrics) <==> !MissingStart(a) && a.metrics == []
    ensures Build(a, count).error.Some? <==> Build(a, count).url == ""
    ensures Build(a, count).error.Some? ==> Build(a, count).renderCount == count && !Build(a, count).warned
  {
  }

  lemma BuildStart(a: QueryArgs, count: nat)
    requires Build(a, count).error.None?
    ensures |Build(a, count).url| >= 6 + |a.from.value|
    ensures Build(a, count).url[..6 + |a.from.value|] == "start=" + a.from.value
  {
    var p := "start=" + a.from.value;
    var q := EndParameter(a, count).0 + Fragments(a.config, a.metrics);
    assert Build(a, count).url == p + q;
    assert (p + q)[..|p|] == p;
  }

  /** The counter rises by exactly one when, and only when, the `&ignore=` token is
      written, and the token is the new counter value; an auto-reload end or an
      explicit end leaves the counter alone. */
  lemma BuildCounter(a: QueryArgs, count: nat)
    ensures Build(a, count).renderCount == count || Build(a, count).renderCount == count + 1
    ensures Build(a, count).renderCount == count + 1 <==>
              !MissingStart(a) && a.metrics != []
              && !(a.autoReload && a.allowAutoReloadOverrideEndDate) && a.to.None? && !a.noIgnore
    ensures Build(a, count).renderCount == count + 1 ==>
              Build(a, count).url
              == "start=" + a.from.value + "&ignore=" + Numbers.NatToString(count + 1) + Fragments(a.config, a.metrics)
    ensures !MissingStart(a) && a.metrics != [] && a.autoReload && a.allowAutoReloadOverrideEndDate ==>
              Build(a, count).url == "start=" + a.from.value + "&end=" + a.nowText + Fragments(a.config, a.metrics)
    ensures !MissingStart(a) && a.metrics != [] && !(a.autoReload && a.allowAutoReloadOverrideEndDate) && a.to.Some? ==>
              Build(a, count).url == "start=" + a.from.value + "&end=" + a.to.value + Fragments(a.config, a.metrics)
  {
    if !MissingStart(a) && a.metrics != [] {
      var f := "start=" + a.from.value;
      var rest := Fragments(a.config, a.metrics);
      if a.autoReload && a.allowAutoReloadOverrideEndDate {
        Regroup(f, "&end=", a.nowText);
      } else if a.to.Some? {
        Regroup(f, "&end=", a.to.value);
      } else if !a.noIgnore {
        var n := Numbers.NatToString(count + 1);
        Regroup(f, "&ignore=", n);
      }
    }
  }

  /** `NatToString` is injective, so distinct counter values give distinct tokens. */
  lemma NatToStringInjective(x: nat, y: nat)
    requires Numbers.NatToString(x) == Numbers.NatToString(y)
    ensures x == y
  {
    Numbers.DigitsValueOfNatToString(x);
    Numbers.DigitsValueOfNatToString(y);
  }

  /** Two builds in a row that both write `&ignore=` write different tokens, which is
      what makes the token defeat caching. */
  lemma IgnoreTokensDiffer(a: QueryArgs, b: QueryArgs, count: nat)
    requires Build(a, count).renderCount == count + 1
    requires Build(b, Build(a, count).renderCount).renderCount == count + 2
    ensures Numbers.NatToString(count + 1) != Numbers.NatToString(count + 2)
    ensures EndParameter(a, count).0 != EndParameter(b, count + 1).0
  {
    BuildCounter(a, count);
    BuildCounter(b, count + 1);
    var t1, t2 := Numbers.NatToString(count + 1), Numbers.NatToString(count + 2);
    if t1 == t2 {
      NatToStringInjective(count + 1, count + 2);
    }
    assert ("&ignore=" + t1)[8..] == t1 && ("&ignore=" + t2)[8..] == t2;
  }

  /** The warning is recorded exactly when the metric list passes validation and one of
      its metrics asks for a rate counter without a rate. */
  lemma BuildWarning(a: QueryArgs, count: nat)
    ensures Build(a, count).warned <==>
              !MissingStart(a) && a.metrics != [] && exists i :: 0 <= i < |a.metrics| && RateCounterIgnored(a.metrics[i])
  {
    AnyRateCounterIgnoredIff(a.metrics);
  }

  // ---------------------------------------------------------------------------
  // Properties of the tag blocks

  /** When neither block has a tag, no braces are written at all; the `{}`
      placeholder appears exactly when the filter block is written without a group-by
      block. */
  lemma TagBlocksShape(ts: seq<Tag>, filtersSupported: bool)
    ensures TagBlocks(ts, filtersSupported) == "" <==>
              GroupByTags(ts) == [] && (!filtersSupported || FilterTags(ts) == [])
    ensures GroupByTags(ts) == [] && filtersSupported && FilterTags(ts) != [] ==>
              TagBlocks(ts, filtersSupported) == "{}{" + TagList(FilterTags(ts)) + "}"
    ensures GroupByTags(ts) != [] ==>
              TagBlocks(ts, filtersSupported)[..|TagList(GroupByTags(ts))| + 2]
              == "{" + TagList(GroupByTags(ts)) + "}"
  {
    var g := GroupByTags(ts);
    var f := FilterTags(ts);
    if g == [] && filtersSupported && f != [] {
      assert "" + ("{}" + "{" + TagList(f) + "}") == "{}{" + TagList(f) + "}";
    }
    if g != [] {
      var head := "{" + TagList(g) + "}";
      var tail := if filtersSupported && f != [] then "" + "{" + TagList(f) + "}" else "";
      assert TagBlocks(ts, filtersSupported) == head + tail;
      assert (head + tail)[..|head|] == head;
    }
  }

  /** `Filter` keeps exactly the elements that pass the test. */
  lemma {:induction false} FilterMembers<T>(s: seq<T>, p: T -> bool, x: T)
    ensures x in Filter(s, p) <==> x in s && p(x)
  {
    if s != [] {
      var init := s[..|s| - 1];
      FilterMembers(init, p, x);
      assert s == init + [s[|s| - 1]];
    }
  }

  /** A tag is written into the group-by block or the filter block, never both. */
  lemma BlocksDisjoint(ts: seq<Tag>, t: Tag)
    ensures !(t in GroupByTags(ts) && t in FilterTags(ts))
    ensures t in GroupByTags(ts) <==> t in ts && t.value != "" && (t.groupBy.None? || t.groupBy.value)
    ensures t in FilterTags(ts) <==>
              t in ts && t.value != "" && t.value != "*" && t.value != "wildcard(*)" && t.groupBy == Some(false)
  {
    FilterMembers(ts, IsGroupByTag, t);
    FilterMembers(ts, IsFilterTag, t);
  }

  /** A legacy tag (no `groupBy`) behaves in both blocks as one with `groupBy` true. */
  function AsGroupBy(t: Tag): Tag {
    if t.groupBy.None? then t.(groupBy := Some(true)) else t
  }

  function AllAsGroupBy(ts: seq<Tag>): (r: seq<Tag>)
    ensures |r| == |ts| && forall i :: 0 <= i < |ts| ==> r[i] == AsGroupBy(ts[i])
  {
    if ts == [] then [] else AllAsGroupBy(ts[..|ts| - 1]) + [AsGroupBy(ts[|ts| - 1])]
  }

  lemma LegacyTagsGroupedPairs(ts: seq<Tag>)
    ensures TagPairs(GroupByTags(AllAsGroupBy(ts))) == TagPairs(GroupByTags(ts))
    ensures TagPairs(FilterTags(AllAsGroupBy(ts))) == TagPairs(FilterTags(ts))
  {
    AsGroupByKeepsClass();
    LegacyPairsUnder(ts, IsGroupByTag);
    LegacyPairsUnder(ts, IsFilterTag);
  }

  /** Reading a tag as a group-by tag keeps its name and value and which block it goes to. */
  lemma AsGroupByKeepsClass()
    ensures forall t :: IsGroupByTag(AsGroupBy(t)) == IsGroupByTag(t)
    ensures forall t :: IsFilterTag(AsGroupBy(t)) == IsFilterTag(t)
  {
  }

  /** Under a test that does not tell a tag from its group-by reading, the selected pairs
      are the same for the tags and for their group-by readings. */
  lemma {:induction false} LegacyPairsUnder(ts: seq<Tag>, p: Tag -> bool)
    requires forall t :: p(AsGroupBy(t)) == p(t)
    ensures TagPairs(Filter(AllAsGroupBy(ts), p)) == TagPairs(Filter(ts, p))
  {
    if ts != [] {
      var init, t := ts[..|ts| - 1], ts[|ts| - 1];
      LegacyPairsUnder(init, p);
      TakeSnoc(ts, |ts| - 1);
      TakeAll(ts);
      FilterSnoc(init, t, p);
      FilterSnoc(AllAsGroupBy(init), AsGroupBy(t), p);
      PairsAppend(Filter(init, p), if p(t) then [t] else []);
      PairsAppend(Filter(AllAsGroupBy(init), p), if p(t) then [AsGroupBy(t)] else []);
    }
  }

  lemma PairsAppend(xs: seq<Tag>, ys: seq<Tag>)
    ensures TagPairs(xs + ys) == TagPairs(xs) + TagPairs(ys)
  {
  }

  /** The text does not change when legacy tags are read as group-by tags. */
  lemma LegacyTagsAreGroupBy(ts: seq<Tag>, filtersSupported: bool)
    ensures TagBlocks(AllAsGroupBy(ts), filtersSupported) == TagBlocks(ts, filtersSupported)
  {
    LegacyTagsGroupedPairs(ts);
    assert |GroupByTags(AllAsGroupBy(ts))| == |TagPairs(GroupByTags(AllAsGroupBy(ts)))|;
    assert |FilterTags(AllAsGroupBy(ts))| == |TagPairs(FilterTags(AllAsGroupBy(ts)))|;
  }

  // ---------------------------------------------------------------------------
  // Reading a tag list back

  function ParsePair(x: string): (string, string) {
    var k := IndexOf(x, '=');
    if k < 0 then (x, "") else (x[..k], x[k + 1..])
  }

  /** Splits `k1=v1,k2=v2,...` into its pairs. */
  function ParseTagList(s: string): seq<(string, string)> {
    var parts := Split(s, ',');
    seq(|parts|, i requires 0 <= i < |parts| => ParsePair(parts[i]))
  }

  predicate PlainTag(t: Tag) { ',' !in t.name && '=' !in t.name && ',' !in t.value }

  lemma PairTextRoundTrip(t: Tag)
    requires PlainTag(t)
    ensures ',' !in t.name + "=" + t.value
    ensures ParsePair(t.name + "=" + t.value) == (t.name, t.value)
  {
    var x := t.name + "=" + t.value;
    assert x == t.name + ['='] + t.value;
    IndexOfAfterPrefix(t.name, t.value, '=');
    assert x[..|t.name|] == t.name;
    assert x[|t.name| + 1..] == t.value;
    forall k | 0 <= k < |x| ensures x[k] != ',' {
      if k < |t.name| { assert x[k] == t.name[k]; }
      else if k > |t.name| { assert x[k] == t.value[k - |t.name| - 1]; }
    }
  }

  /** A tag list can be read back into its (name, value) pairs, in list order, when
      names contain neither `,` nor `=` and values contain no `,`. */
  lemma TagListRoundTrip(ts: seq<Tag>)
    requires ts != []
    requires forall i :: 0 <= i < |ts| ==> PlainTag(ts[i])
    ensures ParseTagList(TagList(ts)) == TagPairs(ts)
  {
    var texts := PairTexts(TagPairs(ts));
    forall i | 0 <= i < |texts| ensures ',' !in texts[i] && ParsePair(texts[i]) == TagPairs(ts)[i] {
      PairTextRoundTrip(ts[i]);
    }
    SplitJoin(texts, ',');
    ParseTagListOf(TagList(ts), texts, TagPairs(ts));
  }

  /** Parsing reads each part the splitting gives. */
  lemma ParseTagListOf(s: string, parts: seq<string>, ps: seq<(string, string)>)
    requires Split(s, ',') == parts && |parts| == |ps|
    requires forall i :: 0 <= i < |parts| ==> ParsePair(parts[i]) == ps[i]
    ensures ParseTagList(s) == ps
  {
  }

  // ---------------------------------------------------------------------------
  // Literal facts the proofs above call

  /** The openers the tag loops start from are told apart from the comma. */
  lemma OpenersAreNotCommas()
    ensures "{" != "," && "{}{" != ","
  {
    assert "{"[0] != ","[0];
  }
}
