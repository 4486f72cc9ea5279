/** Helpers for the graph-export URL: the space-to-plus encoding of parameter text and
    the dygraph axis-range text `"[lo:hi]"` in both directions. */
module ExportUrl {
  import opened Base
  import Numbers
  import opened QueryString

  // ---------------------------------------------------------------------------
  // formEncode

  function SpaceCount(s: string): nat {
    if s == [] then 0 else SpaceCount(s[..|s| - 1]) + (if s[|s| - 1] == ' ' then 1 else 0)
  }

  lemma {:induction false} SpaceCountAppend(a: string, b: string)
    ensures SpaceCount(a + b) == SpaceCount(a) + SpaceCount(b)
    decreases |b|
  {
    if b != [] {
      assert (a + b)[..|a + b| - 1] == a + b[..|b| - 1];
      SpaceCountAppend(a, b[..|b| - 1]);
    } else {
      assert a + b == a;
    }
  }

  /** Replacing the first space by a plus removes one space. */
  lemma ReplaceSpaceCount(s: string)
    requires ' ' in s
    ensures SpaceCount(ReplaceFirst(s, ' ', "+")) == SpaceCount(s) - 1
  {
    var k := IndexOf(s, ' ');
    var before, after := s[..k], s[k + 1..];
    assert s == before + [' '] + after;
    SpaceCountSplice(before, ' ', after);
    SpaceCountSplice(before, '+', after);
  }

  /** The spaces around one character, and that character's own. */
  lemma SpaceCountSplice(a: string, c: char, b: string)
    ensures SpaceCount(a + [c] + b) == SpaceCount(a) + (if c == ' ' then 1 else 0) + SpaceCount(b)
  {
    SpaceCountAppend(a + [c], b);
    SpaceCountAppend(a, [c]);
    assert [c][..0] == [];
  }

  /** `formEncode`: `replace` rewrites only the first space, so the function calls
      itself until nothing changes. */
  function FormEncode(val: string): (r: string)
    decreases SpaceCount(val)
  {
    var newVal := ReplaceFirst(val, ' ', "+");
    if newVal != val then
      ReplaceSpaceCount(val);
      FormEncode(newVal)
    else newVal
  }

  /** The reference: every space becomes a plus, every other character stays. */
  function PlusForSpace(val: string): (r: string)
    ensures |r| == |val|
    ensures forall i :: 0 <= i < |val| ==> r[i] == if val[i] == ' ' then '+' else val[i]
  {
    if val == [] then [] else PlusForSpace(val[..|val| - 1]) + [if val[|val| - 1] == ' ' then '+' else val[|val| - 1]]
  }

  /** Replacing the first space does not change what `PlusForSpace` makes of the text. */
  lemma ReplaceFirstSpaceKeepsEncoding(s: string)
    ensures PlusForSpace(ReplaceFirst(s, ' ', "+")) == PlusForSpace(s)
  {
    var t := ReplaceFirst(s, ' ', "+");
    if ' ' in s {
      var k := IndexOf(s, ' ');
      assert |t| == |s|;
      forall i | 0 <= i < |s| ensures PlusForSpace(t)[i] == PlusForSpace(s)[i] {
        if i < k { assert t[i] == s[i]; }
        else if i == k { assert t[i] == '+'; }
        else { assert t[i] == s[i]; }
      }
    }
  }

  /** `formEncode` replaces every space with a plus, and only that. */
  lemma {:induction false} FormEncodeReplacesEverySpace(val: string)
    ensures FormEncode(val) == PlusForSpace(val)
    decreases SpaceCount(val)
  {
    var newVal := ReplaceFirst(val, ' ', "+");
    ReplaceFirstSpaceKeepsEncoding(val);
    if newVal != val {
      ReplaceSpaceCount(val);
      FormEncodeReplacesEverySpace(newVal);
    } else {
      assert ' ' !in val;
      forall i | 0 <= i < |val| ensures PlusForSpace(val)[i] == val[i] {
        assert val[i] != ' ';
      }
    }
  }

  /** Text without a space is left as it is. */
  lemma FormEncodeWithoutSpace(val: string)
    requires ' ' !in val
    ensures FormEncode(val) == val
  {
  }

  /** The encoding leaves no space, and encoding again changes nothing. */
  lemma FormEncodeIdempotent(val: string)
    ensures ' ' !in FormEncode(val)
    ensures FormEncode(FormEncode(val)) == FormEncode(val)
  {
    FormEncodeReplacesEverySpace(val);
    var e := FormEncode(val);
    assert forall i :: 0 <= i < |e| ==> e[i] != ' ';
    FormEncodeReplacesEverySpace(e);
    assert PlusForSpace(e) == e;
  }

  // ---------------------------------------------------------------------------
  // Axis ranges

  /** One end of an axis range: absent (null), a number, or what `parseInt` gives for
      text with no leading digit. */
  datatype AxisBound = NoBound | Bound(n: int) | NaN

  const InvalidRange := "Y-axis value range invalid, defaulting to [:]"

  function BoundOf(text: string): AxisBound {
    if text == "" then NoBound
    else match Numbers.ParseInt(text)
      case None => NaN
      case Some(v) => Bound(v)
  }

  /** What `parseDygraphAxisRange` computes: the two bounds and whether the range
      warning is written. An absent string is modelled as "". */
  datatype ParsedRange = ParsedRange(lo: AxisBound, hi: AxisBound, warn: bool)

  function AxisRange(s: string): ParsedRange {
    if s == "" then ParsedRange(NoBound, NoBound, false)
    else
      var t := ReplaceFirst(ReplaceFirst(s, '[', ""), ']', "");
      var colon := IndexOf(t, ':');
      if colon >= 0 then ParsedRange(BoundOf(t[..colon]), BoundOf(t[colon + 1..]), false)
      else ParsedRange(NoBound, NoBound, true)
  }

  /** `parseDygraphAxisRange`, with its warning written into the render context. */
  method ParseDygraphAxisRange(ctx: RenderContext, graphId: string, axisRangeString: string)
    returns (lo: AxisBound, hi: AxisBound)
    modifies ctx
    ensures lo == AxisRange(axisRangeString).lo && hi == AxisRange(axisRangeString).hi
    ensures ctx.renderWarnings == if AxisRange(axisRangeString).warn
                                  then old(ctx.renderWarnings)[graphId := InvalidRange]
                                  else old(ctx.renderWarnings)
    ensures ctx.renderErrors == old(ctx.renderErrors) && ctx.renderMessages == old(ctx.renderMessages)
  {
    lo, hi := NoBound, NoBound;
    if axisRangeString != "" {
      var s := ReplaceFirst(ReplaceFirst(axisRangeString, '[', ""), ']', "");
      var colon := IndexOf(s, ':');
      var error := false;
      if colon >= 0 {
        var low := s[..colon];
        if low != "" {
          lo := BoundOf(low);
        }
        var high := s[colon + 1..];
        if high != "" {
          hi := BoundOf(high);
        }
      } else {
        error := true;
      }
      if error {
        ctx.renderWarnings := ctx.renderWarnings[graphId := InvalidRange];
        lo, hi := NoBound, NoBound;
      }
    }
  }

  /** Text of one bound: null prints as nothing, NaN as "NaN". */
  function BoundText(b: AxisBound): string {
    match b
    case NoBound => ""
    case Bound(n) => Numbers.IntToString(n)
    case NaN => "NaN"
  }

  /** `dygraphAxisRangeToString`; `None` is a null range. */
  function DygraphAxisRangeToString(axisRange: Option<seq<AxisBound>>): (r: string)
    ensures |r| >= 3 && r[0] == '[' && r[|r| - 1] == ']'
  {
    if axisRange.None? || |axisRange.value| == 0 then "[:]"
    else
      "[" + BoundText(axisRange.value[0]) + ":"
      + (if |axisRange.value| > 1 then BoundText(axisRange.value[1]) else "") + "]"
  }

  lemma ReplaceFirstKeepsOthers(s: string, c: char, w: string, x: char)
    requires x != c && x !in w
    ensures x in ReplaceFirst(s, c, w) <==> x in s
  {
    if c in s {
      var k := IndexOf(s, c);
      assert s == s[..k] + [c] + s[k + 1..];
    }
  }

  /** The range warning is written exactly for non-empty text without a colon. */
  lemma AxisRangeWarnsIff(s: string)
    ensures AxisRange(s).warn <==> s != "" && ':' !in s
  {
    ReplaceFirstKeepsOthers(s, '[', "", ':');
    ReplaceFirstKeepsOthers(ReplaceFirst(s, '[', ""), ']', "", ':');
  }

  lemma StripOpen(rest: string)
    ensures ReplaceFirst("[" + rest, '[', "") == rest
  {
    var s := "[" + rest;
    assert IndexOf(s, '[') == 0;
    assert s[1..] == rest;
  }

  lemma StripClose(inner: string)
    requires ']' !in inner
    ensures ReplaceFirst(inner + "]", ']', "") == inner
  {
    assert inner + "]" == inner + [']'] + [];
    IndexOfAfterPrefix(inner, [], ']');
    assert (inner + "]")[..|inner|] == inner;
  }

  /** Removing the first `[` and then the first `]` unwraps bracketed text. */
  lemma StripBrackets(inner: string)
    requires ']' !in inner
    ensures ReplaceFirst(ReplaceFirst("[" + inner + "]", '[', ""), ']', "") == inner
  {
    assert "[" + inner + "]" == "[" + (inner + "]");
    StripOpen(inner + "]");
    StripClose(inner);
  }

  lemma BoundTextPlain(b: AxisBound)
    ensures ':' !in BoundText(b) && ']' !in BoundText(b)
    ensures BoundOf(BoundText(b)) == b
  {
    if b.Bound? {
      Numbers.NumberTextPlain(b.n);
      Numbers.ParseIntOfIntToString(b.n);
    } else if b.NaN? {
      var t := "NaN";
      assert t[0] == 'N' && !Numbers.IsJsWhiteSpace(t[0]) && !Numbers.IsDigit(t[0]);
      assert Numbers.TrimStart(t) == t;
    }
  }

  lemma NotInAroundSeparator(a: string, c: char, b: string, x: char)
    requires x !in a && x !in b && x != c
    ensures x !in a + [c] + b
  {
    var s := a + [c] + b;
    forall k | 0 <= k < |s| ensures s[k] != x {
      if k < |a| { assert s[k] == a[k]; }
      else if k > |a| { assert s[k] == b[k - |a| - 1]; }
    }
  }

  /** The colon splits `lo:hi` into its two sides when `lo` has no colon. */
  lemma SplitAtColon(a: string, b: string)
    requires ':' !in a
    ensures IndexOf(a + ":" + b, ':') == |a|
    ensures (a + ":" + b)[..|a|] == a && (a + ":" + b)[|a| + 1..] == b
  {
    assert a + ":" + b == a + [':'] + b;
    IndexOfAfterPrefix(a, b, ':');
  }

  /** A bracketed pair of colon-free texts parses as those two bounds. */
  lemma BracketedPairParses(a: string, b: string)
    requires ':' !in a && ']' !in a && ']' !in b
    ensures AxisRange("[" + a + ":" + b + "]") == ParsedRange(BoundOf(a), BoundOf(b), false)
  {
    var inner := a + ":" + b;
    assert inner == a + [':'] + b;
    NotInAroundSeparator(a, ':', b, ']');
    assert "[" + a + ":" + b + "]" == "[" + inner + "]";
    StripBrackets(inner);
    SplitAtColon(a, b);
  }

  /** A printed range parses back to the same bounds: numbers, absent bounds and NaN
      (printed "NaN", which `parseInt` reads back as NaN). */
  lemma AxisRangeRoundTrip(lo: AxisBound, hi: AxisBound)
    ensures AxisRange(DygraphAxisRangeToString(Some([lo, hi]))) == ParsedRange(lo, hi, false)
  {
    BoundTextPlain(lo);
    BoundTextPlain(hi);
    BracketedPairParses(BoundText(lo), BoundText(hi));
  }

  // ---------------------------------------------------------------------------
  // Parameters of the export URL after the query string

  /** Display options of one y axis; an absent flag is false, an absent text `None`. */
  datatype AxisParams = AxisParams(
    labelText: Option<string>, format: Option<string>, range: Option<string>,
    squashNegative: bool, logscale: bool)

  /** The legend options; an absent location is "". */
  datatype KeyParams = KeyParams(keyLocation: string, keyAlignment: string, keyBox: bool)

  /** The parameters of one axis, `p` being "y" or "y2". */
  function AxisText(p: string, a: AxisParams): string {
    (if a.labelText.Some? then "&" + p + "label=" + FormEncode(a.labelText.value) else "")
    + (if a.format.Some? then "&" + p + "format=" + FormEncode(a.format.value) else "")
    + (if a.range.Some? then "&" + p + "range=" + FormEncode(a.range.value)
       else if a.squashNegative then "&" + p + "range=" + FormEncode("[0:]") else "")
    + (if a.logscale then "&" + p + "log" else "")
  }

  /** The legend position: "top left" by default, then the alignment and box words. */
  function KeyPosition(k: KeyParams): string {
    (if k.keyLocation == "" then "top left" else k.keyLocation)
    + (if k.keyAlignment == "horizontal" then " horiz" else "")
    + (if k.keyBox then " box" else "")
  }

  function KeyText(key: Option<KeyParams>): string {
    if key.Some? then "&key=" + FormEncode(KeyPosition(key.value)) else "&nokey"
  }

  /** Everything `tsdbGraphUrl` appends after the axis check, given which axes are used. */
  function GraphOptionsText(usingLeftAxis: bool, usingRightAxis: bool,
                            yAxis: Option<AxisParams>, y2Axis: Option<AxisParams>,
                            key: Option<KeyParams>, lineSmoothing: bool, style: Option<string>,
                            globalAnnotations: bool): string {
    (if usingLeftAxis && yAxis.Some? then AxisText("y", yAxis.value) else "")
    + (if usingRightAxis && y2Axis.Some? then AxisText("y2", y2Axis.value) else "")
    + KeyText(key)
    + (if lineSmoothing then "&smooth=csplines" else "")
    + (if style.Some? then "&style=" + style.value else "")
    + (if globalAnnotations then "&global_annotations" else "")
  }

  /** The legend text carries no space once encoded. */
  lemma KeyTextEncoded(k: KeyParams)
    ensures ' ' !in FormEncode(KeyPosition(k))
  {
    FormEncodeIdempotent(KeyPosition(k));
  }

  /** A squashed axis without an explicit range asks for `[0:]`, encoded as is. */
  lemma SquashNegativeRange(p: string, a: AxisParams)
    requires a.range.None? && a.squashNegative
    ensures AxisText(p, a)
            == (if a.labelText.Some? then "&" + p + "label=" + FormEncode(a.labelText.value) else "")
               + (if a.format.Some? then "&" + p + "format=" + FormEncode(a.format.value) else "")
               + "&" + p + "range=[0:]"
               + (if a.logscale then "&" + p + "log" else "")
  {
    FormEncodeWithoutSpace("[0:]");
    SquashedRangeText(p);
  }

  // ---------------------------------------------------------------------------
  // Axis annotations and the axis check

  const InvalidAxis := "Invalid axis specified"

  /** The per-line suffix `tsdbGraphUrl` hands to the query builder: the forced axis,
      else x1y1 for a metric without an axis, else the metric's axis. */
  function AxisAnnotation(forceAxis: Option<string>, m: Metric): string {
    "&o=axis+" + (if forceAxis.Some? then forceAxis.value
                  else if m.graphOptions.axis.None? then "x1y1"
                  else m.graphOptions.axis.value)
  }

  function AxisAnnotator(forceAxis: Option<string>): Metric -> string {
    m => AxisAnnotation(forceAxis, m)
  }

  /** The axis loop's first test: the metric counts for the left axis. */
  predicate OnLeft(forceAxis: Option<string>, m: Metric) {
    m.graphOptions.axis.None? || m.graphOptions.axis == Some("x1y1") || forceAxis == Some("x1y1")
  }

  /** Its second test, reached only when the first fails. */
  predicate OnRight(forceAxis: Option<string>, m: Metric) {
    m.graphOptions.axis == Some("x1y2") || forceAxis == Some("x1y2")
  }

  datatype Sides = Sides(usingLeftAxis: bool, usingRightAxis: bool)

  /** The outcome of the axis loop over `ms`: the axes in use, or `None` once a metric
      passes neither test. */
  function AxisSides(forceAxis: Option<string>, ms: seq<Metric>): Option<Sides> {
    if ms == [] then Some(Sides(false, false))
    else
      var m := ms[|ms| - 1];
      match AxisSides(forceAxis, ms[..|ms| - 1])
      case None => None
      case Some(s) =>
        if OnLeft(forceAxis, m) then Some(s.(usingLeftAxis := true))
        else if OnRight(forceAxis, m) then Some(s.(usingRightAxis := true))
        else None
  }

  /** The axis check fails exactly when some metric passes neither test; otherwise
      the left axis is used when some metric passes the first test, and the right
      axis when some metric passes only the second. */
  lemma {:induction false} AxisSidesIff(forceAxis: Option<string>, ms: seq<Metric>)
    ensures AxisSides(forceAxis, ms).None? <==>
              exists i :: 0 <= i < |ms| && !OnLeft(forceAxis, ms[i]) && !OnRight(forceAxis, ms[i])
    ensures AxisSides(forceAxis, ms).Some? ==>
              (AxisSides(forceAxis, ms).value.usingLeftAxis <==>
                 exists i :: 0 <= i < |ms| && OnLeft(forceAxis, ms[i]))
              && (AxisSides(forceAxis, ms).value.usingRightAxis <==>
                 exists i :: 0 <= i < |ms| && !OnLeft(forceAxis, ms[i]) && OnRight(forceAxis, ms[i]))
  {
    if ms != [] {
      var init, m := ms[..|ms| - 1], ms[|ms| - 1];
      AxisSidesIff(forceAxis, init);
      InvalidSnoc(forceAxis, ms);
      LeftSnoc(forceAxis, ms);
      RightOnlySnoc(forceAxis, ms);
    }
  }

  /** Some metric of `ms` passes neither axis test. */
  predicate AnyInvalid(forceAxis: Option<string>, ms: seq<Metric>) {
    exists i :: 0 <= i < |ms| && !OnLeft(forceAxis, ms[i]) && !OnRight(forceAxis, ms[i])
  }

  /** Some metric of `ms` passes the first axis test. */
  predicate AnyLeft(forceAxis: Option<string>, ms: seq<Metric>) {
    exists i :: 0 <= i < |ms| && OnLeft(forceAxis, ms[i])
  }

  /** Some metric of `ms` passes only the second axis test. */
  predicate AnyRightOnly(forceAxis: Option<string>, ms: seq<Metric>) {
    exists i :: 0 <= i < |ms| && !OnLeft(forceAxis, ms[i]) && OnRight(forceAxis, ms[i])
  }

  lemma InvalidSnoc(forceAxis: Option<string>, ms: seq<Metric>)
    requires ms != []
    ensures AnyInvalid(forceAxis, ms) <==>
              AnyInvalid(forceAxis, ms[..|ms| - 1])
              || (!OnLeft(forceAxis, ms[|ms| - 1]) && !OnRight(forceAxis, ms[|ms| - 1]))
  {
    var init := ms[..|ms| - 1];
    if AnyInvalid(forceAxis, init) {
      var i :| 0 <= i < |init| && !OnLeft(forceAxis, init[i]) && !OnRight(forceAxis, init[i]);
      assert ms[i] == init[i];
    }
    if AnyInvalid(forceAxis, ms) {
      var i :| 0 <= i < |ms| && !OnLeft(forceAxis, ms[i]) && !OnRight(forceAxis, ms[i]);
      if i < |init| { assert init[i] == ms[i]; }
    }
  }

  lemma LeftSnoc(forceAxis: Option<string>, ms: seq<Metric>)
    requires ms != []
    ensures AnyLeft(forceAxis, ms) <==> AnyLeft(forceAxis, ms[..|ms| - 1]) || OnLeft(forceAxis, ms[|ms| - 1])
  {
    var init := ms[..|ms| - 1];
    if AnyLeft(forceAxis, init) {
      var i :| 0 <= i < |init| && OnLeft(forceAxis, init[i]);
      assert ms[i] == init[i];
    }
    if AnyLeft(forceAxis, ms) {
      var i :| 0 <= i < |ms| && OnLeft(forceAxis, ms[i]);
      if i < |init| { assert init[i] == ms[i]; }
    }
  }

  lemma RightOnlySnoc(forceAxis: Option<string>, ms: seq<Metric>)
    requires ms != []
    ensures AnyRightOnly(forceAxis, ms) <==>
              AnyRightOnly(forceAxis, ms[..|ms| - 1])
              || (!OnLeft(forceAxis, ms[|ms| - 1]) && OnRight(forceAxis, ms[|ms| - 1]))
  {
    var init := ms[..|ms| - 1];
    if AnyRightOnly(forceAxis, init) {
      var i :| 0 <= i < |init| && !OnLeft(forceAxis, init[i]) && OnRight(forceAxis, init[i]);
      assert ms[i] == init[i];
    }
    if AnyRightOnly(forceAxis, ms) {
      var i :| 0 <= i < |ms| && !OnLeft(forceAxis, ms[i]) && OnRight(forceAxis, ms[i]);
      if i < |init| { assert init[i] == ms[i]; }
    }
  }

  /** The axis loop of `tsdbGraphUrl`, which stops at the first metric with an invalid
      axis. */
  method CheckAxes(forceAxis: Option<string>, metrics: seq<Metric>) returns (valid: bool, sides: Sides)
    ensures valid <==> AxisSides(forceAxis, metrics).Some?
    ensures valid ==> sides == AxisSides(forceAxis, metrics).value
  {
    var usingLeftAxis := false;
    var usingRightAxis := false;
    for i := 0 to |metrics|
      invariant AxisSides(forceAxis, metrics[..i]) == Some(Sides(usingLeftAxis, usingRightAxis))
    {
      var m := metrics[i];
      assert metrics[..i + 1][..i] == metrics[..i];
      if m.graphOptions.axis.None? || m.graphOptions.axis == Some("x1y1") || forceAxis == Some("x1y1") {
        usingLeftAxis := true;
      } else if m.graphOptions.axis == Some("x1y2") || forceAxis == Some("x1y2") {
        usingRightAxis := true;
      } else {
        AxisSidesInvalidPrefix(forceAxis, metrics, i + 1);
        return false, Sides(usingLeftAxis, usingRightAxis);
      }
    }
    TakeAll(metrics);
    return true, Sides(usingLeftAxis, usingRightAxis);
  }

  /** Once a prefix fails the check, the whole list does. */
  lemma {:induction false} AxisSidesInvalidPrefix(forceAxis: Option<string>, ms: seq<Metric>, n: nat)
    requires n <= |ms|
    requires AxisSides(forceAxis, ms[..n]).None?
    ensures AxisSides(forceAxis, ms).None?
    decreases |ms| - n
  {
    if n < |ms| {
      assert ms[..n + 1][..n] == ms[..n];
      AxisSidesInvalidPrefix(forceAxis, ms, n + 1);
    } else {
      assert ms[..n] == ms;
    }
  }

  /** A forced `x1y2` does not move a metric without an axis to the right axis: the
      left-axis test comes first and accepts it, although its line is annotated
      `x1y2`. */
  lemma ForcedRightAxisCountsAsLeft(m: Metric)
    requires m.graphOptions.axis.None?
    ensures AxisSides(Some("x1y2"), [m]) == Some(Sides(true, false))
    ensures AxisAnnotation(Some("x1y2"), m) == "&o=axis+x1y2"
  {
    assert [m][..0] == [];
  }

  /** `tsdbGraphUrl`'s result from the query string `qs` and the axis check. */
  function GraphUrl(baseReadUrl: string, path: Option<string>, qs: string, sides: Option<Sides>,
                    yAxis: Option<AxisParams>, y2Axis: Option<AxisParams>, key: Option<KeyParams>,
                    lineSmoothing: bool, style: Option<string>, globalAnnotations: bool): Option<string> {
    if qs == "" || sides.None? then None
    else
      Some(baseReadUrl + (if path.None? then "/#" else path.value) + qs
           + GraphOptionsText(sides.value.usingLeftAxis, sides.value.usingRightAxis,
                              yAxis, y2Axis, key, lineSmoothing, style, globalAnnotations))
  }

  // ---------------------------------------------------------------------------
  // Literal and concatenation facts the proofs above call

  lemma SquashedRangeText(p: string)
    ensures "&" + p + "range=" + "[0:]" == "&" + p + "range=[0:]"
  {
  }
}
