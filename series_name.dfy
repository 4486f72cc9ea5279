/** The display name of one returned series (`timeSeriesName`): the metric name, then
    the grouped tag values in braces, then the filters that did not group in a second
    pair of braces. */
module SeriesName {
  import opened Base
  import opened Planner

  // ---------------------------------------------------------------------------
  // The order `Array.prototype.sort` puts strings in

  /** `a` sorts before or equal to `b`: character by character, a proper prefix first. */
  predicate Le(a: string, b: string)
    decreases |a|
  {
    a == [] || (b != [] && (a[0] < b[0] || (a[0] == b[0] && Le(a[1..], b[1..]))))
  }

  lemma {:induction false} LeReflexive(a: string)
    ensures Le(a, a)
    decreases |a|
  {
    if a != [] { LeReflexive(a[1..]); }
  }

  lemma {:induction false} LeTotal(a: string, b: string)
    ensures Le(a, b) || Le(b, a)
    decreases |a|
  {
    if a != [] && b != [] && a[0] == b[0] { LeTotal(a[1..], b[1..]); }
  }

  lemma {:induction false} LeAntisymmetric(a: string, b: string)
    requires Le(a, b) && Le(b, a)
    ensures a == b
    decreases |a|
  {
    if a != [] {
      LeAntisymmetric(a[1..], b[1..]);
      assert a == [a[0]] + a[1..];
      assert b == [b[0]] + b[1..];
    }
  }

  lemma {:induction false} LeTransitive(a: string, b: string, c: string)
    requires Le(a, b) && Le(b, c)
    ensures Le(a, c)
    decreases |a|
  {
    if a != [] && a[0] == b[0] && b[0] == c[0] { LeTransitive(a[1..], b[1..], c[1..]); }
  }

  predicate Sorted(s: seq<string>) {
    forall i, j :: 0 <= i < j < |s| ==> Le(s[i], s[j])
  }

  predicate Distinct(s: seq<string>) {
    forall i, j :: 0 <= i < j < |s| ==> s[i] != s[j]
  }

  /** `x` placed before the first element it sorts before or equal to. */
  function Insert(x: string, s: seq<string>): (r: seq<string>)
    ensures multiset(r) == multiset(s) + multiset{x}
  {
    if s == [] then [x]
    else if Le(x, s[0]) then [x] + s
    else
      assert s == [s[0]] + s[1..];
      [s[0]] + Insert(x, s[1..])
  }

  /** `tagNames.sort()`: the names in ascending order. */
  function Sort(s: seq<string>): (r: seq<string>)
    ensures multiset(r) == multiset(s)
  {
    if s == [] then []
    else
      assert s == [s[0]] + s[1..];
      Insert(s[0], Sort(s[1..]))
  }

  lemma SortedTail(s: seq<string>)
    requires Sorted(s) && s != []
    ensures Sorted(s[1..])
  {
    forall i, j | 0 <= i < j < |s| - 1 ensures Le(s[1..][i], s[1..][j]) {
      assert s[1..][i] == s[i + 1] && s[1..][j] == s[j + 1];
    }
  }

  /** A sorted sequence with `h` in front stays sorted when `h` is below all of it. */
  lemma SortedCons(h: string, t: seq<string>)
    requires Sorted(t)
    requires forall j :: 0 <= j < |t| ==> Le(h, t[j])
    ensures Sorted([h] + t)
  {
    var r := [h] + t;
    forall i, j | 0 <= i < j < |r| ensures Le(r[i], r[j]) {
      assert r[j] == t[j - 1];
      if i > 0 { assert r[i] == t[i - 1]; }
    }
  }

  lemma {:induction false} InsertSorted(x: string, s: seq<string>)
    requires Sorted(s)
    ensures Sorted(Insert(x, s))
    decreases |s|
  {
    if s == [] {
    } else if Le(x, s[0]) {
      forall j | 0 <= j < |s| ensures Le(x, s[j]) {
        if j > 0 { LeTransitive(x, s[0], s[j]); }
      }
      SortedCons(x, s);
    } else {
      LeTotal(x, s[0]);
      SortedTail(s);
      InsertSorted(x, s[1..]);
      var t := Insert(x, s[1..]);
      forall j | 0 <= j < |t| ensures Le(s[0], t[j]) {
        assert t[j] in multiset(t);
        if t[j] != x {
          assert t[j] in multiset(s[1..]);
          var k :| 0 <= k < |s[1..]| && s[1..][k] == t[j];
          assert s[k + 1] == t[j];
        }
      }
      SortedCons(s[0], t);
    }
  }

  /** Sorting yields ascending order. */
  lemma {:induction false} SortSorted(s: seq<string>)
    ensures Sorted(Sort(s))
    decreases |s|
  {
    if s != [] {
      SortSorted(s[1..]);
      InsertSorted(s[0], Sort(s[1..]));
    }
  }

  /** Two ascending arrangements of the same strings are the same sequence, so any
      correct sort gives what `Sort` gives. */
  lemma {:induction false} SortedUnique(a: seq<string>, b: seq<string>)
    requires Sorted(a) && Sorted(b) && multiset(a) == multiset(b)
    ensures a == b
    decreases |a|
  {
    assert |a| == |multiset(a)| == |multiset(b)| == |b|;
    if a != [] {
      assert a[0] in multiset(b) && b[0] in multiset(a);
      var k :| 0 <= k < |b| && b[k] == a[0];
      var m :| 0 <= m < |a| && a[m] == b[0];
      assert Le(b[0], a[0]) by { if k == 0 { LeReflexive(b[0]); } }
      assert Le(a[0], b[0]) by { if m == 0 { LeReflexive(a[0]); } }
      LeAntisymmetric(a[0], b[0]);
      assert a == [a[0]] + a[1..];
      assert b == [b[0]] + b[1..];
      assert multiset(a) == multiset{a[0]} + multiset(a[1..]);
      assert multiset(b) == multiset{b[0]} + multiset(b[1..]);
      assert multiset(a[1..]) == multiset(a) - multiset{a[0]};
      assert multiset(b[1..]) == multiset(b) - multiset{b[0]};
      SortedTail(a);
      SortedTail(b);
      SortedUnique(a[1..], b[1..]);
    }
  }

  /** Sorting twice, as the source does, is sorting once. */
  lemma SortIdempotent(s: seq<string>)
    ensures Sort(Sort(s)) == Sort(s)
  {
    SortSorted(s);
    SortSorted(Sort(s));
    SortedUnique(Sort(Sort(s)), Sort(s));
  }

  /** In a sequence without repeats every element occurs once. */
  lemma {:induction false} DistinctMultiplicity(s: seq<string>, x: string)
    requires Distinct(s)
    ensures multiset(s)[x] == if x in s then 1 else 0
    decreases |s|
  {
    if s != [] {
      assert s == [s[0]] + s[1..];
      assert Distinct(s[1..]) by {
        forall i, j | 0 <= i < j < |s| - 1 ensures s[1..][i] != s[1..][j] {
          assert s[1..][i] == s[i + 1] && s[1..][j] == s[j + 1];
        }
      }
      assert s[0] !in s[1..] by {
        forall i | 0 <= i < |s| - 1 ensures s[1..][i] != s[0] { assert s[1..][i] == s[i + 1]; }
      }
      DistinctMultiplicity(s[1..], x);
    }
  }

  /** Two repeat-free enumerations of the same strings hold the same multiset. */
  lemma EnumerationsAgree(a: seq<string>, b: seq<string>)
    requires Distinct(a) && Distinct(b)
    requires forall x :: x in a <==> x in b
    ensures multiset(a) == multiset(b)
  {
    forall x ensures multiset(a)[x] == multiset(b)[x] {
      DistinctMultiplicity(a, x);
      DistinctMultiplicity(b, x);
    }
  }

  // ---------------------------------------------------------------------------
  // Tag names of a series without an echoed query

  /** Some repeat-free enumeration of `keys`; which one does not matter once sorted. */
  ghost function SetToSeq(keys: set<string>): (r: seq<string>)
    ensures Distinct(r)
    ensures forall k :: k in r <==> k in keys
    decreases |keys|
  {
    if keys == {} then []
    else
      var k :| k in keys;
      var t := SetToSeq(keys - {k});
      assert forall j :: 0 <= j < |t| ==> t[j] != k;
      [k] + t
  }

  /** The series' own tag keys, ascending. */
  ghost function LegacyNames(tags: map<string, string>): seq<string> {
    Sort(SetToSeq(tags.Keys))
  }

  /** Whatever order `for (var tk in metric.tags)` visits the keys in, sorting them
      gives the same names. */
  lemma LegacyOrderIrrelevant(tags: map<string, string>, e: seq<string>)
    requires Distinct(e)
    requires forall k :: k in e <==> k in tags
    ensures Sort(e) == LegacyNames(tags)
  {
    var c := SetToSeq(tags.Keys);
    EnumerationsAgree(e, c);
    SortSorted(e);
    SortSorted(c);
    SortedUnique(Sort(e), Sort(c));
  }

  /** The loop over the series' tags: every key once. */
  method CollectTagNames(tags: map<string, string>) returns (names: seq<string>)
    ensures Distinct(names)
    ensures forall k :: k in names <==> k in tags
  {
    names := [];
    var rest := tags.Keys;
    while rest != {}
      invariant rest <= tags.Keys
      invariant forall k :: k in names <==> k in tags && k !in rest
      invariant Distinct(names)
      decreases |rest|
    {
      var k :| k in rest;
      names := names + [k];
      rest := rest - {k};
    }
  }

  // ---------------------------------------------------------------------------
  // Grouping the echoed filters by tag key

  /** The tag keys that some filter names. */
  predicate Mentions(fs: seq<TagFilter>, k: string) {
    exists i :: 0 <= i < |fs| && fs[i].tagk == k
  }

  /** The tag keys in order of first appearance (the key order of `filtersByTagk`). */
  function TagkOrder(fs: seq<TagFilter>): (r: seq<string>)
    ensures Distinct(r)
    ensures forall k :: k in r <==> Mentions(fs, k)
  {
    if fs == [] then []
    else
      var init := fs[..|fs| - 1];
      var o := TagkOrder(init);
      assert forall k :: Mentions(fs, k) <==> Mentions(init, k) || fs[|fs| - 1].tagk == k by {
        forall k ensures Mentions(fs, k) <==> Mentions(init, k) || fs[|fs| - 1].tagk == k {
          if Mentions(fs, k) {
            var i :| 0 <= i < |fs| && fs[i].tagk == k;
            if i < |fs| - 1 { assert init[i] == fs[i]; }
          }
          if Mentions(init, k) {
            var i :| 0 <= i < |init| && init[i].tagk == k;
            assert fs[i] == init[i];
          }
        }
      }
      if fs[|fs| - 1].tagk in o then o else o + [fs[|fs| - 1].tagk]
  }

  /** The filters on tag key `k`, in order (`filtersByTagk[k]`). */
  function FiltersFor(fs: seq<TagFilter>, k: string): (r: seq<TagFilter>)
    ensures forall j :: 0 <= j < |r| ==> r[j].tagk == k
  {
    if fs == [] then []
    else FiltersFor(fs[..|fs| - 1], k) + (if fs[|fs| - 1].tagk == k then [fs[|fs| - 1]] else [])
  }

  lemma TagkOrderSnoc(fs: seq<TagFilter>, f: TagFilter)
    ensures TagkOrder(fs + [f]) == if f.tagk in TagkOrder(fs) then TagkOrder(fs) else TagkOrder(fs) + [f.tagk]
  {
    assert (fs + [f])[..|fs|] == fs;
  }

  lemma FiltersForSnoc(fs: seq<TagFilter>, f: TagFilter, k: string)
    ensures FiltersFor(fs + [f], k) == if f.tagk == k then FiltersFor(fs, k) + [f] else FiltersFor(fs, k)
  {
    assert (fs + [f])[..|fs|] == fs;
    assert FiltersFor(fs, k) + [] == FiltersFor(fs, k);
  }

  /** A key no filter names has no filters. */
  lemma {:induction false} FiltersForAbsent(fs: seq<TagFilter>, k: string)
    requires !Mentions(fs, k)
    ensures FiltersFor(fs, k) == []
  {
    if fs != [] {
      var init := fs[..|fs| - 1];
      forall i | 0 <= i < |init| ensures init[i].tagk != k { assert fs[i] == init[i]; }
      FiltersForAbsent(init, k);
      assert fs[|fs| - 1].tagk != k;
    }
  }

  /** Some filter of the list has `group_by` set. */
  function AnyGroupBy(ffs: seq<TagFilter>): bool {
    ffs != [] && (AnyGroupBy(ffs[..|ffs| - 1]) || ffs[|ffs| - 1].groupBy)
  }

  lemma AnyGroupBySnoc(ffs: seq<TagFilter>, f: TagFilter)
    ensures AnyGroupBy(ffs + [f]) == (AnyGroupBy(ffs) || f.groupBy)
  {
    assert (ffs + [f])[..|ffs|] == ffs;
  }

  /** Some filter on `k` has `group_by` set. */
  predicate GroupsOn(fs: seq<TagFilter>, k: string) {
    exists i :: 0 <= i < |fs| && fs[i].tagk == k && fs[i].groupBy
  }

  lemma GroupsOnSnoc(fs: seq<TagFilter>, k: string)
    requires fs != []
    ensures GroupsOn(fs, k) <==> GroupsOn(fs[..|fs| - 1], k) || (fs[|fs| - 1].tagk == k && fs[|fs| - 1].groupBy)
  {
    var init := fs[..|fs| - 1];
    if GroupsOn(init, k) {
      var i :| 0 <= i < |init| && init[i].tagk == k && init[i].groupBy;
      assert fs[i] == init[i];
    }
    if GroupsOn(fs, k) {
      var i :| 0 <= i < |fs| && fs[i].tagk == k && fs[i].groupBy;
      if i < |fs| - 1 { assert init[i] == fs[i]; }
    }
  }

  /** The key is grouped exactly when one of the filters on it groups. */
  lemma {:induction false} AnyGroupByIff(fs: seq<TagFilter>, k: string)
    ensures AnyGroupBy(FiltersFor(fs, k)) <==> GroupsOn(fs, k)
  {
    if fs != [] {
      var init := fs[..|fs| - 1];
      var last := fs[|fs| - 1];
      AnyGroupByIff(init, k);
      GroupsOnSnoc(fs, k);
      if last.tagk == k {
        AnyGroupBySnoc(FiltersFor(init, k), last);
      } else {
        assert FiltersFor(init, k) + [] == FiltersFor(init, k);
        assert FiltersFor(fs, k) == FiltersFor(init, k);
      }
    }
  }

  /** The text one filter adds: `tagk=type(filter)`. */
  function Entry(tagk: string, f: TagFilter): string {
    tagk + "=" + f.filterType + "(" + f.filter + ")"
  }

  function Entries(tagk: string, ffs: seq<TagFilter>): (r: seq<string>)
    ensures |r| == |ffs|
    ensures forall j :: 0 <= j < |r| ==> r[j] == Entry(tagk, ffs[j])
  {
    if ffs == [] then [] else Entries(tagk, ffs[..|ffs| - 1]) + [Entry(tagk, ffs[|ffs| - 1])]
  }

  /** `tagkUngroupedString`: the entries of one key, comma-separated. */
  function TagkText(tagk: string, ffs: seq<TagFilter>): string {
    Join(Entries(tagk, ffs), ",")
  }

  /** The keys among `ks` on which some filter groups, in the order of `ks`. */
  function GroupedOf(fs: seq<TagFilter>, ks: seq<string>): (r: seq<string>)
    ensures forall k :: k in r <==> k in ks && AnyGroupBy(FiltersFor(fs, k))
  {
    if ks == [] then []
    else
      var k := ks[|ks| - 1];
      var r := GroupedOf(fs, ks[..|ks| - 1]);
      assert forall x :: x in ks <==> x in ks[..|ks| - 1] || x == k by {
        assert ks == ks[..|ks| - 1] + [k];
      }
      if AnyGroupBy(FiltersFor(fs, k)) then r + [k] else r
  }

  /** The texts of the keys among `ks` on which no filter groups, in the order of `ks`. */
  function UngroupedTexts(fs: seq<TagFilter>, ks: seq<string>): seq<string> {
    if ks == [] then []
    else
      var k := ks[|ks| - 1];
      var r := UngroupedTexts(fs, ks[..|ks| - 1]);
      if AnyGroupBy(FiltersFor(fs, k)) then r else r + [TagkText(k, FiltersFor(fs, k))]
  }

  /** The grouped keys in first-appearance order (`tagNames` before sorting). */
  function GroupedTagks(fs: seq<TagFilter>): seq<string> {
    GroupedOf(fs, TagkOrder(fs))
  }

  /** `ungroupedString`: the texts of the keys that do not group, comma-separated. */
  function UngroupedString(fs: seq<TagFilter>): string {
    Join(UngroupedTexts(fs, TagkOrder(fs)), ",")
  }

  /** A key is a tag name of the series exactly when some filter on it groups. */
  lemma GroupedTagksIff(fs: seq<TagFilter>, k: string)
    ensures k in GroupedTagks(fs) <==> GroupsOn(fs, k)
  {
    AnyGroupByIff(fs, k);
    if GroupsOn(fs, k) {
      var i :| 0 <= i < |fs| && fs[i].tagk == k && fs[i].groupBy;
      assert Mentions(fs, k);
    }
  }

  lemma JoinNonEmpty(parts: seq<string>, sep: string)
    requires parts != [] && parts[|parts| - 1] != ""
    ensures Join(parts, sep) != ""
  {
  }

  /** Every key some filter names has at least one filter. */
  lemma {:induction false} FiltersForPresent(fs: seq<TagFilter>, k: string)
    requires Mentions(fs, k)
    ensures FiltersFor(fs, k) != []
  {
    var init := fs[..|fs| - 1];
    if fs[|fs| - 1].tagk != k {
      assert Mentions(init, k) by {
        var i :| 0 <= i < |fs| && fs[i].tagk == k;
        assert init[i] == fs[i];
      }
      FiltersForPresent(init, k);
    }
  }

  /** Some key of `ks` has no grouping filter. */
  predicate SomeUngrouped(fs: seq<TagFilter>, ks: seq<string>) {
    exists j :: 0 <= j < |ks| && !GroupsOn(fs, ks[j])
  }

  lemma SomeUngroupedSnoc(fs: seq<TagFilter>, ks: seq<string>)
    requires ks != []
    ensures SomeUngrouped(fs, ks) <==> SomeUngrouped(fs, ks[..|ks| - 1]) || !GroupsOn(fs, ks[|ks| - 1])
  {
    var init := ks[..|ks| - 1];
    if SomeUngrouped(fs, init) {
      var j :| 0 <= j < |init| && !GroupsOn(fs, init[j]);
      assert ks[j] == init[j];
    }
    if SomeUngrouped(fs, ks) {
      var j :| 0 <= j < |ks| && !GroupsOn(fs, ks[j]);
      if j < |ks| - 1 { assert init[j] == ks[j]; }
    }
  }

  /** The ungrouped texts are non-empty exactly when some key of `ks` does not group,
      and the last of them is never empty. */
  lemma {:induction false} UngroupedTextsNonEmpty(fs: seq<TagFilter>, ks: seq<string>)
    requires forall k :: k in ks ==> Mentions(fs, k)
    ensures UngroupedTexts(fs, ks) != [] <==> SomeUngrouped(fs, ks)
    ensures UngroupedTexts(fs, ks) != [] ==> UngroupedTexts(fs, ks)[|UngroupedTexts(fs, ks)| - 1] != ""
  {
    if ks != [] {
      var init := ks[..|ks| - 1];
      var k := ks[|ks| - 1];
      assert forall x :: x in init ==> x in ks;
      UngroupedTextsNonEmpty(fs, init);
      SomeUngroupedSnoc(fs, ks);
      AnyGroupByIff(fs, k);
      if !AnyGroupBy(FiltersFor(fs, k)) {
        FiltersForPresent(fs, k);
        var es := Entries(k, FiltersFor(fs, k));
        assert es[|es| - 1] != "";
        JoinNonEmpty(es, ",");
      }
    }
  }

  /** There is an ungrouped part exactly when some filtered key has no grouping filter. */
  lemma UngroupedNonEmptyIff(fs: seq<TagFilter>)
    ensures UngroupedString(fs) != "" <==> exists i :: 0 <= i < |fs| && !GroupsOn(fs, fs[i].tagk)
  {
    var ks := TagkOrder(fs);
    UngroupedTextsNonEmpty(fs, ks);
    var ts := UngroupedTexts(fs, ks);
    if ts != [] { JoinNonEmpty(ts, ","); }
    if exists i :: 0 <= i < |fs| && !GroupsOn(fs, fs[i].tagk) {
      var i :| 0 <= i < |fs| && !GroupsOn(fs, fs[i].tagk);
      assert Mentions(fs, fs[i].tagk);
      var j :| 0 <= j < |ks| && ks[j] == fs[i].tagk;
    }
    if SomeUngrouped(fs, ks) {
      var j :| 0 <= j < |ks| && !GroupsOn(fs, ks[j]);
      assert Mentions(fs, ks[j]);
      var i :| 0 <= i < |fs| && fs[i].tagk == ks[j];
    }
  }

  // ---------------------------------------------------------------------------
  // The name

  /** `metric.tags[k]` as it is concatenated: a missing tag reads `undefined`. */
  function TagValue(tags: map<string, string>, k: string): string {
    if k in tags then tags[k] else "undefined"
  }

  /** The `tagk=value` pieces of the first pair of braces. */
  function Pairs(tags: map<string, string>, names: seq<string>): (r: seq<string>)
    ensures |r| == |names|
    ensures forall j :: 0 <= j < |r| ==> r[j] == names[j] + "=" + TagValue(tags, names[j])
  {
    if names == [] then []
    else Pairs(tags, names[..|names| - 1]) + [names[|names| - 1] + "=" + TagValue(tags, names[|names| - 1])]
  }

  /** The tag names shown in the first pair of braces, ascending. */
  ghost function TagNamesOf(s: Series): seq<string> {
    match s.query
    case None => LegacyNames(s.tags)
    case Some(q) =>
      match q.filters
      case None => []
      case Some(fs) => Sort(GroupedTagks(fs))
  }

  /** The text of the second pair of braces; empty when there is none. */
  function UngroupedOf(s: Series): string {
    if s.query.Some? && s.query.value.filters.Some? then UngroupedString(s.query.value.filters.value) else ""
  }

  /** The name built from the metric, the sorted tag names and the ungrouped text. */
  function NameFrom(metric: string, tags: map<string, string>, names: seq<string>, ug: string): string {
    if |names| > 0 || ug != "" then
      metric + "{" + Join(Pairs(tags, names), ",") + "}" + (if ug != "" then "{" + ug + "}" else "")
    else metric
  }

  /** The name `timeSeriesName` returns for the series. */
  ghost function SeriesNameOf(s: Series): string {
    NameFrom(s.metric, s.tags, TagNamesOf(s), UngroupedOf(s))
  }

  /** The buckets of the filters seen so far, keys in first-appearance order. */
  ghost predicate Bucketed(done: seq<TagFilter>, order: seq<string>, byTagk: map<string, seq<TagFilter>>) {
    && order == TagkOrder(done)
    && (forall k :: k in byTagk <==> k in order)
    && (forall k :: k in byTagk ==> byTagk[k] == FiltersFor(done, k))
  }

  /** Before the first loop, no filter is bucketed. */
  lemma NothingBucketed()
    ensures Bucketed([], [], map[])
  {
  }

  /** One step of the first loop: create the bucket if it is new, then push. */
  method AddFilter(ghost done: seq<TagFilter>, f: TagFilter, order: seq<string>, byTagk: map<string, seq<TagFilter>>)
    returns (order': seq<string>, byTagk': map<string, seq<TagFilter>>)
    requires Bucketed(done, order, byTagk)
    ensures Bucketed(done + [f], order', byTagk')
  {
    BucketedStep(done, f, order, byTagk);
    order', byTagk' := order, byTagk;
    if f.tagk !in byTagk' {
      byTagk' := byTagk'[f.tagk := []];
      order' := order' + [f.tagk];
    }
    byTagk' := byTagk'[f.tagk := byTagk'[f.tagk] + [f]];
  }

  /** Pushing `f` into its bucket, created first when its key is new, keeps the buckets
      in step with the filters seen. */
  lemma BucketedStep(done: seq<TagFilter>, f: TagFilter, order: seq<string>, byTagk: map<string, seq<TagFilter>>)
    requires Bucketed(done, order, byTagk)
    ensures var created := if f.tagk in byTagk then byTagk else byTagk[f.tagk := []];
            Bucketed(done + [f], if f.tagk in byTagk then order else order + [f.tagk],
                     created[f.tagk := created[f.tagk] + [f]])
  {
    var created := if f.tagk in byTagk then byTagk else byTagk[f.tagk := []];
    var order' := if f.tagk in byTagk then order else order + [f.tagk];
    var byTagk' := created[f.tagk := created[f.tagk] + [f]];
    TagkOrderSnoc(done, f);
    if f.tagk !in byTagk {
      FiltersForAbsent(done, f.tagk);
    }
    forall k | k in byTagk' ensures byTagk'[k] == FiltersFor(done + [f], k) {
      FiltersForSnoc(done, f, k);
    }
  }

  /** The first loop: the filters bucketed by tag key, keys in first-appearance order. */
  method GroupFilters(fs: seq<TagFilter>) returns (order: seq<string>, byTagk: map<string, seq<TagFilter>>)
    ensures Bucketed(fs, order, byTagk)
  {
    order := [];
    byTagk := map[];
    ghost var done: seq<TagFilter> := [];
    NothingBucketed();
    for f := 0 to |fs|
      invariant done == fs[..f]
      invariant Bucketed(done, order, byTagk)
    {
      order, byTagk := AddFilter(done, fs[f], order, byTagk);
      TakeSnoc(fs, f);
      done := done + [fs[f]];
    }
    TakeAll(fs);
  }

  /** The loop over one key's filters: whether any groups, and their entries joined. */
  method TagkSummary(tagk: string, ffs: seq<TagFilter>) returns (groupBy: bool, text: string)
    ensures groupBy == AnyGroupBy(ffs)
    ensures text == TagkText(tagk, ffs)
  {
    groupBy := false;
    text := "";
    var sep := "";
    for f := 0 to |ffs|
      invariant groupBy == AnyGroupBy(ffs[..f])
      invariant text == Join(Entries(tagk, ffs[..f]), ",")
      invariant sep == if f == 0 then "" else ","
    {
      if ffs[f].groupBy {
        groupBy := true;
      }
      TakeSnoc(ffs, f);
      AnyGroupBySnoc(ffs[..f], ffs[f]);
      var e := Entry(tagk, ffs[f]);
      assert Entries(tagk, ffs[..f + 1]) == Entries(tagk, ffs[..f]) + [e] by {
        assert (ffs[..f + 1])[..f] == ffs[..f];
      }
      if f > 0 { JoinSnoc(Entries(tagk, ffs[..f]), e, ","); }
      text := text + sep + e;
      sep := ",";
    }
    TakeAll(ffs);
  }

  /** One more key summarized: it joins the grouped keys or adds its text to the ungrouped ones. */
  lemma SummaryStep(fs: seq<TagFilter>, ks: seq<string>, i: nat)
    requires i < |ks|
    ensures GroupedOf(fs, ks[..i + 1])
         == GroupedOf(fs, ks[..i]) + (if AnyGroupBy(FiltersFor(fs, ks[i])) then [ks[i]] else [])
    ensures UngroupedTexts(fs, ks[..i + 1])
         == UngroupedTexts(fs, ks[..i]) + (if AnyGroupBy(FiltersFor(fs, ks[i])) then [] else [TagkText(ks[i], FiltersFor(fs, ks[i]))])
  {
    TakeSnoc(ks, i);
    assert ks[..i + 1][..i] == ks[..i];
  }

  /** What the key loop has built after the keys `ks`. */
  ghost predicate Summarized(fs: seq<TagFilter>, ks: seq<string>, tagNames: seq<string>,
                             ungroupedString: string, ungroupedSep: string) {
    && tagNames == GroupedOf(fs, ks)
    && ungroupedString == Join(UngroupedTexts(fs, ks), ",")
    && ungroupedSep == if UngroupedTexts(fs, ks) == [] then "" else ","
  }

  /** One pass of the key loop, on key `order[i]` with its filters `ffs`. */
  method SummarizeKey(fs: seq<TagFilter>, order: seq<string>, i: nat, ffs: seq<TagFilter>,
                      tagNames: seq<string>, ungroupedString: string, ungroupedSep: string)
    returns (tagNames': seq<string>, ungroupedString': string, ungroupedSep': string)
    requires i < |order| && ffs == FiltersFor(fs, order[i])
    requires Summarized(fs, order[..i], tagNames, ungroupedString, ungroupedSep)
    ensures Summarized(fs, order[..i + 1], tagNames', ungroupedString', ungroupedSep')
  {
    tagNames', ungroupedString', ungroupedSep' := tagNames, ungroupedString, ungroupedSep;
    var tagk := order[i];
    var exclude := false;
    var groupBy, tagkUngroupedString := TagkSummary(tagk, ffs);
    SummaryStep(fs, order, i);
    ghost var texts := UngroupedTexts(fs, order[..i]);
    if !groupBy {
      exclude := true;
      JoinAfterSep(texts, tagkUngroupedString, ungroupedSep');
      ungroupedString' := ungroupedString' + ungroupedSep' + tagkUngroupedString;
      ungroupedSep' := ",";
      assert UngroupedTexts(fs, order[..i + 1]) == texts + [tagkUngroupedString];
      assert GroupedOf(fs, order[..i + 1]) == tagNames by {
        assert tagNames + [] == tagNames;
      }
    }
    if !exclude {
      tagNames' := tagNames' + [tagk];
      assert UngroupedTexts(fs, order[..i + 1]) == texts by {
        assert texts + [] == texts;
      }
    }
  }

  /** `sep` is empty before the first text and a comma after: appending with it is a join. */
  lemma JoinAfterSep(texts: seq<string>, x: string, sep: string)
    requires sep == if texts == [] then "" else ","
    ensures Join(texts, ",") + sep + x == Join(texts + [x], ",")
  {
    if texts == [] {
      assert texts + [x] == [x];
    } else {
      JoinSnoc(texts, x, ",");
    }
  }

  /** The loop over the keys: grouped keys become tag names, the others add their text
      to the ungrouped string. */
  method SummarizeFilters(fs: seq<TagFilter>) returns (tagNames: seq<string>, ungroupedString: string)
    ensures tagNames == GroupedTagks(fs)
    ensures ungroupedString == UngroupedString(fs)
  {
    var order, byTagk := GroupFilters(fs);
    tagNames := [];
    ungroupedString := "";
    var ungroupedSep := "";
    NothingSummarized(fs, order);
    for i := 0 to |order|
      invariant Summarized(fs, order[..i], tagNames, ungroupedString, ungroupedSep)
    {
      tagNames, ungroupedString, ungroupedSep :=
        SummarizeKey(fs, order, i, byTagk[order[i]], tagNames, ungroupedString, ungroupedSep);
    }
    TakeAll(order);
  }

  /** Before the key loop nothing is summarized. */
  lemma NothingSummarized(fs: seq<TagFilter>, order: seq<string>)
    ensures Summarized(fs, order[..0], [], "", "")
  {
    assert order[..0] == [];
  }

  /** What the pair loop has written once `tk` names are done. */
  ghost function Written(prefix: string, tags: map<string, string>, tagNames: seq<string>, tk: nat): string
    requires tk <= |tagNames|
  {
    prefix + Join(Pairs(tags, tagNames[..tk]), ",")
  }

  /** Before the pair loop, only the prefix is written. */
  lemma WrittenNone(prefix: string, tags: map<string, string>, tagNames: seq<string>)
    ensures Written(prefix, tags, tagNames, 0) == prefix
  {
    assert tagNames[..0] == [];
    assert prefix + "" == prefix;
  }

  /** One more tag pair written after the ones before it. */
  lemma PairsStep(prefix: string, tags: map<string, string>, tagNames: seq<string>, tk: nat)
    requires tk < |tagNames|
    ensures Written(prefix, tags, tagNames, tk + 1)
            == Written(prefix, tags, tagNames, tk) + (if tk == 0 then "" else ",")
               + (tagNames[tk] + "=" + TagValue(tags, tagNames[tk]))
  {
    var before := Pairs(tags, tagNames[..tk]);
    var pair := tagNames[tk] + "=" + TagValue(tags, tagNames[tk]);
    assert (tagNames[..tk + 1])[..tk] == tagNames[..tk];
    assert Pairs(tags, tagNames[..tk + 1]) == before + [pair];
    if tk > 0 {
      JoinSnoc(before, pair, ",");
      ConcatAssoc(prefix, Join(before, ","), ",", pair);
    } else {
      assert before == [];
    }
  }

  /** The loop that writes the tag pairs after `name + "{"`. */
  method WritePairs(prefix: string, tags: map<string, string>, tagNames: seq<string>) returns (name: string)
    ensures name == prefix + Join(Pairs(tags, tagNames), ",")
  {
    name := prefix;
    var sep := "";
    WrittenNone(prefix, tags, tagNames);
    for tk := 0 to |tagNames|
      invariant name == Written(prefix, tags, tagNames, tk)
      invariant sep == if tk == 0 then "" else ","
    {
      var pair := tagNames[tk] + "=" + TagValue(tags, tagNames[tk]);
      PairsStep(prefix, tags, tagNames, tk);
      name := name + sep + pair;
      sep := ",";
    }
    TakeAll(tagNames);
  }

  /** The part after the tag names are known (and sorted once more). */
  method WriteName(metric: string, tags: map<string, string>, tagNames: seq<string>, ungroupedString: string)
    returns (name: string)
    ensures name == NameFrom(metric, tags, tagNames, ungroupedString)
  {
    name := metric;
    if |tagNames| > 0 || ungroupedString != "" {
      name := WritePairs(name + "{", tags, tagNames);
      name := name + "}";
      if ungroupedString != "" {
        name := name + "{" + ungroupedString + "}";
      }
    }
  }

  /** `timeSeriesName`. */
  method TimeSeriesName(series: Series) returns (name: string)
    ensures name == SeriesNameOf(series)
  {
    var ungroupedString := "";
    var tagNames: seq<string> := [];
    if series.query.Some? {
      if series.query.value.filters.Some? {
        tagNames, ungroupedString := SummarizeFilters(series.query.value.filters.value);
      }
    } else {
      tagNames := CollectTagNames(series.tags);
      LegacyOrderIrrelevant(series.tags, tagNames);
    }
    ghost var collected := tagNames;
    tagNames := Sort(tagNames);
    assert tagNames == TagNamesOf(series);
    SortIdempotent(collected);
    if |tagNames| > 0 || ungroupedString != "" {
      tagNames := Sort(tagNames);
    }
    name := WriteName(series.metric, series.tags, tagNames, ungroupedString);
  }

  // ---------------------------------------------------------------------------
  // What the name shows

  lemma SortMembers(e: seq<string>, k: string)
    ensures k in Sort(e) <==> k in e
  {
    assert k in Sort(e) <==> k in multiset(Sort(e));
  }

  /** The tag names are ascending; without an echoed query they are the series' own tag
      keys, with echoed filters the keys some filter groups on, and with a query but no
      filters there are none. */
  lemma TagNamesOfSeries(s: Series, k: string)
    ensures Sorted(TagNamesOf(s))
    ensures s.query.None? ==> (k in TagNamesOf(s) <==> k in s.tags)
    ensures s.query.Some? && s.query.value.filters.Some? ==>
      (k in TagNamesOf(s) <==> GroupsOn(s.query.value.filters.value, k))
    ensures s.query.Some? && s.query.value.filters.None? ==> TagNamesOf(s) == []
  {
    match s.query
    case None =>
      SortSorted(SetToSeq(s.tags.Keys));
      SortMembers(SetToSeq(s.tags.Keys), k);
    case Some(q) =>
      match q.filters
      case None =>
      case Some(fs) =>
        SortSorted(GroupedTagks(fs));
        SortMembers(GroupedTagks(fs), k);
        GroupedTagksIff(fs, k);
  }

  /** The bare metric name comes back exactly when there is nothing to put in braces. */
  lemma PlainNameIff(s: Series)
    ensures SeriesNameOf(s) == s.metric <==> TagNamesOf(s) == [] && UngroupedOf(s) == ""
    ensures s.query.Some? && s.query.value.filters.None? ==> SeriesNameOf(s) == s.metric
  {
    var names := TagNamesOf(s);
    var ug := UngroupedOf(s);
    if |names| > 0 || ug != "" {
      assert |SeriesNameOf(s)| > |s.metric|;
    }
    if s.query.Some? && s.query.value.filters.None? {
      TagNamesOfSeries(s, "");
    }
  }

  /** Without an echoed query the series shows no braces exactly when it has no tags, and
      every value shown is the series' own (never `undefined`). */
  lemma LegacyName(s: Series)
    requires s.query.None?
    ensures SeriesNameOf(s) == s.metric <==> s.tags == map[]
    ensures forall j :: 0 <= j < |TagNamesOf(s)| ==>
      TagNamesOf(s)[j] in s.tags &&
      Pairs(s.tags, TagNamesOf(s))[j] == TagNamesOf(s)[j] + "=" + s.tags[TagNamesOf(s)[j]]
  {
    var names := TagNamesOf(s);
    PlainNameIff(s);
    forall k ensures k in names <==> k in s.tags { TagNamesOfSeries(s, k); }
    if s.tags != map[] {
      var k :| k in s.tags;
      assert k in names;
    }
  }

  /** Only ungrouped filters: an empty first pair of braces, then the filters. */
  lemma OnlyUngroupedShape(s: Series)
    requires TagNamesOf(s) == [] && UngroupedOf(s) != ""
    ensures SeriesNameOf(s) == s.metric + "{}{" + UngroupedOf(s) + "}"
  {
    assert Pairs(s.tags, []) == [];
    EmptyBraces(s.metric, UngroupedOf(s));
  }

  lemma EmptyBraces(m: string, u: string)
    ensures m + "{" + "" + "}" + ("{" + u + "}") == m + "{}{" + u + "}"
  {
    assert "{" + "" + "}" + "{" == "{}{";
  }

  /** The filters of the example: a wildcard that groups on `host`, then two that do not. */
  function ExampleFilters(): seq<TagFilter> {
    [TagFilter("host", "wildcard", "*", true),
     TagFilter("dc", "literal_or", "lon", false),
     TagFilter("host", "literal_or", "web01|web02", false)]
  }

  lemma ExampleBuckets()
    ensures TagkOrder(ExampleFilters()) == ["host", "dc"]
    ensures FiltersFor(ExampleFilters(), "host") == [ExampleFilters()[0], ExampleFilters()[2]]
    ensures FiltersFor(ExampleFilters(), "dc") == [ExampleFilters()[1]]
  {
    ExampleOrder();
    ExampleFiltersFor("host");
    ExampleFiltersFor("dc");
  }

  /** The example's keys in first-appearance order. */
  lemma ExampleOrder()
    ensures TagkOrder(ExampleFilters()) == ["host", "dc"]
  {
    var fs := ExampleFilters();
    var s0: seq<TagFilter> := [];
    var s1 := s0 + [fs[0]];
    var s2 := s1 + [fs[1]];
    assert fs == s2 + [fs[2]];
    KeysDiffer();
    TagkOrderSnoc(s0, fs[0]);
    assert TagkOrder(s1) == [] + ["host"] == ["host"];
    TagkOrderSnoc(s1, fs[1]);
    assert "dc" !in ["host"];
    assert TagkOrder(s2) == ["host"] + ["dc"] == ["host", "dc"];
    TagkOrderSnoc(s2, fs[2]);
    assert "host" in ["host", "dc"];
  }

  /** The example's filters of key `k`, three steps at a time. */
  lemma ExampleFiltersFor(k: string)
    requires k == "host" || k == "dc"
    ensures FiltersFor(ExampleFilters(), k)
         == if k == "host" then [ExampleFilters()[0], ExampleFilters()[2]] else [ExampleFilters()[1]]
  {
    var fs := ExampleFilters();
    var s0: seq<TagFilter> := [];
    var s1 := s0 + [fs[0]];
    var s2 := s1 + [fs[1]];
    assert fs == s2 + [fs[2]];
    KeysDiffer();
    FiltersForSnoc(s0, fs[0], k);
    FiltersForSnoc(s1, fs[1], k);
    FiltersForSnoc(s2, fs[2], k);
  }

  /** `host` groups (its first filter has `group_by`), `dc` does not. */
  lemma ExampleGrouping()
    ensures GroupedTagks(ExampleFilters()) == ["host"]
    ensures UngroupedString(ExampleFilters()) == "dc=literal_or(lon)"
  {
    ExampleBuckets();
    ExampleHostGroups();
    ExampleDcUngrouped();
    ExampleGroupedTagks();
    ExampleUngroupedString();
  }

  lemma ExampleHostGroups()
    ensures AnyGroupBy([ExampleFilters()[0], ExampleFilters()[2]])
  {
    var fs := ExampleFilters();
    AnyGroupBySnoc([], fs[0]);
    AnyGroupBySnoc([fs[0]], fs[2]);
    assert [] + [fs[0]] == [fs[0]] && [fs[0]] + [fs[2]] == [fs[0], fs[2]];
  }

  lemma ExampleDcUngrouped()
    ensures !AnyGroupBy([ExampleFilters()[1]])
  {
    var fs := ExampleFilters();
    AnyGroupBySnoc([], fs[1]);
    assert [] + [fs[1]] == [fs[1]];
  }

  lemma ExampleGroupedTagks()
    requires TagkOrder(ExampleFilters()) == ["host", "dc"]
    requires AnyGroupBy(FiltersFor(ExampleFilters(), "host"))
    requires !AnyGroupBy(FiltersFor(ExampleFilters(), "dc"))
    ensures GroupedTagks(ExampleFilters()) == ["host"]
  {
    var fs := ExampleFilters();
    var ks := ["host", "dc"];
    assert ks[..1] == ["host"] && ks[..1][..0] == [];
    assert GroupedOf(fs, ["host"]) == ["host"];
  }

  lemma ExampleUngroupedString()
    requires TagkOrder(ExampleFilters()) == ["host", "dc"]
    requires FiltersFor(ExampleFilters(), "dc") == [ExampleFilters()[1]]
    requires AnyGroupBy(FiltersFor(ExampleFilters(), "host"))
    requires !AnyGroupBy(FiltersFor(ExampleFilters(), "dc"))
    ensures UngroupedString(ExampleFilters()) == "dc=literal_or(lon)"
  {
    var fs := ExampleFilters();
    var ks := ["host", "dc"];
    assert ks[..1] == ["host"] && ks[..1][..0] == [];
    assert UngroupedTexts(fs, ["host"]) == [];
    assert Entries("dc", [fs[1]]) == [Entry("dc", fs[1])];
    DcEntryText();
    assert UngroupedTexts(fs, ks) == [TagkText("dc", [fs[1]])];
  }

  /** The example series: tag names `[host]`, then the `dc` filter in its own braces. */
  lemma FilterExample()
    ensures SeriesNameOf(Series("cpu", map["host" := "web01"], Some(SeriesQuery(Some(ExampleFilters()))), []))
      == "cpu{host=web01}{dc=literal_or(lon)}"
  {
    var tags := map["host" := "web01"];
    var s := Series("cpu", tags, Some(SeriesQuery(Some(ExampleFilters()))), []);
    ExampleGrouping();
    SortSingle("host");
    var names, ug := TagNamesOf(s), UngroupedOf(s);
    assert names == ["host"];
    assert ug == "dc=literal_or(lon)";
    assert SeriesNameOf(s) == NameFrom("cpu", tags, names, ug);
    ExampleNameFrom();
  }

  lemma SortSingle(x: string)
    ensures Sort([x]) == [x]
  {
    assert [x][1..] == [];
  }

  lemma ExamplePair()
    ensures Pairs(map["host" := "web01"], ["host"]) == ["host=web01"]
  {
    assert ["host"][..0] == [];
    assert TagValue(map["host" := "web01"], "host") == "web01";
    assert "host" + "=" + "web01" == "host=web01";
  }

  lemma ExampleNameFrom()
    ensures NameFrom("cpu", map["host" := "web01"], ["host"], "dc=literal_or(lon)") == "cpu{host=web01}{dc=literal_or(lon)}"
  {
    ExamplePair();
    assert Join(["host=web01"], ",") == "host=web01";
    ExampleNameText();
  }

  /** Without an echoed query the keys come out sorted, whatever order they were stored in. */
  lemma LegacyExample()
    ensures SeriesNameOf(Series("cpu", map["region" := "eu", "host" := "web01"], None, []))
      == "cpu{host=web01,region=eu}"
  {
    var tags := map["region" := "eu", "host" := "web01"];
    var e := ["host", "region"];
    LegacyNamesExample();
    PairsExample();
    var s := Series("cpu", tags, None, []);
    assert TagNamesOf(s) == e;
    assert UngroupedOf(s) == "";
    LegacyNameFrom();
  }

  lemma LegacyNameFrom()
    ensures NameFrom("cpu", map["region" := "eu", "host" := "web01"], ["host", "region"], "") == "cpu{host=web01,region=eu}"
  {
    PairsExample();
    var j := Join(["host=web01", "region=eu"], ",");
    assert j == "host=web01,region=eu" by {
      assert ["host=web01", "region=eu"][..1] == ["host=web01"];
    }
    NameFromNoUngrouped("cpu", map["region" := "eu", "host" := "web01"], ["host", "region"]);
    LegacyNameText();
  }

  lemma NameFromNoUngrouped(metric: string, tags: map<string, string>, names: seq<string>)
    requires names != []
    ensures NameFrom(metric, tags, names, "") == metric + "{" + Join(Pairs(tags, names), ",") + "}" + ""
  {
  }

  lemma LegacyNamesExample()
    ensures LegacyNames(map["region" := "eu", "host" := "web01"]) == ["host", "region"]
  {
    var tags := map["region" := "eu", "host" := "web01"];
    var e := ["host", "region"];
    assert forall k :: k in e <==> k in tags;
    LegacyOrderIrrelevant(tags, e);
    SortedExample();
  }

  lemma SortedExample()
    ensures Sort(["host", "region"]) == ["host", "region"]
  {
    assert Le("host", "region");
    var e := ["host", "region"];
    assert e[1..] == ["region"];
    assert Sort(["region"]) == ["region"];
    assert Insert("host", ["region"]) == e;
  }

  lemma PairsExample()
    ensures Pairs(map["region" := "eu", "host" := "web01"], ["host", "region"]) == ["host=web01", "region=eu"]
  {
    var tags := map["region" := "eu", "host" := "web01"];
    var e := ["host", "region"];
    assert e[..1] == ["host"] && e[..1][..0] == [];
    assert TagValue(tags, "host") == "web01" && TagValue(tags, "region") == "eu";
    assert "host" + "=" + "web01" == "host=web01";
    assert "region" + "=" + "eu" == "region=eu";
  }

  // ---------------------------------------------------------------------------
  // Literal and concatenation facts the examples above call

  /** The two example keys are distinct. */
  lemma KeysDiffer()
    ensures "host" != "dc"
  {
    assert |"host"| != |"dc"|;
  }

  lemma DcEntryText()
    ensures "dc" + "=" + "literal_or" + "(" + "lon" + ")" == "dc=literal_or(lon)"
  {
  }

  lemma ExampleNameText()
    ensures "cpu" + "{" + "host=web01" + "}" + ("{" + "dc=literal_or(lon)" + "}") == "cpu{host=web01}{dc=literal_or(lon)}"
  {
  }

  lemma LegacyNameText()
    ensures "cpu" + "{" + "host=web01,region=eu" + "}" + "" == "cpu{host=web01,region=eu}"
  {
  }
}
