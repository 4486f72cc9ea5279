/** Planning the data queries of one graph (`perform_queries`): the metrics are split
    into sets in which no metric name repeats, each set becomes one query, and the
    series that come back are tagged with the metric they answer. */
module Planner {
  import opened Base
  import opened QueryString

  // ---------------------------------------------------------------------------
  // Where each name occurs

  /** The metric names in order of first appearance (the key order of `metricIndexes`). */
  function Names(ms: seq<Metric>): (r: seq<string>)
    ensures forall a, b :: 0 <= a < b < |r| ==> r[a] != r[b]
  {
    if ms == [] then []
    else
      var r := Names(ms[..|ms| - 1]);
      if ms[|ms| - 1].name in r then r else r + [ms[|ms| - 1].name]
  }

  /** The positions of the metrics named `n`, ascending (`metricIndexes[n]`). */
  function Occurrences(ms: seq<Metric>, n: string): (r: seq<nat>)
    ensures forall k :: 0 <= k < |r| ==> r[k] < |ms| && ms[r[k]].name == n
    ensures forall a, b :: 0 <= a < b < |r| ==> r[a] < r[b]
  {
    if ms == [] then []
    else Occurrences(ms[..|ms| - 1], n) + (if ms[|ms| - 1].name == n then [|ms| - 1] else [])
  }

  /** `maxCount` as the loop keeps it: the largest length a list reaches on a push. */
  function MaxCount(ms: seq<Metric>): nat {
    if ms == [] then 0
    else
      var before := MaxCount(ms[..|ms| - 1]);
      var now := |Occurrences(ms, ms[|ms| - 1].name)|;
      if before < now then now else before
  }

  lemma NamesSnoc(ms: seq<Metric>, m: Metric)
    ensures Names(ms + [m]) == if m.name in Names(ms) then Names(ms) else Names(ms) + [m.name]
  {
    assert (ms + [m])[..|ms|] == ms;
  }

  lemma OccurrencesSnoc(ms: seq<Metric>, m: Metric, n: string)
    ensures Occurrences(ms + [m], n) == Occurrences(ms, n) + (if m.name == n then [|ms|] else [])
  {
    assert (ms + [m])[..|ms|] == ms;
  }

  lemma MaxCountSnoc(ms: seq<Metric>, m: Metric)
    ensures MaxCount(ms + [m]) == if MaxCount(ms) < |Occurrences(ms + [m], m.name)|
                                   then |Occurrences(ms + [m], m.name)| else MaxCount(ms)
  {
    assert (ms + [m])[..|ms|] == ms;
  }

  /** A name is listed exactly when some metric carries it. */
  lemma {:induction false} NamesMembers(ms: seq<Metric>, n: string)
    ensures n in Names(ms) <==> |Occurrences(ms, n)| > 0
  {
    if ms != [] {
      NamesMembers(ms[..|ms| - 1], n);
    }
  }

  /** Every position holding the name is listed. */
  lemma {:induction false} OccurrencesComplete(ms: seq<Metric>, n: string, j: nat)
    requires j < |ms| && ms[j].name == n
    ensures j in Occurrences(ms, n)
  {
    if j < |ms| - 1 {
      OccurrencesComplete(ms[..|ms| - 1], n, j);
    }
  }

  /** `maxCount` is the largest multiplicity of any name. */
  lemma MaxCountIsLargestMultiplicity(ms: seq<Metric>)
    ensures forall n :: |Occurrences(ms, n)| <= MaxCount(ms)
    ensures ms != [] ==> exists n :: n in Names(ms) && |Occurrences(ms, n)| == MaxCount(ms)
  {
    MaxCountBounds(ms);
    if ms != [] {
      MaxCountAttained(ms);
    }
  }

  lemma OccurrenceCountSnoc(ms: seq<Metric>, m: Metric, n: string)
    ensures |Occurrences(ms + [m], n)| == |Occurrences(ms, n)| + (if m.name == n then 1 else 0)
  {
    OccurrencesSnoc(ms, m, n);
  }

  lemma {:induction false} MaxCountBounds(ms: seq<Metric>)
    ensures forall n :: |Occurrences(ms, n)| <= MaxCount(ms)
  {
    if ms != [] {
      var init, m := ms[..|ms| - 1], ms[|ms| - 1];
      MaxCountBounds(init);
      assert ms == init + [m];
      MaxCountSnoc(init, m);
      forall n ensures |Occurrences(ms, n)| <= MaxCount(ms) {
        OccurrenceCountSnoc(init, m, n);
      }
    }
  }

  lemma {:induction false} MaxCountAttained(ms: seq<Metric>)
    requires ms != []
    ensures exists n :: n in Names(ms) && |Occurrences(ms, n)| == MaxCount(ms)
  {
    var init, m := ms[..|ms| - 1], ms[|ms| - 1];
    assert ms == init + [m];
    MaxCountSnoc(init, m);
    OccurrenceCountSnoc(init, m, m.name);
    if MaxCount(init) < |Occurrences(ms, m.name)| {
      NamesMembers(ms, m.name);
    } else {
      assert init != [];
      MaxCountAttained(init);
      var n :| n in Names(init) && |Occurrences(init, n)| == MaxCount(init);
      OccurrenceCountSnoc(init, m, n);
      NamesMembers(init, n);
      NamesMembers(ms, n);
      MaxCountBounds(ms);
    }
  }

  /** The rank of the metric at `j` among the metrics with its name. */
  function Rank(ms: seq<Metric>, j: nat): nat
    requires j < |ms|
  {
    |Occurrences(ms[..j], ms[j].name)|
  }

  /** The occurrences in a prefix are a prefix of the occurrences, and the later ones lie
      beyond the prefix. */
  lemma {:induction false} OccurrencesOfPrefix(ms: seq<Metric>, j: nat, n: string)
    requires j <= |ms|
    ensures |Occurrences(ms[..j], n)| <= |Occurrences(ms, n)|
    ensures Occurrences(ms[..j], n) == Occurrences(ms, n)[..|Occurrences(ms[..j], n)|]
    ensures forall k :: |Occurrences(ms[..j], n)| <= k < |Occurrences(ms, n)| ==> Occurrences(ms, n)[k] >= j
    decreases |ms| - j
  {
    if j == |ms| {
      assert ms[..j] == ms;
    } else {
      OccurrencesOfPrefix(ms, j + 1, n);
      OccurrencesSnoc(ms[..j], ms[j], n);
      TakeSnoc(ms, j);
    }
  }

  /** The metric at `j` is occurrence number `Rank(ms, j)` of its name, and no other. */
  lemma RankIsPosition(ms: seq<Metric>, j: nat, i: nat)
    requires j < |ms|
    ensures (i < |Occurrences(ms, ms[j].name)| && Occurrences(ms, ms[j].name)[i] == j) <==> i == Rank(ms, j)
  {
    var n := ms[j].name;
    OccurrencesOfPrefix(ms, j + 1, n);
    OccurrencesSnoc(ms[..j], ms[j], n);
    TakeSnoc(ms, j);
    var occ := Occurrences(ms, n);
    var r := Rank(ms, j);
    assert occ[r] == j;
    forall k | 0 <= k < |occ| && k != r ensures occ[k] != j {
      if k < r { assert occ[k] < occ[r]; } else { assert occ[r] < occ[k]; }
    }
  }

  // ---------------------------------------------------------------------------
  // The sets

  /** The positions in set `i`: the `i`-th occurrence of each name in `names` (in that
      order) that occurs more than `i` times. */
  function Column(ms: seq<Metric>, i: nat, names: seq<string>): (r: seq<nat>)
    ensures forall k :: 0 <= k < |r| ==> r[k] < |ms|
  {
    if names == [] then []
    else
      var n := names[|names| - 1];
      Column(ms, i, names[..|names| - 1])
      + (if |Occurrences(ms, n)| > i then [Occurrences(ms, n)[i]] else [])
  }

  /** The metrics at the positions `idx`, in that order. */
  function Pick(ms: seq<Metric>, idx: seq<nat>): (r: seq<Metric>)
    requires forall k :: 0 <= k < |idx| ==> idx[k] < |ms|
    ensures |r| == |idx|
  {
    if idx == [] then [] else Pick(ms, idx[..|idx| - 1]) + [ms[idx[|idx| - 1]]]
  }

  lemma {:induction false} PickAt(ms: seq<Metric>, idx: seq<nat>, k: nat)
    requires forall k :: 0 <= k < |idx| ==> idx[k] < |ms|
    requires k < |idx|
    ensures Pick(ms, idx)[k] == ms[idx[k]]
  {
    if k < |idx| - 1 {
      PickAt(ms, idx[..|idx| - 1], k);
    }
  }

  lemma PickSnoc(ms: seq<Metric>, idx: seq<nat>, j: nat)
    requires forall k :: 0 <= k < |idx| ==> idx[k] < |ms|
    requires j < |ms|
    ensures Pick(ms, idx + [j]) == Pick(ms, idx) + [ms[j]]
  {
    assert (idx + [j])[..|idx|] == idx;
  }

  /** The sets of `seperatedMetricsArrays`. */
  function Partition(ms: seq<Metric>): (r: seq<seq<Metric>>)
    ensures |r| == MaxCount(ms)
  {
    seq(MaxCount(ms), i requires 0 <= i < MaxCount(ms) => Pick(ms, Column(ms, i, Names(ms))))
  }

  /** The dictionary of set `i` over `names` (`seperatedMetricsDicts`). */
  function ColumnDict(ms: seq<Metric>, i: nat, names: seq<string>): map<string, Metric> {
    if names == [] then map[]
    else
      var n := names[|names| - 1];
      var d := ColumnDict(ms, i, names[..|names| - 1]);
      if |Occurrences(ms, n)| > i then d[n := ms[Occurrences(ms, n)[i]]] else d
  }

  lemma ColumnSnoc(ms: seq<Metric>, i: nat, names: seq<string>, n: string)
    ensures Column(ms, i, names + [n])
         == Column(ms, i, names) + (if |Occurrences(ms, n)| > i then [Occurrences(ms, n)[i]] else [])
    ensures ColumnDict(ms, i, names + [n])
         == if |Occurrences(ms, n)| > i then ColumnDict(ms, i, names)[n := ms[Occurrences(ms, n)[i]]]
            else ColumnDict(ms, i, names)
  {
    assert (names + [n])[..|names|] == names;
  }

  /** Set membership: a position is in set `i` exactly when its name is listed and the
      metric there is occurrence `i` of its name. */
  lemma {:induction false} ColumnMembers(ms: seq<Metric>, i: nat, names: seq<string>, j: nat)
    requires j < |ms|
    ensures j in Column(ms, i, names) <==> ms[j].name in names && Rank(ms, j) == i
  {
    if names != [] {
      var init, n := names[..|names| - 1], names[|names| - 1];
      var nm := ms[j].name;
      ColumnMembers(ms, i, init, j);
      ColumnSnocMember(ms, i, names, j);
      LastListed(names, nm);
      if nm == n {
        RankIsPosition(ms, j, i);
      } else if |Occurrences(ms, n)| > i {
        assert ms[Occurrences(ms, n)[i]].name == n;
      }
    }
  }

  /** A name is listed iff it is listed before the last place or is the last name. */
  lemma LastListed(names: seq<string>, nm: string)
    requires names != []
    ensures nm in names <==> nm in names[..|names| - 1] || nm == names[|names| - 1]
  {
    assert names == names[..|names| - 1] + [names[|names| - 1]];
  }

  /** Membership in a set built over one more name. */
  lemma ColumnSnocMember(ms: seq<Metric>, i: nat, names: seq<string>, j: nat)
    requires names != []
    ensures var n := names[|names| - 1];
      j in Column(ms, i, names)
      <==> j in Column(ms, i, names[..|names| - 1]) || (|Occurrences(ms, n)| > i && Occurrences(ms, n)[i] == j)
  {
  }

  /** The names in a set are the listed names that occur more than `i` times, each once. */
  lemma {:induction false} ColumnNames(ms: seq<Metric>, i: nat, names: seq<string>)
    requires forall a, b :: 0 <= a < b < |names| ==> names[a] != names[b]
    ensures forall a, b :: 0 <= a < b < |Column(ms, i, names)| ==>
              ms[Column(ms, i, names)[a]].name != ms[Column(ms, i, names)[b]].name
    ensures forall k :: 0 <= k < |Column(ms, i, names)| ==> ms[Column(ms, i, names)[k]].name in names
  {
    if names != [] {
      var init, n := names[..|names| - 1], names[|names| - 1];
      ColumnNames(ms, i, init);
      var c := Column(ms, i, init);
      assert forall k :: 0 <= k < |init| ==> init[k] == names[k];
      assert n !in init;
    }
  }

  /** The dictionary of a set maps each of its names to its metric. */
  lemma {:induction false} ColumnDictAgrees(ms: seq<Metric>, i: nat, names: seq<string>, n: string)
    ensures n in ColumnDict(ms, i, names) <==> n in names && |Occurrences(ms, n)| > i
    ensures n in ColumnDict(ms, i, names) ==> ColumnDict(ms, i, names)[n] == ms[Occurrences(ms, n)[i]]
  {
    if names != [] {
      var init, last := names[..|names| - 1], names[|names| - 1];
      ColumnDictAgrees(ms, i, init, n);
      assert names == init + [last];
      ColumnSnoc(ms, i, init, last);
      assert n in names <==> n in init || n == last;
    }
  }

  /** The partition: as many sets as the largest multiplicity of a name; every metric
      lands in exactly one set, the one numbered by its rank among its namesakes; and no
      set repeats a name. */
  lemma PartitionProperties(ms: seq<Metric>)
    ensures forall n :: |Occurrences(ms, n)| <= |Partition(ms)|
    ensures ms != [] ==> exists n :: n in Names(ms) && |Occurrences(ms, n)| == |Partition(ms)|
    ensures forall j, i :: 0 <= j < |ms| && 0 <= i < |Partition(ms)| ==>
              (j in Column(ms, i, Names(ms)) <==> i == Rank(ms, j))
    ensures forall j :: 0 <= j < |ms| ==> Rank(ms, j) < |Partition(ms)|
    ensures forall i, a, b :: 0 <= i < |Partition(ms)| && 0 <= a < b < |Partition(ms)[i]| ==>
              Partition(ms)[i][a].name != Partition(ms)[i][b].name
  {
    MaxCountIsLargestMultiplicity(ms);
    forall j, i | 0 <= j < |ms| && 0 <= i < |Partition(ms)|
      ensures j in Column(ms, i, Names(ms)) <==> i == Rank(ms, j)
    {
      ColumnMembers(ms, i, Names(ms), j);
      NamesMembers(ms, ms[j].name);
      OccurrencesComplete(ms, ms[j].name, j);
    }
    forall j | 0 <= j < |ms| ensures Rank(ms, j) < |Partition(ms)| {
      RankIsPosition(ms, j, Rank(ms, j));
      OccurrencesOfPrefix(ms, j + 1, ms[j].name);
      OccurrencesSnoc(ms[..j], ms[j], ms[j].name);
      TakeSnoc(ms, j);
    }
    forall i, a, b | 0 <= i < |Partition(ms)| && 0 <= a < b < |Partition(ms)[i]|
      ensures Partition(ms)[i][a].name != Partition(ms)[i][b].name
    {
      var col := Column(ms, i, Names(ms));
      ColumnNames(ms, i, Names(ms));
      PickAt(ms, col, a);
      PickAt(ms, col, b);
    }
  }

  lemma ExampleNames(a1: Metric, a2: Metric, b: Metric)
    requires a1.name == a2.name && a1.name != b.name
    ensures Names([a1, a2, b]) == [a1.name, b.name]
  {
    NamesOfPair(a1, a2);
    assert [a1, a2, b] == [a1, a2] + [b];
    NamesSnoc([a1, a2], b);
    assert b.name !in [a1.name];
    assert [a1.name] + [b.name] == [a1.name, b.name];
  }

  lemma NamesOfPair(a1: Metric, a2: Metric)
    requires a1.name == a2.name
    ensures Names([a1, a2]) == [a1.name]
  {
    assert [a1] == [] + [a1];
    NamesSnoc([], a1);
    assert [a1, a2] == [a1] + [a2];
    NamesSnoc([a1], a2);
  }

  lemma ExampleOccurrences(a1: Metric, a2: Metric, b: Metric, n: string)
    ensures Occurrences([a1, a2, b], n)
         == (if a1.name == n then [0] else []) + (if a2.name == n then [1] else [])
            + (if b.name == n then [2] else [])
  {
    OccurrencesOfPair(a1, a2, n);
    assert [a1, a2, b] == [a1, a2] + [b];
    OccurrencesSnoc([a1, a2], b, n);
  }

  lemma OccurrencesOfPair(a1: Metric, a2: Metric, n: string)
    ensures Occurrences([a1, a2], n) == (if a1.name == n then [0] else []) + (if a2.name == n then [1] else [])
  {
    assert [a1] == [] + [a1];
    OccurrencesSnoc([], a1, n);
    assert [a1, a2] == [a1] + [a2];
    OccurrencesSnoc([a1], a2, n);
  }

  lemma ExampleCounts(a1: Metric, a2: Metric, b: Metric)
    requires a1.name == a2.name && a1.name != b.name
    ensures Names([a1, a2, b]) == [a1.name, b.name]
    ensures Occurrences([a1, a2, b], a1.name) == [0, 1]
    ensures Occurrences([a1, a2, b], b.name) == [2]
  {
    ExampleNames(a1, a2, b);
    ExampleOccurrences(a1, a2, b, a1.name);
    ExampleOccurrences(a1, a2, b, b.name);
  }

  lemma ExampleMaxCount(a1: Metric, a2: Metric, b: Metric)
    requires a1.name == a2.name && a1.name != b.name
    ensures MaxCount([a1, a2, b]) == 2
  {
    ExampleCounts(a1, a2, b);
    MaxCountOfPair(a1, a2);
    assert [a1, a2, b] == [a1, a2] + [b];
    MaxCountSnoc([a1, a2], b);
  }

  lemma MaxCountOfPair(a1: Metric, a2: Metric)
    requires a1.name == a2.name
    ensures MaxCount([a1, a2]) == 2
  {
    assert [a1] == [] + [a1] && [a1, a2] == [a1] + [a2];
    OccurrenceCountSnoc([], a1, a1.name);
    OccurrenceCountSnoc([a1], a2, a1.name);
    MaxCountSnoc([], a1);
    MaxCountSnoc([a1], a2);
  }

  lemma ExampleColumns(a1: Metric, a2: Metric, b: Metric)
    requires a1.name == a2.name && a1.name != b.name
    ensures Column([a1, a2, b], 0, [a1.name, b.name]) == [0, 2]
    ensures Column([a1, a2, b], 1, [a1.name, b.name]) == [1]
  {
    var ms := [a1, a2, b];
    ExampleCounts(a1, a2, b);
    assert [a1.name, b.name] == [a1.name] + [b.name] && [a1.name] == [] + [a1.name];
    ColumnSnoc(ms, 0, [], a1.name);
    ColumnSnoc(ms, 0, [a1.name], b.name);
    ColumnSnoc(ms, 1, [], a1.name);
    ColumnSnoc(ms, 1, [a1.name], b.name);
  }

  /** No set is empty: set `i` holds the `i`-th occurrence of a most frequent name. */
  lemma PartitionSetsNonEmpty(ms: seq<Metric>)
    ensures forall i :: 0 <= i < |Partition(ms)| ==> Partition(ms)[i] != []
  {
    MaxCountIsLargestMultiplicity(ms);
    forall i | 0 <= i < |Partition(ms)| ensures Partition(ms)[i] != [] {
      var n :| n in Names(ms) && |Occurrences(ms, n)| == MaxCount(ms);
      var j := Occurrences(ms, n)[i];
      RankIsPosition(ms, j, i);
      ColumnMembers(ms, i, Names(ms), j);
      NamesMembers(ms, n);
    }
  }

  /** The pinned example: [A, A, B] gives the sets [A, B] and [A]. */
  lemma PartitionExample(a1: Metric, a2: Metric, b: Metric)
    requires a1.name == a2.name && a1.name != b.name
    ensures Partition([a1, a2, b]) == [[a1, b], [a2]]
  {
    var ms := [a1, a2, b];
    ExampleNames(a1, a2, b);
    ExampleMaxCount(a1, a2, b);
    ExampleColumns(a1, a2, b);
    ExamplePicks(a1, a2, b);
    var p := Partition(ms);
    assert p[0] == [a1, b];
    assert p[1] == [a2];
    PairOfSets(p, [a1, b], [a2]);
  }

  lemma ExamplePicks(a1: Metric, a2: Metric, b: Metric)
    ensures Pick([a1, a2, b], [0, 2]) == [a1, b]
    ensures Pick([a1, a2, b], [1]) == [a2]
  {
    PickAt([a1, a2, b], [0, 2], 0);
    PickAt([a1, a2, b], [0, 2], 1);
    PickAt([a1, a2, b], [1], 0);
  }

  /** The dictionaries of all the sets, in set order. */
  function Dicts(ms: seq<Metric>): (r: seq<map<string, Metric>>)
    ensures |r| == |Partition(ms)|
  {
    seq(MaxCount(ms), i requires 0 <= i < MaxCount(ms) => ColumnDict(ms, i, Names(ms)))
  }

  lemma SetsAre(ms: seq<Metric>, dicts: seq<map<string, Metric>>, arrays: seq<seq<Metric>>)
    requires |arrays| == MaxCount(ms) && |dicts| == MaxCount(ms)
    requires forall c :: 0 <= c < |arrays| ==> arrays[c] == Pick(ms, Column(ms, c, Names(ms)))
    requires forall c :: 0 <= c < |dicts| ==> dicts[c] == ColumnDict(ms, c, Names(ms))
    ensures arrays == Partition(ms) && dicts == Dicts(ms)
  {
  }

  /** Each dictionary maps a name to a metric carrying that name. */
  predicate KeyedByName(d: map<string, Metric>) {
    forall n :: n in d ==> d[n].name == n
  }

  /** A name is a key of set `i`'s dictionary exactly when a metric of set `i` carries it. */
  lemma DictDomain(ms: seq<Metric>, i: nat, n: string, col: seq<nat>)
    requires col == Column(ms, i, Names(ms))
    ensures n in ColumnDict(ms, i, Names(ms)) <==> exists k :: 0 <= k < |col| && ms[col[k]].name == n
  {
    ColumnDictAgrees(ms, i, Names(ms), n);
    NamesMembers(ms, n);
    if n in ColumnDict(ms, i, Names(ms)) {
      var j := Occurrences(ms, n)[i];
      RankIsPosition(ms, j, i);
      ColumnMembers(ms, i, Names(ms), j);
      var k :| 0 <= k < |col| && col[k] == j;
    }
    if k :| 0 <= k < |col| && ms[col[k]].name == n {
      ColumnMembers(ms, i, Names(ms), col[k]);
      RankIsPosition(ms, col[k], i);
      OccurrencesComplete(ms, n, col[k]);
    }
  }

  /** Set `i`'s dictionary maps the name of each of its metrics to that metric. */
  lemma DictValue(ms: seq<Metric>, i: nat, k: nat, col: seq<nat>)
    requires col == Column(ms, i, Names(ms)) && k < |col|
    ensures ms[col[k]].name in ColumnDict(ms, i, Names(ms))
    ensures ColumnDict(ms, i, Names(ms))[ms[col[k]].name] == ms[col[k]]
  {
    var j := col[k];
    ColumnMembers(ms, i, Names(ms), j);
    RankIsPosition(ms, j, i);
    ColumnDictAgrees(ms, i, Names(ms), ms[j].name);
    NamesMembers(ms, ms[j].name);
    OccurrencesComplete(ms, ms[j].name, j);
  }

  /** Set `i`'s dictionary maps every key to a metric carrying it. */
  lemma DictKeyed(ms: seq<Metric>, i: nat)
    ensures KeyedByName(ColumnDict(ms, i, Names(ms)))
  {
    forall n | n in ColumnDict(ms, i, Names(ms)) ensures ColumnDict(ms, i, Names(ms))[n].name == n {
      ColumnDictAgrees(ms, i, Names(ms), n);
    }
  }

  /** The keys of set `i`'s dictionary are the names of the metrics picked for set `i`. */
  lemma ColumnDictDomain(ms: seq<Metric>, i: nat, d: map<string, Metric>, col: seq<nat>, set_: seq<Metric>)
    requires d == ColumnDict(ms, i, Names(ms)) && col == Column(ms, i, Names(ms)) && set_ == Pick(ms, col)
    ensures forall n :: n in d <==> exists k :: 0 <= k < |set_| && set_[k].name == n
  {
    forall n ensures n in d <==> exists k :: 0 <= k < |set_| && set_[k].name == n {
      DictDomain(ms, i, n, col);
      if n in d {
        var k :| 0 <= k < |col| && ms[col[k]].name == n;
        PickAt(ms, col, k);
      }
      if exists k :: 0 <= k < |set_| && set_[k].name == n {
        var k :| 0 <= k < |set_| && set_[k].name == n;
        PickAt(ms, col, k);
      }
    }
  }

  /** Set `i`'s dictionary maps each name of the metrics picked for set `i` to that metric. */
  lemma ColumnDictValues(ms: seq<Metric>, i: nat, d: map<string, Metric>, col: seq<nat>, set_: seq<Metric>)
    requires d == ColumnDict(ms, i, Names(ms)) && col == Column(ms, i, Names(ms)) && set_ == Pick(ms, col)
    ensures forall k :: 0 <= k < |set_| ==> set_[k].name in d && d[set_[k].name] == set_[k]
  {
    forall k | 0 <= k < |set_| ensures set_[k].name in d && d[set_[k].name] == set_[k] {
      PickAt(ms, col, k);
      DictValue(ms, i, k, col);
    }
  }

  /** The dictionary of a set holds exactly the metrics of the set, each under its name. */
  lemma DictsMatchSets(ms: seq<Metric>, i: nat)
    requires i < |Partition(ms)|
    ensures KeyedByName(Dicts(ms)[i])
    ensures forall n :: n in Dicts(ms)[i] <==> exists k :: 0 <= k < |Partition(ms)[i]| && Partition(ms)[i][k].name == n
    ensures forall k :: 0 <= k < |Partition(ms)[i]| ==> Dicts(ms)[i][Partition(ms)[i][k].name] == Partition(ms)[i][k]
  {
    assert Dicts(ms)[i] == ColumnDict(ms, i, Names(ms));
    assert Partition(ms)[i] == Pick(ms, Column(ms, i, Names(ms)));
    DictKeyed(ms, i);
    ColumnDictDomain(ms, i, Dicts(ms)[i], Column(ms, i, Names(ms)), Partition(ms)[i]);
    ColumnDictValues(ms, i, Dicts(ms)[i], Column(ms, i, Names(ms)), Partition(ms)[i]);
  }

  /** One step of the inner loop: the `i`-th metric of one more name, if it has one. */
  method AddName(metrics: seq<Metric>, i: nat, name: string, indexes: seq<nat>, ghost done: seq<string>,
                 dict: map<string, Metric>, arr: seq<Metric>)
    returns (dict': map<string, Metric>, arr': seq<Metric>)
    requires indexes == Occurrences(metrics, name)
    requires dict == ColumnDict(metrics, i, done)
    requires arr == Pick(metrics, Column(metrics, i, done))
    ensures dict' == ColumnDict(metrics, i, done + [name])
    ensures arr' == Pick(metrics, Column(metrics, i, done + [name]))
  {
    ColumnSnoc(metrics, i, done, name);
    dict', arr' := dict, arr;
    if |indexes| > i {
      var metric := metrics[indexes[i]];
      PickSnoc(metrics, Column(metrics, i, done), indexes[i]);
      dict' := dict'[name := metric];
      arr' := arr' + [metric];
    } else {
      assert Column(metrics, i, done + [name]) == Column(metrics, i, done);
    }
  }

  /** One set: the inner loop over the names of `metricIndexes`. */
  method SetOf(metrics: seq<Metric>, metricIndexes: map<string, seq<nat>>, names: seq<string>, i: nat)
    returns (dict: map<string, Metric>, arr: seq<Metric>)
    requires forall n :: n in names ==> n in metricIndexes && metricIndexes[n] == Occurrences(metrics, n)
    ensures dict == ColumnDict(metrics, i, names)
    ensures arr == Pick(metrics, Column(metrics, i, names))
  {
    dict, arr := map[], [];
    ghost var done: seq<string> := [];
    for k := 0 to |names|
      invariant done == names[..k]
      invariant dict == ColumnDict(metrics, i, done)
      invariant arr == Pick(metrics, Column(metrics, i, done))
    {
      var name := names[k];
      dict, arr := AddName(metrics, i, name, metricIndexes[name], done, dict, arr);
      TakeSnoc(names, k);
      done := done + [name];
    }
    TakeAll(names);
  }

  /** One step of the first loop of `constructUrls`: record the position of one more metric. */
  method IndexOne(metricIndexes: map<string, seq<nat>>, names: seq<string>, maxCount: nat,
                  ghost done: seq<Metric>, m: nat, metric: Metric)
    returns (metricIndexes': map<string, seq<nat>>, names': seq<string>, maxCount': nat)
    requires m == |done|
    requires names == Names(done) && maxCount == MaxCount(done)
    requires forall n :: n in metricIndexes <==> n in names
    requires forall n :: n in metricIndexes ==> metricIndexes[n] == Occurrences(done, n)
    ensures names' == Names(done + [metric]) && maxCount' == MaxCount(done + [metric])
    ensures forall n :: n in metricIndexes' <==> n in names'
    ensures forall n :: n in metricIndexes' ==> metricIndexes'[n] == Occurrences(done + [metric], n)
  {
    var name := metric.name;
    NamesMembers(done, name);
    NamesSnoc(done, metric);
    MaxCountSnoc(done, metric);
    OccurrencesSnoc(done, metric, name);
    metricIndexes', names' := metricIndexes, names;
    if name !in metricIndexes' {
      metricIndexes' := metricIndexes'[name := []];
      names' := names' + [name];
    }
    metricIndexes' := metricIndexes'[name := metricIndexes'[name] + [m]];
    maxCount' := maxCount;
    if maxCount' < |metricIndexes'[name]| {
      maxCount' := |metricIndexes'[name]|;
    }
    forall n | n in metricIndexes' ensures metricIndexes'[n] == Occurrences(done + [metric], n) {
      OccurrencesSnoc(done, metric, n);
    }
  }

  /** The first loop of `constructUrls`: where each name occurs, and `maxCount`. */
  method IndexMetrics(metrics: seq<Metric>) returns (metricIndexes: map<string, seq<nat>>, names: seq<string>, maxCount: nat)
    ensures names == Names(metrics) && maxCount == MaxCount(metrics)
    ensures forall n :: n in metricIndexes <==> n in names
    ensures forall n :: n in metricIndexes ==> metricIndexes[n] == Occurrences(metrics, n)
  {
    metricIndexes, names, maxCount := map[], [], 0;
    ghost var done: seq<Metric> := [];
    for m := 0 to |metrics|
      invariant done == metrics[..m]
      invariant names == Names(done) && maxCount == MaxCount(done)
      invariant forall n :: n in metricIndexes <==> n in names
      invariant forall n :: n in metricIndexes ==> metricIndexes[n] == Occurrences(done, n)
    {
      metricIndexes, names, maxCount := IndexOne(metricIndexes, names, maxCount, done, m, metrics[m]);
      TakeSnoc(metrics, m);
      done := done + [metrics[m]];
    }
    TakeAll(metrics);
  }

  /** One round of the second loop of `constructUrls`: set `i` and its dictionary. */
  method AddSet(metrics: seq<Metric>, metricIndexes: map<string, seq<nat>>, names: seq<string>, i: nat,
                dicts: seq<map<string, Metric>>, arrays: seq<seq<Metric>>)
    returns (dicts': seq<map<string, Metric>>, arrays': seq<seq<Metric>>)
    requires forall n :: n in names ==> n in metricIndexes && metricIndexes[n] == Occurrences(metrics, n)
    requires |arrays| == i && |dicts| == i
    requires forall c :: 0 <= c < i ==> arrays[c] == Pick(metrics, Column(metrics, c, names))
    requires forall c :: 0 <= c < i ==> dicts[c] == ColumnDict(metrics, c, names)
    ensures |arrays'| == i + 1 && |dicts'| == i + 1
    ensures forall c :: 0 <= c < i + 1 ==> arrays'[c] == Pick(metrics, Column(metrics, c, names))
    ensures forall c :: 0 <= c < i + 1 ==> dicts'[c] == ColumnDict(metrics, c, names)
  {
    var dict, arr := SetOf(metrics, metricIndexes, names, i);
    dicts', arrays' := dicts + [dict], arrays + [arr];
  }

  /** The splitting part of `constructUrls`: `seperatedMetricsDicts` and
      `seperatedMetricsArrays`. */
  method SeparateMetrics(metrics: seq<Metric>) returns (dicts: seq<map<string, Metric>>, arrays: seq<seq<Metric>>)
    ensures arrays == Partition(metrics)
    ensures dicts == Dicts(metrics)
  {
    var metricIndexes, names, maxCount := IndexMetrics(metrics);
    dicts, arrays := [], [];
    for i := 0 to maxCount
      invariant |arrays| == i && |dicts| == i
      invariant forall c :: 0 <= c < i ==> arrays[c] == Pick(metrics, Column(metrics, c, names))
      invariant forall c :: 0 <= c < i ==> dicts[c] == ColumnDict(metrics, c, names)
    {
      dicts, arrays := AddSet(metrics, metricIndexes, names, i, dicts, arrays);
    }
    SetsAre(metrics, dicts, arrays);
  }

  // ---------------------------------------------------------------------------
  // The URL of one set

  /** The options of `perform_queries` that shape its URLs and its callbacks. */
  datatype QueryOptions = QueryOptions(
    supportsAnnotations: bool, annotations: bool, globalAnnotations: bool,
    requireArrays: bool, supportsBaselining: bool,
    downsampleOverride: Option<string -> string>)

  /** What `constructUrls` appends after the query string. */
  function UrlSuffix(o: QueryOptions): string {
    (if o.supportsAnnotations && (o.annotations || o.globalAnnotations)
     then "&show_tsuids=true" + (if o.globalAnnotations then "&global_annotations=true" else "")
     else "&no_annotations=true")
    + "&ms=true"
    + (if o.requireArrays then "&arrays=true" else "")
    + "&show_query=true"
  }

  /** The parameters the suffix sets, listed independently. */
  function SuffixParams(o: QueryOptions): seq<string> {
    var annotated := o.supportsAnnotations && (o.annotations || o.globalAnnotations);
    (if annotated then ["show_tsuids=true"] else ["no_annotations=true"])
    + (if annotated && o.globalAnnotations then ["global_annotations=true"] else [])
    + ["ms=true"]
    + (if o.requireArrays then ["arrays=true"] else [])
    + ["show_query=true"]
  }

  lemma JoinOptional(ps: seq<string>, q: seq<string>, body: string, extra: string)
    requires ps != [] && Join(ps, "&") == body
    requires q == [] ==> extra == ""
    requires |q| == 1 ==> extra == "&" + q[0]
    requires |q| <= 1
    ensures Join(ps + q, "&") == body + extra
  {
    if q == [] {
      assert ps + q == ps;
    } else {
      assert q == [q[0]];
      JoinSnoc(ps, q[0], "&");
    }
  }

  function Flag(q: seq<string>): string {
    if q == [] then "" else "&" + q[0]
  }

  lemma JoinShape(a: string, b: seq<string>, m: string, c: seq<string>, z: string)
    requires |b| <= 1 && |c| <= 1
    ensures Join([a] + b + [m] + c + [z], "&") == a + Flag(b) + ("&" + m) + Flag(c) + ("&" + z)
  {
    var p1 := [a] + b;
    JoinOptional([a], b, a, Flag(b));
    var s1 := a + Flag(b);
    var p2 := p1 + [m];
    JoinSnoc(p1, m, "&");
    Base.Regroup(s1, "&", m);
    var s2 := s1 + ("&" + m);
    assert Join(p2, "&") == s2;
    var p3 := p2 + c;
    JoinOptional(p2, c, s2, Flag(c));
    var s3 := s2 + Flag(c);
    var p4 := p3 + [z];
    JoinSnoc(p3, z, "&");
    Base.Regroup(s3, "&", z);
    assert Join(p4, "&") == s3 + ("&" + z);
  }

  /** The pieces of `UrlSuffix`, each an inlined parameter introduced by `&`. */
  lemma SuffixPieces(o: QueryOptions)
    ensures var annotated := o.supportsAnnotations && (o.annotations || o.globalAnnotations);
            var a := if annotated then "show_tsuids=true" else "no_annotations=true";
            var b := if annotated && o.globalAnnotations then ["global_annotations=true"] else [];
            var c := if o.requireArrays then ["arrays=true"] else [];
            UrlSuffix(o) == ("&" + a + Flag(b)) + ("&" + "ms=true") + Flag(c) + ("&" + "show_query=true")
  {
    SeparatedLiterals();
    var annotated := o.supportsAnnotations && (o.annotations || o.globalAnnotations);
    var a := if annotated then "show_tsuids=true" else "no_annotations=true";
    var b := if annotated && o.globalAnnotations then ["global_annotations=true"] else [];
    var c := if o.requireArrays then ["arrays=true"] else [];
    var fb, fc := Flag(b), Flag(c);
    assert fb == if annotated && o.globalAnnotations then "&global_annotations=true" else "";
    assert fc == if o.requireArrays then "&arrays=true" else "";
    var first := if annotated then "&show_tsuids=true" + fb else "&no_annotations=true";
    assert "&" + a + fb == first;
    assert UrlSuffix(o) == first + "&ms=true" + fc + "&show_query=true";
  }

  /** The suffix is the listed parameters, each introduced by `&`. */
  lemma UrlSuffixIsJoin(o: QueryOptions)
    ensures UrlSuffix(o) == "&" + Join(SuffixParams(o), "&")
  {
    var annotated := o.supportsAnnotations && (o.annotations || o.globalAnnotations);
    var a := if annotated then "show_tsuids=true" else "no_annotations=true";
    var b := if annotated && o.globalAnnotations then ["global_annotations=true"] else [];
    var c := if o.requireArrays then ["arrays=true"] else [];
    assert SuffixParams(o) == [a] + b + ["ms=true"] + c + ["show_query=true"];
    JoinShape(a, b, "ms=true", c, "show_query=true");
    SuffixPieces(o);
    SuffixRegroup(a, Flag(b), "&" + "ms=true", Flag(c), "&" + "show_query=true");
  }

  lemma SuffixParamAt(o: QueryOptions, k: nat)
    requires k < |SuffixParams(o)|
    ensures SuffixParams(o)[k] in ["show_tsuids=true", "no_annotations=true", "global_annotations=true",
                                   "ms=true", "arrays=true", "show_query=true"]
  {
  }

  /** Read back parameter by parameter, the suffix names exactly the listed parameters:
      annotations are requested (with the global ones when asked for) only when the
      back end supports them, `ms` always, `arrays` when required, `show_query` last. */
  lemma UrlSuffixParams(o: QueryOptions)
    ensures |UrlSuffix(o)| > 0 && UrlSuffix(o)[0] == '&'
    ensures Split(UrlSuffix(o)[1..], '&') == SuffixParams(o)
  {
    var ps := SuffixParams(o);
    UrlSuffixIsJoin(o);
    assert UrlSuffix(o)[1..] == Join(ps, "&");
    ShowTsuidsLiteral(); NoAnnotationsLiteral(); GlobalAnnotationsLiteral();
    MsLiteral(); ArraysLiteral(); ShowQueryLiteral();
    forall k | 0 <= k < |ps| ensures '&' !in ps[k] {
      SuffixParamAt(o, k);
    }
    SplitJoin(ps, '&');
  }

  // ---------------------------------------------------------------------------
  // Responses

  datatype DataPoint = DataPoint(timestamp: int, value: real)

  /** One filter of the query echoed with a series (`show_query=true`); `group_by`
      absent counts as false. */
  datatype TagFilter = TagFilter(tagk: string, filterType: string, filter: string, groupBy: bool)

  /** The echoed query; `filters` is `None` when the field is null or absent. */
  datatype SeriesQuery = SeriesQuery(filters: Option<seq<TagFilter>>)

  /** One series of an OpenTSDB `/api/query` response: its metric name, its tags, the
      echoed query (`None` when null or absent) and its data points. */
  datatype Series = Series(metric: string, tags: map<string, string>, query: Option<SeriesQuery>, dps: seq<DataPoint>)

  /** A received response with the dictionary of the set it answers (`metricsAndJson`). */
  datatype Response = Response(metrics: map<string, Metric>, response: seq<Series>)

  /** A series with `aardvark_metric` set; `None` when no metric of the set has its name. */
  datatype TaggedSeries = TaggedSeries(series: Series, aardvarkMetric: Option<Metric>)

  function Tagged(d: map<string, Metric>, s: Series): TaggedSeries {
    TaggedSeries(s, if s.metric in d then Some(d[s.metric]) else None)
  }

  /** `mergeJsons`: all series, response after response, each tagged from its own set. */
  function Merge(jsons: seq<Response>): (r: seq<TaggedSeries>) {
    if jsons == [] then []
    else
      var last := jsons[|jsons| - 1];
      Merge(jsons[..|jsons| - 1]) + seq(|last.response|, i requires 0 <= i < |last.response| => Tagged(last.metrics, last.response[i]))
  }

  /** The series of all responses back to back, untagged: the reference for `Merge`. */
  function AllSeries(jsons: seq<Response>): seq<Series> {
    if jsons == [] then [] else AllSeries(jsons[..|jsons| - 1]) + jsons[|jsons| - 1].response
  }

  function Untagged(ts: seq<TaggedSeries>): (r: seq<Series>)
    ensures |r| == |ts| && forall k :: 0 <= k < |ts| ==> r[k] == ts[k].series
  {
    seq(|ts|, k requires 0 <= k < |ts| => ts[k].series)
  }

  /** Merging keeps every series, in order, and drops none. */
  lemma {:induction false} MergeKeepsSeries(jsons: seq<Response>)
    ensures Untagged(Merge(jsons)) == AllSeries(jsons)
  {
    if jsons != [] {
      MergeKeepsSeries(jsons[..|jsons| - 1]);
    }
  }

  lemma {:induction false} MergePrefix(jsons: seq<Response>, j: nat)
    requires j <= |jsons|
    ensures |Merge(jsons[..j])| <= |Merge(jsons)| && Merge(jsons)[..|Merge(jsons[..j])|] == Merge(jsons[..j])
    decreases |jsons| - j
  {
    if j == |jsons| {
      assert jsons[..j] == jsons;
    } else {
      MergePrefix(jsons, j + 1);
      assert jsons[..j + 1][..j] == jsons[..j];
    }
  }

  /** Series `i` of response `j` sits after the series of the earlier responses and is
      tagged from the dictionary of response `j`. */
  lemma MergePosition(jsons: seq<Response>, j: nat, i: nat)
    requires j < |jsons| && i < |jsons[j].response|
    ensures |Merge(jsons[..j])| + i < |Merge(jsons)|
    ensures Merge(jsons)[|Merge(jsons[..j])| + i] == Tagged(jsons[j].metrics, jsons[j].response[i])
  {
    MergePrefix(jsons, j + 1);
    assert jsons[..j + 1][..j] == jsons[..j];
    var pre := Merge(jsons[..j + 1]);
    assert pre[|Merge(jsons[..j])| + i] == Tagged(jsons[j].metrics, jsons[j].response[i]);
    assert Merge(jsons)[|Merge(jsons[..j])| + i] == pre[|Merge(jsons[..j])| + i];
  }

  /** When every dictionary is keyed by metric name (as the sets' dictionaries are), a
      tagged metric always carries the series' own metric name. */
  lemma {:induction false} MergeTagsMatchNames(jsons: seq<Response>)
    requires forall j :: 0 <= j < |jsons| ==> KeyedByName(jsons[j].metrics)
    ensures forall k :: 0 <= k < |Merge(jsons)| && Merge(jsons)[k].aardvarkMetric.Some? ==>
              Merge(jsons)[k].aardvarkMetric.value.name == Merge(jsons)[k].series.metric
  {
    if jsons != [] {
      MergeTagsMatchNames(jsons[..|jsons| - 1]);
    }
  }

  /** `mergeJsons` as written: a loop over the responses and one over each response. */
  method MergeJsons(jsons: seq<Response>) returns (r: seq<TaggedSeries>)
    ensures r == Merge(jsons)
  {
    r := [];
    for j := 0 to |jsons|
      invariant r == Merge(jsons[..j])
    {
      var metricsAndJson := jsons[j];
      var json := metricsAndJson.response;
      ghost var before := r;
      for i := 0 to |json|
        invariant r == before + seq(i, k requires 0 <= k < i => Tagged(metricsAndJson.metrics, json[k]))
      {
        r := r + [Tagged(metricsAndJson.metrics, json[i])];
      }
      assert jsons[..j + 1][..j] == jsons[..j];
    }
    TakeAll(jsons);
  }

  // ---------------------------------------------------------------------------
  // Waiting for the responses

  /** One request of `perform_queries`: the dictionary of its set and its URL. */
  datatype MetricsAndUrl = MetricsAndUrl(metrics: map<string, Metric>, url: string)

  /** What `options.processJson` receives: the merged main and baseline series. */
  datatype Processed = Processed(mainJson: Option<seq<TaggedSeries>>, baselineJson: Option<seq<TaggedSeries>>)

  function Range(n: nat): (r: set<nat>)
    ensures forall u: nat :: u in r <==> u < n
    ensures |r| == n
  {
    if n == 0 then {} else Range(n - 1) + {n - 1}
  }

  /** Taking an answered request out of a pending set. */
  lemma RemoveOne(s: set<nat>, u: nat)
    requires u in s
    ensures |s - {u}| == |s| - 1 && s - {u} <= s
  {
  }

  /** The closure state `perform_queries` shares between its response callbacks. The
      requests still unanswered are `pendingMain` and `pendingBaseline`; the calls of
      `options.processJson` are recorded in `processed` and those of
      `options.errorResponse` counted in `errorCalls`. */
  class QueryRun {
    const graphId: string
    const mainRequests: seq<MetricsAndUrl>
    const baselineRequests: seq<MetricsAndUrl>
    const expectedNormalResponses: nat
    const expectedBaselineResponses: nat
    var pendingMain: set<nat>
    var pendingBaseline: set<nat>
    var receivedNormalResponses: nat
    var receivedBaselineResponses: nat
    var errorResponse: bool
    var mainJsons: seq<Response>
    var baselineJsons: seq<Response>
    var mainJson: Option<seq<TaggedSeries>>
    var baselineJson: Option<seq<TaggedSeries>>
    var processed: seq<Processed>
    var errorCalls: nat

    /** Every response of both batches has arrived, without an error in between. */
    predicate Complete()
      reads this
    {
      expectedNormalResponses > 0
      && receivedNormalResponses == expectedNormalResponses
      && receivedBaselineResponses == expectedBaselineResponses
    }

    predicate Valid()
      reads this
    {
      && expectedNormalResponses == |mainRequests|
      && expectedBaselineResponses == |baselineRequests|
      && (expectedBaselineResponses == 0 || expectedBaselineResponses == expectedNormalResponses)
      && (forall u :: u in pendingMain ==> u < expectedNormalResponses)
      && (forall u :: u in pendingBaseline ==> u < expectedBaselineResponses)
      && |mainJsons| == receivedNormalResponses
      && |baselineJsons| == receivedBaselineResponses
      && receivedNormalResponses + |pendingMain| <= expectedNormalResponses
      && receivedBaselineResponses + |pendingBaseline| <= expectedBaselineResponses
      && (!errorResponse ==>
            receivedNormalResponses + |pendingMain| == expectedNormalResponses
            && receivedBaselineResponses + |pendingBaseline| == expectedBaselineResponses)
      && (errorResponse ==>
            receivedNormalResponses + |pendingMain| + receivedBaselineResponses + |pendingBaseline|
            < expectedNormalResponses + expectedBaselineResponses)
      && (errorResponse <==> errorCalls > 0)
      && mainJson == (if expectedNormalResponses > 0 && receivedNormalResponses == expectedNormalResponses
                      then Some(Merge(mainJsons)) else None)
      && baselineJson == (if expectedBaselineResponses > 0 && receivedBaselineResponses == expectedBaselineResponses
                          then Some(Merge(baselineJsons)) else None)
      && processed == (if Complete() then [Processed(mainJson, baselineJson)] else [])
    }

    /** The state right after the requests are issued: nothing answered yet. */
    constructor(graphId: string, mainRequests: seq<MetricsAndUrl>, baselineRequests: seq<MetricsAndUrl>)
      requires |baselineRequests| == 0 || |baselineRequests| == |mainRequests|
      ensures Valid()
      ensures this.graphId == graphId && this.mainRequests == mainRequests && this.baselineRequests == baselineRequests
      ensures pendingMain == Range(|mainRequests|) && pendingBaseline == Range(|baselineRequests|)
      ensures receivedNormalResponses == 0 && receivedBaselineResponses == 0 && !errorResponse
      ensures mainJsons == [] && baselineJsons == [] && processed == [] && errorCalls == 0
    {
      this.graphId := graphId;
      this.mainRequests := mainRequests;
      this.baselineRequests := baselineRequests;
      expectedNormalResponses := |mainRequests|;
      expectedBaselineResponses := |baselineRequests|;
      pendingMain := Range(|mainRequests|);
      pendingBaseline := Range(|baselineRequests|);
      receivedNormalResponses := 0;
      receivedBaselineResponses := 0;
      errorResponse := false;
      mainJsons := [];
      baselineJsons := [];
      mainJson := None;
      baselineJson := None;
      processed := [];
      errorCalls := 0;
    }

    /** The success callback of main request `u`: ignored after an error; otherwise the
        response is kept and, when it is the last main one, the batch is merged and
        handed on if the baseline batch is complete too. */
    method MainSuccess(u: nat, json: seq<Series>)
      requires Valid() && u in pendingMain
      modifies this
      ensures Valid()
      ensures pendingMain == old(pendingMain) - {u} && pendingBaseline == old(pendingBaseline)
      ensures errorResponse == old(errorResponse) && errorCalls == old(errorCalls)
      ensures old(errorResponse) ==>
                mainJsons == old(mainJsons) && receivedNormalResponses == old(receivedNormalResponses)
      ensures !old(errorResponse) ==>
                mainJsons == old(mainJsons) + [Response(mainRequests[u].metrics, json)]
                && receivedNormalResponses == old(receivedNormalResponses) + 1
      ensures baselineJsons == old(baselineJsons) && receivedBaselineResponses == old(receivedBaselineResponses)
      ensures old(processed) != [] ==> processed == old(processed)
    {
      RemoveOne(pendingMain, u);
      pendingMain := pendingMain - {u};
      if errorResponse {
        return;
      }
      mainJsons := mainJsons + [Response(mainRequests[u].metrics, json)];
      receivedNormalResponses := receivedNormalResponses + 1;
      if expectedNormalResponses == receivedNormalResponses {
        mainJson := Some(Merge(mainJsons));
        if expectedBaselineResponses == receivedBaselineResponses {
          processed := processed + [Processed(mainJson, baselineJson)];
        }
      }
    }

    /** The success callback of baseline request `u`, the mirror image of `MainSuccess`. */
    method BaselineSuccess(u: nat, json: seq<Series>)
      requires Valid() && u in pendingBaseline
      modifies this
      ensures Valid()
      ensures pendingBaseline == old(pendingBaseline) - {u} && pendingMain == old(pendingMain)
      ensures errorResponse == old(errorResponse) && errorCalls == old(errorCalls)
      ensures old(errorResponse) ==>
                baselineJsons == old(baselineJsons) && receivedBaselineResponses == old(receivedBaselineResponses)
      ensures !old(errorResponse) ==>
                baselineJsons == old(baselineJsons) + [Response(baselineRequests[u].metrics, json)]
                && receivedBaselineResponses == old(receivedBaselineResponses) + 1
      ensures mainJsons == old(mainJsons) && receivedNormalResponses == old(receivedNormalResponses)
      ensures old(processed) != [] ==> processed == old(processed)
    {
      RemoveOne(pendingBaseline, u);
      pendingBaseline := pendingBaseline - {u};
      if errorResponse {
        return;
      }
      baselineJsons := baselineJsons + [Response(baselineRequests[u].metrics, json)];
      receivedBaselineResponses := receivedBaselineResponses + 1;
      if expectedBaselineResponses == receivedBaselineResponses {
        baselineJson := Some(Merge(baselineJsons));
        if expectedNormalResponses == receivedNormalResponses {
          processed := processed + [Processed(mainJson, baselineJson)];
        }
      }
    }

    /** While request `u` is pending, the run is not complete and nothing was processed. */
    lemma Unsettled(baseline: bool, u: nat)
      requires Valid() && (if baseline then u in pendingBaseline else u in pendingMain)
      ensures !Complete() && processed == []
    {
      if baseline {
        assert |pendingBaseline| > 0;
      } else {
        assert |pendingMain| > 0;
      }
    }

    /** The error callback of a main (`baseline` false) or baseline request `u`: the
        message is shown, the error flag set and `options.errorResponse` called, every
        time, whatever happened before. */
    method Failure(ctx: RenderContext, baseline: bool, u: nat, arg: string)
      requires Valid() && (if baseline then u in pendingBaseline else u in pendingMain)
      modifies this, ctx
      ensures Valid()
      ensures ctx.renderMessages == old(ctx.renderMessages)[graphId := "Error loading data: " + arg]
      ensures ctx.renderErrors == old(ctx.renderErrors) && ctx.renderWarnings == old(ctx.renderWarnings)
      ensures errorResponse && errorCalls == old(errorCalls) + 1
      ensures pendingMain == (if baseline then old(pendingMain) else old(pendingMain) - {u})
      ensures pendingBaseline == (if baseline then old(pendingBaseline) - {u} else old(pendingBaseline))
      ensures mainJsons == old(mainJsons) && baselineJsons == old(baselineJsons)
      ensures processed == old(processed) == []
    {
      Unsettled(baseline, u);
      ctx.RecordMessage(graphId, "Error loading data: " + arg);
      errorResponse := true;
      errorCalls := errorCalls + 1;
      if baseline {
        RemoveOne(pendingBaseline, u);
        pendingBaseline := pendingBaseline - {u};
      } else {
        RemoveOne(pendingMain, u);
        pendingMain := pendingMain - {u};
      }
    }
  }

  /** The outcome once every request has been answered: `processJson` was called once
      exactly when no request failed and there was at least one set, and then with the
      merged main series and, when baselining, the merged baseline series. */
  lemma Settled(q: QueryRun)
    requires q.Valid() && q.pendingMain == {} && q.pendingBaseline == {}
    ensures |q.processed| <= 1
    ensures |q.processed| == 1 <==> !q.errorResponse && q.expectedNormalResponses > 0
    ensures |q.processed| == 1 ==>
              q.processed[0].mainJson == Some(Merge(q.mainJsons))
              && q.processed[0].baselineJson == (if q.expectedBaselineResponses > 0 then Some(Merge(q.baselineJsons)) else None)
              && |q.mainJsons| == q.expectedNormalResponses && |q.baselineJsons| == q.expectedBaselineResponses
  {
  }

  /** While requests are outstanding or after an error, `processJson` has not been
      called, and after an error it never is. */
  lemma NotYetProcessed(q: QueryRun)
    requires q.Valid() && (q.errorResponse || q.pendingMain != {} || q.pendingBaseline != {})
    ensures q.processed == []
  {
  }

  // ---------------------------------------------------------------------------
  // Literal and concatenation facts the proofs above call

  lemma PairOfSets(p: seq<seq<Metric>>, x: seq<Metric>, y: seq<Metric>)
    requires |p| == 2 && p[0] == x && p[1] == y
    ensures p == [x, y]
  {
  }

  lemma SeparatedLiterals()
    ensures "&show_tsuids=true" == "&" + "show_tsuids=true"
    ensures "&no_annotations=true" == "&" + "no_annotations=true"
    ensures "&global_annotations=true" == "&" + "global_annotations=true"
    ensures "&ms=true" == "&" + "ms=true"
    ensures "&arrays=true" == "&" + "arrays=true"
    ensures "&show_query=true" == "&" + "show_query=true"
  {
    ShowTsuidsLiteral();
    NoAnnotationsLiteral();
    GlobalAnnotationsLiteral();
    MsLiteral();
    ArraysLiteral();
    ShowQueryLiteral();
  }

  /** `show_tsuids=true` contains no `&` and is introduced by one. */
  lemma ShowTsuidsLiteral()
    ensures "&show_tsuids=true" == "&" + "show_tsuids=true"
    ensures '&' !in "show_tsuids=true"
  {
  }

  /** `no_annotations=true` contains no `&` and is introduced by one. */
  lemma NoAnnotationsLiteral()
    ensures "&no_annotations=true" == "&" + "no_annotations=true"
    ensures '&' !in "no_annotations=true"
  {
  }

  /** `global_annotations=true` contains no `&` and is introduced by one. */
  lemma GlobalAnnotationsLiteral()
    ensures "&global_annotations=true" == "&" + "global_annotations=true"
    ensures '&' !in "global_annotations=true"
  {
  }

  /** `ms=true` contains no `&` and is introduced by one. */
  lemma MsLiteral()
    ensures "&ms=true" == "&" + "ms=true"
    ensures '&' !in "ms=true"
  {
  }

  /** `arrays=true` contains no `&` and is introduced by one. */
  lemma ArraysLiteral()
    ensures "&arrays=true" == "&" + "arrays=true"
    ensures '&' !in "arrays=true"
  {
  }

  /** `show_query=true` contains no `&` and is introduced by one. */
  lemma ShowQueryLiteral()
    ensures "&show_query=true" == "&" + "show_query=true"
    ensures '&' !in "show_query=true"
  {
  }

  lemma SuffixRegroup(x: string, y: string, m: string, w: string, z: string)
    ensures "&" + (x + y + m + w + z) == ("&" + x + y) + m + w + z
  {
  }
}
