/** The player dashboard's descriptive statistics (`calculateStats`) and the
    chart rows built from them. Values are a player's per-game counts, so
    they are natural numbers; the mean, the median and the outlier fences
    are exact reals. */
module DashboardPlayer {

  import opened Sorting

  /** One game of the player's season, reduced to the three counted fields. */
  datatype Game = Game(points: nat, rebounds: nat, assists: nat)

  /** The field name passed as `key`: "points", "rebounds" or "assists". */
  datatype Metric = Points | Rebounds | Assists

  /** `moda: { valor, frequencia }`; `valor` is the table key read back as
      the number it names. */
  datatype ModeEntry = ModeEntry(valor: nat, frequencia: nat)

  datatype StatSummary = StatSummary(
    media: real,
    mediana: real,
    moda: ModeEntry,
    min: nat,
    max: nat,
    q1: nat,
    q3: nat,
    outliers: seq<nat>)

  /** The summary returned for a player without games. */
  const EmptySummary := StatSummary(0.0, 0.0, ModeEntry(0, 0), 0, 0, 0, 0, [])

  function FieldOf(g: Game, m: Metric): (v: nat) {
    match m
    case Points => g.points
    case Rebounds => g.rebounds
    case Assists => g.assists
  }

  /** `games.map(game => game[key])` */
  function Project(games: seq<Game>, m: Metric): (vs: seq<nat>)
    ensures |vs| == |games|
    ensures forall i :: 0 <= i < |games| ==> vs[i] == FieldOf(games[i], m)
  {
    seq(|games|, i requires 0 <= i < |games| => FieldOf(games[i], m))
  }

  // ---------------------------------------------------------------------
  // Median

  /** The middle value, or the mean of the two middle values. On an
      ascending sequence it lies between the two middle values (which are
      one and the same when the length is odd). */
  function Median(v: seq<nat>): (r: real)
    requires |v| > 0
    ensures Sorted(v) ==> v[(|v| - 1) / 2] as real <= r <= v[|v| / 2] as real
  {
    var n := |v|;
    if n % 2 == 0 then (v[n / 2 - 1] + v[n / 2]) as real / 2.0 else v[n / 2] as real
  }

  /** The median of an ascending sequence splits it in halves: the first
      ceil(n/2) values lie at or below it, the last ceil(n/2) at or above. */
  lemma MedianSplitsHalves(v: seq<nat>)
    requires Sorted(v) && |v| > 0
    ensures forall i :: 0 <= i < (|v| + 1) / 2 ==> v[i] as real <= Median(v)
    ensures forall i :: |v| / 2 <= i < |v| ==> Median(v) <= v[i] as real
  {
    var n := |v|;
    if n % 2 == 0 {
      assert forall i :: 0 <= i < (n + 1) / 2 ==> v[i] <= v[n / 2 - 1] <= v[n / 2];
      assert forall i :: n / 2 <= i < n ==> v[n / 2 - 1] <= v[n / 2] <= v[i];
    } else {
      assert forall i :: 0 <= i < (n + 1) / 2 ==> v[i] <= v[n / 2];
    }
  }

  // ---------------------------------------------------------------------
  // Mode

  /** The frequency table `moda`: each value that occurs, with its number of
      occurrences. */
  function FrequencyTable(values: seq<nat>): (freq: map<nat, nat>)
    ensures forall v :: v in freq <==> v in values
  {
    map v | v in values :: multiset(values)[v]
  }

  /** The `reduce` that fills the frequency table (`acc[val] = (acc[val] || 0) + 1`),
      one value at a time, updating the table in place. */
  method Tally(values: seq<nat>) returns (freq: map<nat, nat>)
    ensures freq == FrequencyTable(values)
  {
    freq := map[];
    var i := 0;
    while i < |values|
      invariant 0 <= i <= |values|
      invariant freq == FrequencyTable(values[..i])
    {
      var v := values[i];
      assert values[..i + 1] == values[..i] + [v];
      FrequencyTableSnoc(values[..i], v);
      freq := freq[v := (if v in freq then freq[v] else 0) + 1];
      i := i + 1;
    }
    assert values[..i] == values;
  }

  /** Counting one more value bumps its entry, starting from 0. */
  lemma FrequencyTableSnoc(s: seq<nat>, v: nat)
    ensures var t := FrequencyTable(s);
      FrequencyTable(s + [v]) == t[v := (if v in t then t[v] else 0) + 1]
  {
    var t, t' := FrequencyTable(s), FrequencyTable(s + [v]);
    var u := t[v := (if v in t then t[v] else 0) + 1];
    assert multiset(s + [v]) == multiset(s) + multiset{v};
    forall w
      ensures w in t' <==> w in u
      ensures w in t' ==> t'[w] == u[w]
    {
      assert w in s + [v] <==> w in s || w == v;
    }
  }

  predicate StrictlyAscending(s: seq<nat>) {
    forall i, j :: 0 <= i < j < |s| ==> s[i] < s[j]
  }

  /** The keys of the frequency table in the order `Object.keys` lists them:
      non-negative integer keys come in ascending numeric order, each once.
      They are the distinct values of the sorted sequence. */
  function DistinctKeys(sorted: seq<nat>): (keys: seq<nat>)
    requires Sorted(sorted)
    ensures StrictlyAscending(keys)
    ensures forall v :: v in keys <==> v in sorted
  {
    if |sorted| <= 1 then sorted
    else if sorted[0] == sorted[1] then DistinctKeys(sorted[1..])
    else
      var rest := DistinctKeys(sorted[1..]);
      assert forall k :: 0 <= k < |rest| ==> sorted[0] < rest[k] by {
        forall k | 0 <= k < |rest| ensures sorted[0] < rest[k] {
          assert rest[k] in sorted[1..];
        }
      }
      [sorted[0]] + rest
  }

  /** `Object.keys(moda).reduce((a, b) => moda[a] > moda[b] ? a : b, acc)`.
      The starting accumulator 0 may name no key; reading it then gives
      `undefined`, and `undefined > n` is false. */
  function PickMode(freq: map<nat, nat>, keys: seq<nat>, acc: nat): (r: nat)
    ensures r == acc || r in keys
    decreases |keys|
  {
    if keys == [] then acc
    else
      var b := keys[0];
      var next := if acc in freq && b in freq && freq[acc] > freq[b] then acc else b;
      PickMode(freq, keys[1..], next)
  }

  /** `r` occurs at least as often as `k`, and on a tie is not smaller. */
  predicate AtLeastAsGood(freq: map<nat, nat>, r: nat, k: nat)
    requires r in freq && k in freq
  {
    freq[k] < freq[r] || (freq[k] == freq[r] && k <= r)
  }

  /** The fold keeps the most frequent key, and among keys tied for the
      highest count the last one it meets, which is the largest. */
  lemma {:induction false} PickModeIsBest(freq: map<nat, nat>, keys: seq<nat>, acc: nat)
    requires Sorted(keys)
    requires forall i :: 0 <= i < |keys| ==> keys[i] in freq
    requires acc in freq ==> forall i :: 0 <= i < |keys| ==> acc <= keys[i]
    requires keys != [] || acc in freq
    ensures PickMode(freq, keys, acc) in freq
    ensures PickMode(freq, keys, acc) == acc || PickMode(freq, keys, acc) in keys
    ensures forall i :: 0 <= i < |keys| ==> AtLeastAsGood(freq, PickMode(freq, keys, acc), keys[i])
    ensures acc in freq ==> AtLeastAsGood(freq, PickMode(freq, keys, acc), acc)
    decreases |keys|
  {
    if keys == [] {
      return;
    }
    var b := keys[0];
    var next := if acc in freq && b in freq && freq[acc] > freq[b] then acc else b;
    var r := PickMode(freq, keys, acc);
    assert r == PickMode(freq, keys[1..], next);
    if |keys| == 1 {
      assert r == next;
    } else {
      PickModeIsBest(freq, keys[1..], next);
      assert AtLeastAsGood(freq, r, next);
      forall i | 0 <= i < |keys|
        ensures AtLeastAsGood(freq, r, keys[i])
      {
        if i > 0 {
          assert keys[i] == keys[1..][i - 1];
        }
      }
    }
  }

  /** `moda: { valor: modaValor, frequencia: moda[modaValor] || 0 }` over
      the sorted values. */
  function Mode(sorted: seq<nat>): (e: ModeEntry)
    requires Sorted(sorted)
    ensures e.frequencia == multiset(sorted)[e.valor]
    ensures sorted == [] ==> e == ModeEntry(0, 0)
  {
    var freq := FrequencyTable(sorted);
    var v := PickMode(freq, DistinctKeys(sorted), 0);
    ModeEntry(v, if v in freq then freq[v] else 0)
  }

  /** For a non-empty sorted sequence the mode is a value that occurs, its
      frequency is its number of occurrences, no value occurs more often,
      and every value that occurs as often is not larger. */
  lemma ModeIsLargestMostFrequent(sorted: seq<nat>)
    requires Sorted(sorted) && |sorted| > 0
    ensures Mode(sorted).valor in sorted
    ensures Mode(sorted).frequencia == multiset(sorted)[Mode(sorted).valor] >= 1
    ensures forall w :: multiset(sorted)[w] <= Mode(sorted).frequencia
    ensures forall w :: multiset(sorted)[w] == Mode(sorted).frequencia ==> w <= Mode(sorted).valor
  {
    var freq := FrequencyTable(sorted);
    var keys := DistinctKeys(sorted);
    assert sorted[0] in keys;
    PickModeIsBest(freq, keys, 0);
    var r := PickMode(freq, keys, 0);
    assert r in sorted;
    forall w | w in sorted
      ensures multiset(sorted)[w] <= freq[r]
      ensures multiset(sorted)[w] == freq[r] ==> w <= r
    {
      var i :| 0 <= i < |keys| && keys[i] == w;
      assert AtLeastAsGood(freq, r, keys[i]);
    }
  }

  // ---------------------------------------------------------------------
  // Outliers

  /** Outside the fences `q1 - 1.5 * IQR` and `q3 + 1.5 * IQR`. */
  predicate IsOutlier(x: nat, q1: nat, q3: nat): (b: bool)
    ensures b <==> 2 * x < 2 * q1 - 3 * (q3 - q1) || 2 * x > 2 * q3 + 3 * (q3 - q1)
  {
    var iqr := q3 as real - q1 as real;
    x as real < q1 as real - 1.5 * iqr || x as real > q3 as real + 1.5 * iqr
  }

  /** `values.filter(v => v < q1 - 1.5 * (q3 - q1) || v > q3 + 1.5 * (q3 - q1))` */
  function Outliers(v: seq<nat>, q1: nat, q3: nat): (r: seq<nat>)
    ensures forall i :: 0 <= i < |r| ==> r[i] in v && IsOutlier(r[i], q1, q3)
    ensures Sorted(v) ==> Sorted(r)
  {
    if v == [] then []
    else
      var rest := Outliers(v[1..], q1, q3);
      if IsOutlier(v[0], q1, q3) then
        assert Sorted(v) ==> Sorted([v[0]] + rest) by {
          if Sorted(v) {
            forall k | 0 <= k < |rest| ensures v[0] <= rest[k] {
              var j :| 0 <= j < |v[1..]| && v[1..][j] == rest[k];
              assert v[0] <= v[j + 1];
            }
            ConsSorted(v[0], rest);
          }
        }
        [v[0]] + rest
      else rest
  }

  /** The filter keeps every outlier as often as it occurs and drops every
      other value. */
  lemma {:induction false} OutliersCount(v: seq<nat>, q1: nat, q3: nat)
    ensures forall x :: multiset(Outliers(v, q1, q3))[x] == if IsOutlier(x, q1, q3) then multiset(v)[x] else 0
  {
    if v != [] {
      OutliersCount(v[1..], q1, q3);
      assert v == [v[0]] + v[1..];
    }
  }

  /** With `q1 <= q3` the fences lie outside `[q1, q3]`. */
  lemma OutlierOutsideQuartiles(x: nat, q1: nat, q3: nat)
    requires q1 <= q3 && IsOutlier(x, q1, q3)
    ensures x < q1 || q3 < x
  {
  }

  // ---------------------------------------------------------------------
  // calculateStats

  /** The whole summary of one metric's values, as `calculateStats` returns
      it: everything after the empty-input sentinel is read off the sorted
      values. */
  function Summarize(xs: seq<nat>): (s: StatSummary)
    ensures |xs| == 0 ==> s == EmptySummary
    ensures s.moda.frequencia == 0 <==> |xs| == 0
  {
    if |xs| == 0 then EmptySummary
    else
      ModeIsLargestMostFrequent(SortAscending(xs));
      SummaryOfSorted(SortAscending(xs))
  }

  /** The statistics of a non-empty ascending sequence `v`. */
  function SummaryOfSorted(v: seq<nat>): (s: StatSummary)
    requires Sorted(v) && |v| > 0
    ensures s.min <= s.q1 <= s.q3 <= s.max
  {
    var n := |v|;
    QuartileIndices(n);
    var q1 := v[n / 4];
    var q3 := v[3 * n / 4];
    assert v[0] <= q1 <= q3 <= v[n - 1];
    StatSummary(Sum(v) as real / n as real, Median(v), Mode(v), v[0], v[n - 1], q1, q3, Outliers(v, q1, q3))
  }

  /** `calculateStats(games, key)`: the frequency table is filled by the
      `Tally` loop; the result is the summary of the projected values. */
  method CalculateStats(games: seq<Game>, metric: Metric) returns (s: StatSummary)
    ensures s == Summarize(Project(games, metric))
    ensures |games| == 0 ==> s == EmptySummary
  {
    if |games| == 0 {
      return EmptySummary;
    }
    var xs := Project(games, metric);
    var values := SortAscending(xs);
    var n := |values|;
    var media := Sum(values) as real / n as real;
    var mediana := Median(values);
    var moda := Tally(values);
    var modaValor := PickMode(moda, DistinctKeys(values), 0);
    QuartileIndices(n);
    var q1 := values[n / 4];
    var q3 := values[3 * n / 4];
    var outliers := Outliers(values, q1, q3);
    var modaEntry := ModeEntry(modaValor, if modaValor in moda then moda[modaValor] else 0);
    s := StatSummary(media, mediana, modaEntry, values[0], values[n - 1], q1, q3, outliers);
    assert s == SummaryOfSorted(values) by {
      assert modaEntry == Mode(values);
    }
    assert Summarize(xs) == SummaryOfSorted(values);
  }

  /** The summary depends only on which values occur how often, not on the
      order of the games. */
  lemma SummaryPermutationInvariant(xs: seq<nat>, ys: seq<nat>)
    requires multiset(xs) == multiset(ys)
    ensures Summarize(xs) == Summarize(ys)
  {
    assert |xs| == |multiset(xs)| == |multiset(ys)| == |ys|;
    SortPermutationInvariant(xs, ys);
  }

  /** `media` is the sum of the input over its length. */
  lemma SummaryMean(xs: seq<nat>)
    requires |xs| > 0
    ensures Summarize(xs).media == Sum(xs) as real / |xs| as real
  {
    SumSortAscending(xs);
  }

  /** The median splits the sorted input in halves. */
  lemma SummaryMedian(xs: seq<nat>)
    requires |xs| > 0
    ensures forall i :: 0 <= i < (|xs| + 1) / 2 ==> SortAscending(xs)[i] as real <= Summarize(xs).mediana
    ensures forall i :: |xs| / 2 <= i < |xs| ==> Summarize(xs).mediana <= SortAscending(xs)[i] as real
  {
    MedianSplitsHalves(SortAscending(xs));
  }

  /** The mode of the input: occurs, is counted exactly, is the most
      frequent, and is the largest of the values tied for most frequent. */
  lemma SummaryMode(xs: seq<nat>)
    requires |xs| > 0
    ensures Summarize(xs).moda.valor in xs
    ensures Summarize(xs).moda.frequencia == multiset(xs)[Summarize(xs).moda.valor] >= 1
    ensures forall w :: multiset(xs)[w] <= Summarize(xs).moda.frequencia
    ensures forall w :: multiset(xs)[w] == Summarize(xs).moda.frequencia ==> w <= Summarize(xs).moda.valor
  {
    var v := SortAscending(xs);
    ModeIsLargestMostFrequent(v);
    assert Summarize(xs).moda.valor in multiset(v);
  }

  /** The five box-plot statistics come in the order the chart draws them,
      `min` and `max` are the extremes of the input and the quartiles are
      input values; both quartile indices are in range for every n >= 1. */
  lemma SummaryFiveNumbers(xs: seq<nat>)
    requires |xs| > 0
    ensures var s := Summarize(xs);
      s.min <= s.q1 && s.q1 as real <= s.mediana <= s.q3 as real && s.q3 <= s.max
    ensures var s := Summarize(xs);
      s.min in xs && s.max in xs && s.q1 in xs && s.q3 in xs
    ensures forall i :: 0 <= i < |xs| ==> Summarize(xs).min <= xs[i] <= Summarize(xs).max
  {
    SummaryInOrder(xs);
    SummaryFromInput(xs);
    SummaryExtremes(xs);
  }

  lemma SummaryInOrder(xs: seq<nat>)
    requires |xs| > 0
    ensures var s := Summarize(xs);
      s.min <= s.q1 && s.q1 as real <= s.mediana <= s.q3 as real && s.q3 <= s.max
  {
    var v := SortAscending(xs);
    SummaryFields(v);
    QuartileIndices(|v|);
    MedianSplitsHalves(v);
    SortedExtremes(v);
  }

  lemma SummaryFromInput(xs: seq<nat>)
    requires |xs| > 0
    ensures var s := Summarize(xs);
      s.min in xs && s.max in xs && s.q1 in xs && s.q3 in xs
  {
    var v := SortAscending(xs);
    var n := |v|;
    SummaryFields(v);
    QuartileIndices(n);
    assert v[0] in multiset(xs) && v[n - 1] in multiset(xs);
    assert v[n / 4] in multiset(xs) && v[3 * n / 4] in multiset(xs);
  }

  lemma SummaryExtremes(xs: seq<nat>)
    requires |xs| > 0
    ensures forall i :: 0 <= i < |xs| ==> Summarize(xs).min <= xs[i] <= Summarize(xs).max
  {
    var v := SortAscending(xs);
    SummaryFields(v);
    PermutationWithinExtremes(xs, v);
  }

  /** Every input value lies between the ends of its ascending permutation. */
  lemma PermutationWithinExtremes(xs: seq<nat>, v: seq<nat>)
    requires Sorted(v) && |v| > 0 && multiset(v) == multiset(xs)
    ensures forall i :: 0 <= i < |xs| ==> v[0] <= xs[i] <= v[|v| - 1]
  {
    SortedExtremes(v);
    forall i | 0 <= i < |xs|
      ensures v[0] <= xs[i] <= v[|v| - 1]
    {
      assert xs[i] in multiset(v);
    }
  }

  /** Nearest-rank indices: `floor(n/4)` and `floor(3n/4)` are in range, and
      they fall in the lower and the upper half. */
  lemma QuartileIndices(n: nat)
    requires n > 0
    ensures 0 <= n / 4 < (n + 1) / 2
    ensures n / 2 <= 3 * n / 4 < n
  {
  }

  lemma SortedExtremes(v: seq<nat>)
    requires Sorted(v) && |v| > 0
    ensures forall i :: 0 <= i < |v| ==> v[0] <= v[i] <= v[|v| - 1]
  {
  }

  /** `outliers` holds exactly the input values outside the fences, each as
      often as it occurs, in ascending order, and none of them lies between
      `q1` and `q3`. */
  lemma SummaryOutliers(xs: seq<nat>)
    requires |xs| > 0
    ensures var s := Summarize(xs);
      forall x :: multiset(s.outliers)[x] == if IsOutlier(x, s.q1, s.q3) then multiset(xs)[x] else 0
    ensures Sorted(Summarize(xs).outliers)
    ensures var s := Summarize(xs);
      forall i :: 0 <= i < |s.outliers| ==> s.outliers[i] < s.q1 || s.q3 < s.outliers[i]
  {
    var s := Summarize(xs);
    var v := SortAscending(xs);
    SummaryFiveNumbers(xs);
    OutliersCount(v, s.q1, s.q3);
    forall i | 0 <= i < |s.outliers|
      ensures s.outliers[i] < s.q1 || s.q3 < s.outliers[i]
    {
      OutlierOutsideQuartiles(s.outliers[i], s.q1, s.q3);
    }
  }

  /** The mode tie-break on the values 1, 1, 2, 2 in any order: both values
      occur twice and the larger one, 2, is reported. */
  lemma ModeTieBreakExample(xs: seq<nat>)
    requires multiset(xs) == multiset{1, 1, 2, 2}
    ensures Summarize(xs).moda == ModeEntry(2, 2)
  {
    OneOneTwoTwo(xs);
    var m := Summarize(xs).moda;
    assert m.valor in multiset(xs) && m.frequencia == multiset(xs)[m.valor] by {
      SummaryMode(xs);
    }
    OneOrTwo(xs, m.valor);
    assert m.frequencia == 2;
    assert m.valor == 2 by {
      SummaryMode(xs);
      assert multiset(xs)[2] == m.frequencia;
    }
  }

  lemma OneOneTwoTwo(xs: seq<nat>)
    requires multiset(xs) == multiset{1, 1, 2, 2}
    ensures |xs| == 4 && multiset(xs)[1] == 2 && multiset(xs)[2] == 2
  {
    assert |multiset(xs)| == 4;
  }

  lemma OneOrTwo(xs: seq<nat>, v: nat)
    requires multiset(xs) == multiset{1, 1, 2, 2} && v in multiset(xs)
    ensures v == 1 || v == 2
  {
    var ms: multiset<nat> := multiset{1, 1, 2, 2};
    assert forall w :: w != 1 && w != 2 ==> ms[w] == 0;
  }

  /** The spread of `[1, 2, 2, 3, 100]`: quartiles 2 and 3, fences 0.5 and
      4.5, so 100 is the only outlier (1 lies inside the lower fence). */
  lemma OutliersExample(xs: seq<nat>)
    requires xs == [1, 2, 2, 3, 100]
    ensures Summarize(xs).outliers == [100]
  {
    var n := |xs|;
    assert n / 4 == 1 && 3 * n / 4 == 3;
    assert Sorted(xs);
    assert xs[n / 4] == 2 && xs[3 * n / 4] == 3;
    SummaryFields(xs);
    FencesExample(xs);
  }

  lemma FencesExample(v: seq<nat>)
    requires v == [1, 2, 2, 3, 100]
    ensures Outliers(v, 2, 3) == [100]
  {
    assert IsOutlier(100, 2, 3) && !IsOutlier(3, 2, 3) && !IsOutlier(2, 2, 3) && !IsOutlier(1, 2, 3);
    assert Outliers(v[4..], 2, 3) == [100];
    assert Outliers(v[3..], 2, 3) == [100];
    assert Outliers(v[2..], 2, 3) == [100];
    assert Outliers(v[1..], 2, 3) == [100];
  }

  /** The fields of the summary of an ascending sequence. */
  lemma SummaryFields(v: seq<nat>)
    requires Sorted(v) && |v| > 0
    ensures Summarize(v) == SummaryOfSorted(v)
    ensures SummaryOfSorted(v).min == v[0] && SummaryOfSorted(v).max == v[|v| - 1]
    ensures SummaryOfSorted(v).mediana == Median(v)
    ensures SummaryOfSorted(v).q1 == v[|v| / 4] && SummaryOfSorted(v).q3 == v[3 * |v| / 4]
    ensures SummaryOfSorted(v).outliers == Outliers(v, v[|v| / 4], v[3 * |v| / 4])
  {
    SortedUnique(SortAscending(v), v);
  }

  // ---------------------------------------------------------------------
  // Chart rows

  /** One bar of the mean / median / mode comparison chart. */
  datatype ChartBar = ChartBar(categoria: string, valor: real)

  /** `createChartData(stat)` */
  function ChartData(s: StatSummary): (bars: seq<ChartBar>)
    ensures |bars| == 3
    ensures bars[0].categoria == "Média" && bars[1].categoria == "Mediana" && bars[2].categoria == "Moda"
    ensures bars[0].valor == s.media && bars[1].valor == s.mediana && bars[2].valor == s.moda.valor as real
  {
    [ChartBar("Média", s.media), ChartBar("Mediana", s.mediana), ChartBar("Moda", s.moda.valor as real)]
  }

  /** Every bar of the comparison chart of a non-empty input lies between
      the smallest and the largest value. */
  lemma ChartBarsWithinRange(xs: seq<nat>)
    requires |xs| > 0
    ensures var s := Summarize(xs); var bars := ChartData(s);
      s.min as real <= bars[0].valor <= s.max as real &&
      s.min as real <= bars[1].valor <= s.max as real &&
      s.min as real <= bars[2].valor <= s.max as real
  {
    MeanWithinRange(xs);
    ModeWithinRange(xs);
    MedianWithinRange(xs);
  }

  lemma MeanWithinRange(xs: seq<nat>)
    requires |xs| > 0
    ensures Summarize(xs).min as real <= Summarize(xs).media <= Summarize(xs).max as real
  {
    var v := SortAscending(xs);
    var n := |v|;
    assert Summarize(xs) == SummaryOfSorted(v);
    SortedExtremes(v);
    SumBounds(v, v[0], v[n - 1]);
    MeanBetween(Sum(v), n, v[0], v[n - 1]);
  }

  lemma MedianWithinRange(xs: seq<nat>)
    requires |xs| > 0
    ensures Summarize(xs).min as real <= Summarize(xs).mediana <= Summarize(xs).max as real
  {
    SummaryFiveNumbers(xs);
  }

  lemma ModeWithinRange(xs: seq<nat>)
    requires |xs| > 0
    ensures Summarize(xs).min <= Summarize(xs).moda.valor <= Summarize(xs).max
  {
    SummaryFiveNumbers(xs);
    SummaryMode(xs);
    var m := Summarize(xs).moda.valor;
    var i :| 0 <= i < |xs| && xs[i] == m;
  }

  /** A total between `n * lo` and `n * hi` has its mean between `lo` and `hi`. */
  lemma MeanBetween(total: nat, n: nat, lo: nat, hi: nat)
    requires n > 0 && n * lo <= total <= n * hi
    ensures lo as real <= total as real / n as real <= hi as real
  {
    assert (n * lo) as real == n as real * lo as real;
    assert (n * hi) as real == n as real * hi as real;
  }

  /** One box of the box plot. */
  datatype BoxRow = BoxRow(categoria: string, min: nat, q1: nat, median: real, q3: nat, max: nat, outliers: seq<nat>)

  predicate Ordered(b: BoxRow) {
    b.min <= b.q1 && b.q1 as real <= b.median <= b.q3 as real && b.q3 <= b.max
  }

  function BoxOf(categoria: string, s: StatSummary): BoxRow {
    BoxRow(categoria, s.min, s.q1, s.mediana, s.q3, s.max, s.outliers)
  }

  /** What the chart needs of the box of one metric: with games it is in
      drawing order and its outliers ascend; without games it is flat at 0. */
  predicate DrawnBox(b: BoxRow, categoria: string, games: seq<Game>) {
    b.categoria == categoria &&
    (|games| > 0 ==> Ordered(b) && Sorted(b.outliers)) &&
    (|games| == 0 ==> b == BoxRow(categoria, 0, 0, 0.0, 0, 0, []))
  }

  /** The box of one metric, drawn from the summary of its values. */
  function MetricBox(categoria: string, games: seq<Game>, m: Metric): (b: BoxRow)
    ensures b == BoxOf(categoria, Summarize(Project(games, m)))
    ensures DrawnBox(b, categoria, games)
  {
    var xs := Project(games, m);
    if |games| > 0 then
      SummaryFiveNumbers(xs);
      SummaryOutliers(xs);
      BoxOf(categoria, Summarize(xs))
    else
      BoxOf(categoria, Summarize(xs))
  }

  /** `boxPlotData`: one box per metric, in the order points, rebounds,
      assists, each the box of that metric's summary. */
  function BoxPlotData(games: seq<Game>): (rows: seq<BoxRow>)
    ensures |rows| == 3
    ensures rows[0] == MetricBox("Pontos", games, Points)
    ensures rows[1] == MetricBox("Rebotes", games, Rebounds)
    ensures rows[2] == MetricBox("Assistências", games, Assists)
  {
    [MetricBox("Pontos", games, Points), MetricBox("Rebotes", games, Rebounds), MetricBox("Assistências", games, Assists)]
  }

  /** Every box of the plot is drawable: labelled with its metric, in
      drawing order with ascending outliers when there are games, flat at 0
      otherwise. */
  lemma BoxPlotDrawn(games: seq<Game>)
    ensures var rows := BoxPlotData(games);
      DrawnBox(rows[0], "Pontos", games) &&
      DrawnBox(rows[1], "Rebotes", games) &&
      DrawnBox(rows[2], "Assistências", games)
  {
  }
}
