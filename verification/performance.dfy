/**
 * Web-vitals binning (`getPerformanceBins`, `pushToBins`): the samples are
 * sorted by value in place, grouped by vital name into an insertion-ordered
 * dictionary, and each group's values are counted into fixed-width bins from
 * 0 up to a ceiling. Values are integers.
 */
module Performance {
  import opened Wrappers

  /** One performance sample: a vital's name and its measured value. */
  datatype Perf = Perf(name: string, value: int)

  /** One histogram bin: its lower edge and the number of values in it. */
  datatype Bin = Bin(bin: int, count: nat)

  /** Width of a bin when the vital has no configured interval. */
  const DefaultInterval: int := 100

  /** Ceiling of the histogram when the vital has no configured maximum. */
  const DefaultMaxValue: int := 100

  // ---------------------------------------------------------------------------
  // Sorting

  /** Ascending by value. */
  predicate SortedByValue(s: seq<Perf>) {
    forall i, j :: 0 <= i < j < |s| ==> s[i].value <= s[j].value
  }

  /** Exchanges two elements of the array. */
  method Swap(a: array<Perf>, i: nat, j: nat)
    requires i < a.Length && j < a.Length
    modifies a
    ensures a[..] == old(a[..])[i := old(a[j])][j := old(a[i])]
    ensures multiset(a[..]) == multiset(old(a[..]))
  {
    a[i], a[j] := a[j], a[i];
  }

  /** `perfs.sort((a, b) => a.value - b.value)`: ascending by value, in place (insertion sort). */
  method SortByValue(a: array<Perf>)
    modifies a
    ensures SortedByValue(a[..])
    ensures multiset(a[..]) == multiset(old(a[..]))
  {
    for i := 0 to a.Length
      invariant forall m, n :: 0 <= m < n < i ==> a[m].value <= a[n].value
      invariant multiset(a[..]) == multiset(old(a[..]))
    {
      var j := i;
      while j > 0 && a[j - 1].value > a[j].value
        invariant 0 <= j <= i
        invariant forall m, n :: 0 <= m < n <= i && n != j ==> a[m].value <= a[n].value
        invariant forall m, n :: 0 <= m < j < n <= i ==> a[m].value <= a[n].value
        invariant multiset(a[..]) == multiset(old(a[..]))
      {
        Swap(a, j - 1, j);
        j := j - 1;
      }
    }
  }

  // ---------------------------------------------------------------------------
  // Grouping

  /** An insertion-ordered dictionary from vital name to its values, as `Object.entries` lists it. */
  type Groups = seq<(string, seq<int>)>

  /** The position of name `n` in the dictionary, if it has an entry. */
  function IndexOfName(g: Groups, n: string): (r: Option<nat>)
    ensures r.Some? ==> r.value < |g| && g[r.value].0 == n
    ensures r.None? <==> forall k :: 0 <= k < |g| ==> g[k].0 != n
  {
    if g == [] then None
    else if g[0].0 == n then Some(0)
    else match IndexOfName(g[1..], n)
      case None => None
      case Some(k) => Some(k + 1)
  }

  /** The reducer: `acc[val.name] = acc[val.name] || []; acc[val.name].push(val.value)`. */
  function Add(g: Groups, p: Perf): (r: Groups)
    ensures |g| <= |r| <= |g| + 1
    ensures forall k :: 0 <= k < |g| ==> r[k].0 == g[k].0
    ensures forall k :: 0 <= k < |g| && g[k].0 != p.name ==> r[k] == g[k]
    ensures IndexOfName(r, p.name).Some?
    ensures TotalSize(r) == TotalSize(g) + 1
    ensures DistinctNames(g) ==> DistinctNames(r)
  {
    match IndexOfName(g, p.name)
    case Some(k) =>
      TotalSizeUpdate(g, k, (p.name, g[k].1 + [p.value]));
      g[k := (p.name, g[k].1 + [p.value])]
    case None =>
      TotalSizeAppend(g, (p.name, [p.value]));
      g + [(p.name, [p.value])]
  }

  /** The dictionary the reducer builds from `s`, starting from `{}`. */
  function Grouped(s: seq<Perf>): (g: Groups)
    ensures DistinctNames(g) && |g| <= |s|
    ensures TotalSize(g) == |s|
  {
    if s == [] then [] else Add(Grouped(s[..|s| - 1]), s[|s| - 1])
  }

  /** The values of the samples named `n`, in the order of `s`. */
  function ValuesOf(s: seq<Perf>, n: string): seq<int> {
    if s == [] then []
    else ValuesOf(s[..|s| - 1], n) + (if s[|s| - 1].name == n then [s[|s| - 1].value] else [])
  }

  /** No name has two entries. */
  predicate DistinctNames(g: Groups) {
    forall k, l :: 0 <= k < l < |g| ==> g[k].0 != g[l].0
  }

  /** Total number of values in the dictionary. */
  function TotalSize(g: Groups): nat {
    if g == [] then 0 else TotalSize(g[..|g| - 1]) + |g[|g| - 1].1|
  }

  /**
   * No sample's name is one of `inherited`: the properties every plain object
   * `{}` inherits from `Object.prototype` (`constructor`, `__proto__`,
   * `hasOwnProperty`, `toString`, `valueOf`, …). Reading one of them from the
   * reducer's accumulator gives a truthy value that is not an array, so the
   * `push` after it throws.
   */
  predicate OwnNames(s: seq<Perf>, inherited: set<string>) {
    forall i :: 0 <= i < |s| ==> s[i].name !in inherited
  }

  /**
   * The grouping loop of `getPerformanceBins`, one sample at a time. It throws
   * (`None`) at the first sample whose name the accumulator inherits.
   */
  method GroupByName(s: seq<Perf>, inherited: set<string>) returns (groups: Option<Groups>)
    ensures groups.Some? <==> OwnNames(s, inherited)
    ensures groups.Some? ==> groups.value == Grouped(s)
  {
    var g := [];
    for i := 0 to |s|
      invariant g == Grouped(s[..i])
      invariant OwnNames(s[..i], inherited)
    {
      if s[i].name in inherited {
        InheritedNameAt(s, i, inherited);
        return None;
      }
      GroupStep(s, i, inherited);
      g := Add(g, s[i]);
    }
    assert s[..|s|] == s;
    groups := Some(g);
  }

  /** One more sample of the prefix: the reducer adds it, and its name is own. */
  lemma GroupStep(s: seq<Perf>, i: nat, inherited: set<string>)
    requires i < |s| && OwnNames(s[..i], inherited) && s[i].name !in inherited
    ensures Grouped(s[..i + 1]) == Add(Grouped(s[..i]), s[i])
    ensures OwnNames(s[..i + 1], inherited)
  {
    var p := s[..i + 1];
    assert p[..|p| - 1] == s[..i];
    assert p[|p| - 1] == s[i];
    forall j | 0 <= j < |p| ensures p[j].name !in inherited {
      if j < i {
        assert p[j] == s[..i][j];
      }
    }
  }

  /** One sample with an inherited name is enough to fail. */
  lemma InheritedNameAt(s: seq<Perf>, i: nat, inherited: set<string>)
    requires i < |s| && s[i].name in inherited
    ensures !OwnNames(s, inherited)
  {
  }

  /** One direction of `OwnNamesPermutation`. */
  lemma OwnNamesMultiset(s: seq<Perf>, t: seq<Perf>, inherited: set<string>)
    requires multiset(s) == multiset(t) && OwnNames(s, inherited)
    ensures OwnNames(t, inherited)
  {
    forall j | 0 <= j < |t| ensures t[j].name !in inherited {
      assert t[j] in multiset(t);
      var i :| 0 <= i < |s| && s[i] == t[j];
    }
  }

  /** Reordering the samples neither adds nor removes an inherited name. */
  lemma OwnNamesPermutation(s: seq<Perf>, t: seq<Perf>, inherited: set<string>)
    requires multiset(s) == multiset(t)
    ensures OwnNames(s, inherited) <==> OwnNames(t, inherited)
  {
    if OwnNames(s, inherited) { OwnNamesMultiset(s, t, inherited); }
    if OwnNames(t, inherited) { OwnNamesMultiset(t, s, inherited); }
  }

  /**
   * `g` is the grouping of `s`: names are not repeated, a name has an entry
   * exactly when some sample has it, and each entry lists that name's values
   * in input order.
   */
  ghost predicate GroupsOf(g: Groups, s: seq<Perf>) {
    && DistinctNames(g)
    && (forall k :: 0 <= k < |g| ==> g[k].1 == ValuesOf(s, g[k].0))
    && (forall n :: IndexOfName(g, n).None? <==> ValuesOf(s, n) == [])
  }

  /** A sample whose name already has an entry is pushed onto that entry. */
  lemma AddToEntry(g: Groups, s: seq<Perf>, p: Perf, k: nat)
    requires GroupsOf(g, s) && IndexOfName(g, p.name) == Some(k)
    ensures GroupsOf(Add(g, p), s + [p])
  {
    var g', s' := Add(g, p), s + [p];
    assert s'[..|s'| - 1] == s;
    forall l | 0 <= l < |g'| ensures g'[l].1 == ValuesOf(s', g'[l].0) {
      if l != k {
        assert g[l].0 != p.name;
      }
    }
    forall n ensures IndexOfName(g', n).None? <==> ValuesOf(s', n) == [] {
      assert forall l :: 0 <= l < |g'| ==> g'[l].0 == g[l].0;
      if n == p.name {
        assert g'[k].0 == n;
      }
    }
  }

  /** A sample whose name has no entry yet starts a new entry at the end. */
  lemma AddNewEntry(g: Groups, s: seq<Perf>, p: Perf)
    requires GroupsOf(g, s) && IndexOfName(g, p.name).None?
    ensures GroupsOf(Add(g, p), s + [p])
  {
    var g', s' := Add(g, p), s + [p];
    assert s'[..|s'| - 1] == s;
    forall l | 0 <= l < |g'| ensures g'[l].1 == ValuesOf(s', g'[l].0) {
      if l < |g| {
        assert g[l].0 != p.name;
      }
    }
    forall n ensures IndexOfName(g', n).None? <==> ValuesOf(s', n) == [] {
      assert forall l :: 0 <= l < |g| ==> g'[l] == g[l];
      if n == p.name {
        assert g'[|g|].0 == n;
      }
    }
  }

  /** The reducer builds the grouping of its input: every sample lands in the list of its own name and nowhere else. */
  lemma {:induction false} GroupedByName(s: seq<Perf>)
    ensures GroupsOf(Grouped(s), s)
    decreases |s|
  {
    if s != [] {
      var prefix, p := s[..|s| - 1], s[|s| - 1];
      GroupedByName(prefix);
      assert prefix + [p] == s;
      match IndexOfName(Grouped(prefix), p.name)
      case Some(k) => AddToEntry(Grouped(prefix), prefix, p, k);
      case None => AddNewEntry(Grouped(prefix), prefix, p);
    }
  }

  /** Appending an entry adds its size. */
  lemma TotalSizeAppend(g: Groups, e: (string, seq<int>))
    ensures TotalSize(g + [e]) == TotalSize(g) + |e.1|
  {
    assert (g + [e])[..|g|] == g;
  }

  /** Replacing one entry's list changes the total by the difference in length. */
  lemma {:induction false} TotalSizeUpdate(g: Groups, k: nat, e: (string, seq<int>))
    requires k < |g|
    ensures TotalSize(g[k := e]) == TotalSize(g) - |g[k].1| + |e.1|
    decreases |g|
  {
    var last := |g| - 1;
    if k == last {
      assert g[k := e][..last] == g[..last];
    } else {
      assert g[k := e][..last] == g[..last][k := e];
      TotalSizeUpdate(g[..last], k, e);
    }
  }

  /** Ascending. */
  predicate Sorted(v: seq<int>) {
    forall i, j :: 0 <= i < j < |v| ==> v[i] <= v[j]
  }

  /** A bound on every sample's value bounds every value of a name. */
  lemma {:induction false} ValuesOfBounded(s: seq<Perf>, n: string, b: int)
    requires forall i :: 0 <= i < |s| ==> s[i].value <= b
    ensures forall i :: 0 <= i < |ValuesOf(s, n)| ==> ValuesOf(s, n)[i] <= b
    decreases |s|
  {
    if s != [] {
      ValuesOfBounded(s[..|s| - 1], n, b);
    }
  }

  /** Samples sorted by value give each name its values in ascending order. */
  lemma {:induction false} ValuesOfSorted(s: seq<Perf>, n: string)
    requires SortedByValue(s)
    ensures Sorted(ValuesOf(s, n))
    decreases |s|
  {
    if s != [] {
      var prefix, p := s[..|s| - 1], s[|s| - 1];
      ValuesOfSorted(prefix, n);
      ValuesOfBounded(prefix, n, p.value);
    }
  }

  /** Sorting before grouping makes every group's list ascending. */
  lemma SortedGroups(s: seq<Perf>)
    requires SortedByValue(s)
    ensures forall k :: 0 <= k < |Grouped(s)| ==> Sorted(Grouped(s)[k].1)
  {
    GroupedByName(s);
    forall k | 0 <= k < |Grouped(s)| ensures Sorted(Grouped(s)[k].1) {
      ValuesOfSorted(s, Grouped(s)[k].0);
    }
  }

  // ---------------------------------------------------------------------------
  // Bins

  /**
   * The last bin edge the loop may reach: `MAX_VALUE`, unless the last value
   * exceeds it, in which case three intervals past the last value. An empty
   * list has an undefined last value, which exceeds nothing.
   */
  function Ceiling(values: seq<int>, interval: int, maxValue: int): (c: int)
    ensures c >= maxValue || (interval < 0 && |values| > 0)
    ensures interval >= 0 && |values| > 0 ==> c >= values[|values| - 1]
  {
    if |values| > 0 && values[|values| - 1] > maxValue then values[|values| - 1] + 3 * interval else maxValue
  }

  /** `values.filter((value) => value >= lo && value <= hi).length`. */
  function CountInRange(values: seq<int>, lo: int, hi: int): (n: nat)
    ensures n <= |values|
    ensures n == 0 <==> forall i :: 0 <= i < |values| ==> !(lo <= values[i] <= hi)
  {
    if values == [] then 0
    else CountInRange(values[..|values| - 1], lo, hi) + (if lo <= values[|values| - 1] <= hi then 1 else 0)
  }

  /** Number of edges 0, interval, 2·interval, … that do not exceed `ceiling`. */
  function NumBins(ceiling: int, interval: int): (n: nat)
    requires interval > 0
    ensures ceiling < 0 ==> n == 0
    ensures ceiling >= 0 ==> (n - 1) * interval <= ceiling < n * interval
  {
    if ceiling < 0 then 0 else ceiling / interval + 1
  }

  /** The bins `pushToBins` returns: one per edge up to the ceiling, each counting the values within one interval of it, ends included. */
  function Histogram(values: seq<int>, interval: int, maxValue: int): (h: seq<Bin>)
    requires interval > 0
    ensures |h| == NumBins(Ceiling(values, interval, maxValue), interval)
  {
    var ceiling := Ceiling(values, interval, maxValue);
    seq(NumBins(ceiling, interval), k requires 0 <= k => Bin(k * interval, CountInRange(values, k * interval, k * interval + interval)))
  }

  /** `pushToBins`: the `for` loop over edges 0, interval, … up to the ceiling. */
  method PushToBins(values: seq<int>, interval: int, maxValue: int) returns (bins: seq<Bin>)
    requires interval > 0
    ensures bins == Histogram(values, interval, maxValue)
  {
    bins := [];
    var max := Ceiling(values, interval, maxValue);
    var i := 0;
    while i <= max
      invariant i == |bins| * interval
      invariant |bins| <= NumBins(max, interval)
      invariant forall k :: 0 <= k < |bins| ==>
                  bins[k] == Bin(k * interval, CountInRange(values, k * interval, k * interval + interval))
      decreases max + interval - i
    {
      MulMonotone(NumBins(max, interval), |bins|, interval);
      var count := CountInRange(values, i, i + interval);
      bins := bins + [Bin(i, count)];
      assert |bins| * interval == (|bins| - 1) * interval + interval;
      i := i + interval;
    }
    if max >= 0 {
      MulMonotone(|bins|, NumBins(max, interval) - 1, interval);
    }
  }

  /**
   * The edges start at 0 and step by the interval, so they increase; the last
   * one is the largest multiple of the interval not above the ceiling; each
   * bin counts the values from its edge to the next edge, both included.
   */
  lemma BinEdges(values: seq<int>, interval: int, maxValue: int)
    requires interval > 0
    ensures var h := Histogram(values, interval, maxValue);
            var c := Ceiling(values, interval, maxValue);
            && (|h| > 0 ==> h[0].bin == 0)
            && (forall k :: 0 <= k < |h| - 1 ==> h[k + 1].bin == h[k].bin + interval)
            && (forall k :: 0 <= k < |h| ==> h[k].count == CountInRange(values, h[k].bin, h[k].bin + interval))
            && (|h| > 0 ==> h[|h| - 1].bin <= c < h[|h| - 1].bin + interval)
  {
    var h := Histogram(values, interval, maxValue);
    var c := Ceiling(values, interval, maxValue);
    forall k | 0 <= k < |h| ensures h[k].count == CountInRange(values, h[k].bin, h[k].bin + interval) {
      assert h[k] == Bin(k * interval, CountInRange(values, k * interval, k * interval + interval));
    }
    forall k | 0 <= k < |h| - 1 ensures h[k + 1].bin == h[k].bin + interval {
      EdgeStep(k, interval);
    }
    if |h| > 0 {
      EdgeStep(|h| - 1, interval);
    }
  }

  /** Consecutive multiples differ by the factor. */
  lemma EdgeStep(k: int, d: int)
    ensures (k + 1) * d == k * d + d
  {
  }

  /** Division by a positive number rounds down to a multiple. */
  lemma DivBounds(v: int, d: int)
    requires d > 0
    ensures (v / d) * d <= v < (v / d) * d + d
  {
  }

  /**
   * Every value from 0 to the ceiling lies in some bin — the one at
   * `v / interval` — and a listed value there is counted in it.
   */
  lemma EveryValueBinned(values: seq<int>, interval: int, maxValue: int, v: int)
    requires interval > 0 && 0 <= v <= Ceiling(values, interval, maxValue)
    ensures var h := Histogram(values, interval, maxValue);
            var k := v / interval;
            && k < |h| && h[k].bin <= v <= h[k].bin + interval
            && (v in values ==> h[k].count >= 1)
  {
    var h := Histogram(values, interval, maxValue);
    var c := Ceiling(values, interval, maxValue);
    var k := v / interval;
    DivBounds(v, interval);
    DivMonotone(v, c, interval);
    assert k < |h|;
    assert h[k] == Bin(k * interval, CountInRange(values, k * interval, k * interval + interval));
  }

  /** Multiplying by a non-negative number keeps the order. */
  lemma {:induction false} MulMonotone(x: int, y: int, d: nat)
    ensures x <= y ==> x * d <= y * d
  {
    if d > 0 {
      MulMonotone(x, y, d - 1);
      assert x * d == x * (d - 1) + x && y * d == y * (d - 1) + y;
    }
  }

  /** Integer division by a positive number is monotone. */
  lemma DivMonotone(a: int, b: int, d: int)
    requires 0 <= a <= b && d > 0
    ensures a / d <= b / d
  {
    DivBounds(a, d);
    DivBounds(b, d);
    assert (b / d) * d + d == (b / d + 1) * d;
    MulMonotone(b / d + 1, a / d, d);
  }

  /** A value on an edge between two bins is counted in both of them. */
  lemma BoundaryCountedTwice(values: seq<int>, interval: int, maxValue: int, k: nat)
    requires interval > 0
    requires 1 <= k < |Histogram(values, interval, maxValue)|
    requires k * interval in values
    ensures Histogram(values, interval, maxValue)[k - 1].count >= 1
    ensures Histogram(values, interval, maxValue)[k].count >= 1
  {
    var v := k * interval;
    var h := Histogram(values, interval, maxValue);
    var i :| 0 <= i < |values| && values[i] == v;
    assert h[k - 1] == Bin((k - 1) * interval, CountInRange(values, (k - 1) * interval, (k - 1) * interval + interval));
    assert h[k] == Bin(v, CountInRange(values, v, v + interval));
  }

  /** With ascending non-negative values, every value falls in a bin of the histogram, where it is counted. */
  lemma SortedValuesCovered(values: seq<int>, interval: int, maxValue: int, i: nat)
    requires interval > 0 && Sorted(values) && i < |values| && values[i] >= 0
    ensures var h := Histogram(values, interval, maxValue);
            var k := values[i] / interval;
            k < |h| && h[k].bin <= values[i] <= h[k].bin + interval && h[k].count >= 1
  {
    EveryValueBinned(values, interval, maxValue, values[i]);
  }

  // ---------------------------------------------------------------------------
  // The service call

  /** `MAP_INTERVAL[key]`, or the default when the vital has none. */
  function IntervalFor(intervals: map<string, int>, name: string): int {
    if name in intervals then intervals[name] else DefaultInterval
  }

  /** `MAP_MAX_VALUE[key]`, or the default when the vital has none. */
  function MaxValueFor(maxValues: map<string, int>, name: string): int {
    if name in maxValues then maxValues[name] else DefaultMaxValue
  }

  /** Every configured interval is positive (a zero or negative one would never end the bin loop). */
  predicate PositiveIntervals(intervals: map<string, int>) {
    forall n :: n in intervals ==> intervals[n] > 0
  }

  /** Each group's histogram, keyed by the group's name, in the dictionary's order. */
  function BinsOf(g: Groups, intervals: map<string, int>, maxValues: map<string, int>): (r: seq<(string, seq<Bin>)>)
    requires PositiveIntervals(intervals)
    ensures |r| == |g|
    ensures forall k :: 0 <= k < |g| ==> r[k].0 == g[k].0
  {
    seq(|g|, k requires 0 <= k < |g| =>
      (g[k].0, Histogram(g[k].1, IntervalFor(intervals, g[k].0), MaxValueFor(maxValues, g[k].0))))
  }

  /**
   * A vital with neither an interval nor a maximum configured is binned with
   * the defaults: when its values stay at or below 100 it gets exactly the two
   * bins 0 and 100.
   */
  lemma UnconfiguredVitalBins(g: Groups, intervals: map<string, int>, maxValues: map<string, int>, k: nat)
    requires PositiveIntervals(intervals) && k < |g|
    requires g[k].0 !in intervals && g[k].0 !in maxValues
    requires |g[k].1| == 0 || g[k].1[|g[k].1| - 1] <= DefaultMaxValue
    ensures var h := BinsOf(g, intervals, maxValues)[k].1;
            && |h| == 2 && h[0].bin == 0 && h[1].bin == 100
            && h[0].count == CountInRange(g[k].1, 0, 100) && h[1].count == CountInRange(g[k].1, 100, 200)
  {
    var h := BinsOf(g, intervals, maxValues)[k].1;
    assert h == Histogram(g[k].1, DefaultInterval, DefaultMaxValue);
    BinEdges(g[k].1, DefaultInterval, DefaultMaxValue);
  }

  /** The loop over the dictionary's keys: each vital binned with its own interval and maximum. */
  method BinGroups(groups: Groups, intervals: map<string, int>, maxValues: map<string, int>)
    returns (result: seq<(string, seq<Bin>)>)
    requires PositiveIntervals(intervals)
    ensures result == BinsOf(groups, intervals, maxValues)
  {
    result := [];
    for k := 0 to |groups|
      invariant |result| == k
      invariant forall j :: 0 <= j < k ==>
                  result[j] == (groups[j].0, Histogram(groups[j].1, IntervalFor(intervals, groups[j].0), MaxValueFor(maxValues, groups[j].0)))
    {
      var name := groups[k].0;
      var bins := PushToBins(groups[k].1, IntervalFor(intervals, name), MaxValueFor(maxValues, name));
      result := result + [(name, bins)];
    }
  }

  /** The response of `getPerformanceBins`. */
  datatype VitalsResponse = Success(vitals: seq<(string, seq<Bin>)>) | InternalError

  /**
   * `getPerformanceBins`, given what loading the samples produced (`None` when
   * the query threw): sorts the samples, groups them by name, and bins each
   * group with its vital's interval and maximum. A failed load and a sample
   * name the accumulator inherits both end in the error response.
   */
  method GetPerformanceBins(
    loaded: Option<seq<Perf>>, intervals: map<string, int>, maxValues: map<string, int>, inherited: set<string>)
    returns (r: VitalsResponse, ghost sorted: seq<Perf>)
    requires PositiveIntervals(intervals)
    ensures r.Success? <==> loaded.Some? && OwnNames(loaded.value, inherited)
    ensures r.Success? ==>
              && SortedByValue(sorted) && multiset(sorted) == multiset(loaded.value)
              && r.vitals == BinsOf(Grouped(sorted), intervals, maxValues)
  {
    if loaded.None? {
      return InternalError, [];
    }
    var perfs := loaded.value;
    var a := new Perf[|perfs|](i requires 0 <= i < |perfs| => perfs[i]);
    assert a[..] == perfs;
    SortByValue(a);
    sorted := a[..];
    OwnNamesPermutation(perfs, sorted, inherited);
    var groups := GroupByName(a[..], inherited);
    if groups.None? {
      return InternalError, sorted;
    }
    var result := BinGroups(groups.value, intervals, maxValues);
    r := Success(result);
  }
}
