/** The two smoothing steps of the forecast ensemble (services/processor.ts):
    the centred three-month moving average `movingAverage3`, and the pull of
    the 2027-2030 values toward their own mean. */
module Smoothing {
  import opened Numeric

  /** First index of the window around i: `Math.max(0, i - 1)`. */
  function WindowStart(i: nat): nat
  {
    if i >= 1 then i - 1 else 0
  }

  /** Last index of the window around i: `Math.min(n - 1, i + 1)`. */
  function WindowEnd(n: nat, i: nat): nat
    requires i < n
  {
    if i + 1 <= n - 1 then i + 1 else n - 1
  }

  /** The mean of the values at the existing neighbours of i and i itself. */
  function WindowMean(data: seq<real>, i: nat): real
    requires i < |data|
  {
    Mean(data[WindowStart(i)..WindowEnd(|data|, i) + 1])
  }

  /** The smoothed series: every position replaced by its window mean. */
  function MovingAverage(data: seq<real>): (r: seq<real>)
    ensures |r| == |data|
  {
    seq(|data|, i requires 0 <= i < |data| => WindowMean(data, i))
  }

  /** The inner loop of `movingAverage3`: the sum of the values from start
      up to stop, and how many it added. */
  method SumWindow(data: seq<real>, start: nat, stop: nat) returns (sum: real, count: nat)
    requires start <= stop <= |data|
    ensures sum == Sum(data[start..stop]) && count == stop - start
  {
    sum := 0.0;
    count := 0;
    for j := start to stop
      invariant sum == Sum(data[start..j])
      invariant count == j - start
    {
      assert data[start..j + 1] == data[start..j] + [data[j]];
      SumSnoc(data[start..j], data[j]);
      sum := sum + data[j];
      count := count + 1;
    }
  }

  /** `movingAverage3`: for each position, a loop adds up the window and
      divides by the number of values it added. */
  method MovingAverage3(data: seq<real>) returns (result: seq<real>)
    ensures result == MovingAverage(data)
  {
    result := [];
    for i := 0 to |data|
      invariant |result| == i
      invariant forall k :: 0 <= k < i ==> result[k] == WindowMean(data, k)
    {
      var start := if 0 >= i - 1 then 0 else i - 1;
      var end := if |data| - 1 <= i + 1 then |data| - 1 else i + 1;
      var sum, count := SumWindow(data, start, end + 1);
      assert start == WindowStart(i) && end == WindowEnd(|data|, i);
      assert sum / count as real == WindowMean(data, i);
      result := result + [sum / count as real];
    }
  }

  /** Inside the series a value becomes the mean of itself and its two
      neighbours. */
  lemma MovingAverageInterior(data: seq<real>, i: nat)
    requires 0 < i < |data| - 1
    ensures MovingAverage(data)[i] == (data[i - 1] + data[i] + data[i + 1]) / 3.0
  {
    var w := data[i - 1..i + 2];
    assert w == [data[i - 1], data[i], data[i + 1]];
    assert Sum(w) == Sum(w[..2]) + data[i + 1];
    assert Sum(w[..2]) == Sum(w[..1]) + data[i];
    assert Sum(w[..1]) == Sum(w[..0]) + data[i - 1];
  }

  /** The first and last values become the mean of themselves and their one
      neighbour; a single value stays as it is. */
  lemma MovingAverageEnds(data: seq<real>)
    requires |data| >= 1
    ensures |data| == 1 ==> MovingAverage(data) == data
    ensures |data| >= 2 ==> MovingAverage(data)[0] == (data[0] + data[1]) / 2.0
    ensures |data| >= 2 ==> MovingAverage(data)[|data| - 1] == (data[|data| - 2] + data[|data| - 1]) / 2.0
  {
    var n := |data|;
    if n == 1 {
      assert data[0..1] == data == [data[0]];
      assert Sum(data) == Sum(data[..0]) + data[0];
      assert MovingAverage(data)[0] == Mean(data) == data[0];
    } else {
      var first := data[0..2];
      assert first == [data[0], data[1]];
      assert Sum(first) == Sum(first[..1]) + data[1];
      assert Sum(first[..1]) == Sum(first[..0]) + data[0];
      var last := data[n - 2..n];
      assert last == [data[n - 2], data[n - 1]];
      assert Sum(last) == Sum(last[..1]) + data[n - 1];
      assert Sum(last[..1]) == Sum(last[..0]) + data[n - 2];
    }
  }

  /** A constant series is left unchanged. */
  lemma MovingAverageConstant(data: seq<real>, c: real)
    requires forall i :: 0 <= i < |data| ==> data[i] == c
    ensures MovingAverage(data) == data
  {
    forall i | 0 <= i < |data|
      ensures MovingAverage(data)[i] == data[i]
    {
      MeanConstant(data[WindowStart(i)..WindowEnd(|data|, i) + 1], c);
    }
  }

  /** Smoothing never leaves the range of the data. */
  lemma MovingAverageBounds(data: seq<real>, lo: real, hi: real)
    requires forall i :: 0 <= i < |data| ==> lo <= data[i] <= hi
    ensures forall i :: 0 <= i < |data| ==> lo <= MovingAverage(data)[i] <= hi
  {
    forall i | 0 <= i < |data|
      ensures lo <= MovingAverage(data)[i] <= hi
    {
      MeanBounds(data[WindowStart(i)..WindowEnd(|data|, i) + 1], lo, hi);
    }
  }

  /** The years whose values are pulled toward their mean. */
  predicate InReversionWindow(year: int)
  {
    2027 <= year && year <= 2030
  }

  /** `indicesSmooth`: the positions, in ascending order, whose year lies in
      the reversion window. */
  function ReversionIndices(years: seq<int>): (idx: seq<nat>)
    ensures forall k :: 0 <= k < |idx| ==> idx[k] < |years| && InReversionWindow(years[idx[k]])
    ensures forall i :: 0 <= i < |years| && InReversionWindow(years[i]) ==> i in idx
    ensures forall a, b :: 0 <= a < b < |idx| ==> idx[a] < idx[b]
  {
    if years == [] then []
    else
      var n := |years| - 1;
      var prefix := ReversionIndices(years[..n]);
      assert forall k :: 0 <= k < |prefix| ==> years[prefix[k]] == years[..n][prefix[k]];
      prefix + (if InReversionWindow(years[n]) then [n] else [])
  }

  /** The values at the given positions. */
  function Selected(vals: seq<real>, idx: seq<nat>): seq<real>
    requires forall k :: 0 <= k < |idx| ==> idx[k] < |vals|
  {
    seq(|idx|, k requires 0 <= k < |idx| => vals[idx[k]])
  }

  /** The mean-reversion step: when some year lies in the window, every value
      in the window keeps 85% of its deviation from the window's mean, and the
      others are unchanged. */
  function RevertToMean(vals: seq<real>, years: seq<int>): (r: seq<real>)
    requires |vals| == |years|
    ensures |r| == |vals|
  {
    var idx := ReversionIndices(years);
    if |idx| == 0 then vals
    else
      var avg := Mean(Selected(vals, idx));
      seq(|vals|, i requires 0 <= i < |vals| =>
        if InReversionWindow(years[i]) then avg + (vals[i] - avg) * 0.85 else vals[i])
  }

  /** Values outside 2027-2030 are untouched, and values inside keep 85% of
      their distance to the window mean. */
  lemma RevertToMeanPointwise(vals: seq<real>, years: seq<int>, i: nat)
    requires |vals| == |years| && i < |vals|
    ensures |RevertToMean(vals, years)| == |vals|
    ensures !InReversionWindow(years[i]) ==> RevertToMean(vals, years)[i] == vals[i]
    ensures InReversionWindow(years[i]) ==>
      var m := Mean(Selected(vals, ReversionIndices(years)));
      RevertToMean(vals, years)[i] - m == 0.85 * (vals[i] - m)
  {
  }

  /** Inside the window, the reverted values are the affine image of the
      originals that fixes their mean. */
  lemma RevertedSelection(vals: seq<real>, years: seq<int>)
    requires |vals| == |years|
    requires |ReversionIndices(years)| > 0
    ensures var idx := ReversionIndices(years);
      var before := Selected(vals, idx);
      var after := Selected(RevertToMean(vals, years), idx);
      && |after| == |before|
      && forall k :: 0 <= k < |before| ==> after[k] == Mean(before) + 0.85 * (before[k] - Mean(before))
  {
  }

  /** Pulling toward the mean leaves the mean of the window's values unchanged. */
  lemma RevertPreservesWindowMean(vals: seq<real>, years: seq<int>)
    requires |vals| == |years|
    requires |ReversionIndices(years)| > 0
    ensures var idx := ReversionIndices(years);
      Mean(Selected(RevertToMean(vals, years), idx)) == Mean(Selected(vals, idx))
  {
    var idx := ReversionIndices(years);
    var before := Selected(vals, idx);
    var after := Selected(RevertToMean(vals, years), idx);
    RevertedSelection(vals, years);
    AffineAroundMean(before, after, 0.85);
  }

  /** Scaling every deviation from the mean by k leaves the mean unchanged. */
  lemma AffineAroundMean(before: seq<real>, after: seq<real>, k: real)
    requires |before| > 0 && |after| == |before|
    requires forall i :: 0 <= i < |before| ==> after[i] == Mean(before) + k * (before[i] - Mean(before))
    ensures Mean(after) == Mean(before)
  {
    var avg := Mean(before);
    SumAffine(before, after, avg, avg, k);
    var n := |before| as real;
    assert n * avg == Sum(before);
    assert Sum(after) == n * avg + k * (Sum(before) - n * avg);
    assert Sum(after) == Sum(before);
  }

  /** A constant series has nothing to revert. */
  lemma RevertConstant(vals: seq<real>, years: seq<int>, c: real)
    requires |vals| == |years|
    requires forall i :: 0 <= i < |vals| ==> vals[i] == c
    ensures RevertToMean(vals, years) == vals
  {
    var idx := ReversionIndices(years);
    if |idx| > 0 {
      MeanConstant(Selected(vals, idx), c);
    }
  }

  /** Pulling toward the mean keeps the values within any range that holds
      them all. */
  lemma RevertBounds(vals: seq<real>, years: seq<int>, lo: real, hi: real)
    requires |vals| == |years|
    requires forall i :: 0 <= i < |vals| ==> lo <= vals[i] <= hi
    ensures forall i :: 0 <= i < |vals| ==> lo <= RevertToMean(vals, years)[i] <= hi
  {
    var idx := ReversionIndices(years);
    if |idx| > 0 {
      var sel := Selected(vals, idx);
      MeanBounds(sel, lo, hi);
    }
  }
}
