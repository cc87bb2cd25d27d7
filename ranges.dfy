/**
 * Range and grid arithmetic of qaoa.py: get_min_max, the padded axis ranges of
 * prepare_fig (10%) and prepare_prob_phase_fig (5%), and the subplot grid
 * ceil(sqrt n) columns by ceil(n / cols) rows with the unused axes deleted.
 */
module Ranges {
  import opened Outcomes
  import opened Snapshots

  const FigPadding: real := 0.1
  const ProbPhasePadding: real := 0.05
  /** The ValueError message of min() on an empty list, as Python 3.11 and earlier word it. */
  const EmptyMinMessage: string := "min() arg is an empty sequence"

  /** Python's min over a non-empty list. */
  function SeqMin(s: seq<real>): (lo: real)
    requires |s| > 0
    ensures lo in s && forall x :: x in s ==> lo <= x
  {
    if |s| == 1 then s[0]
    else
      var m := SeqMin(s[1..]);
      assert forall x :: x in s ==> x == s[0] || x in s[1..];
      if s[0] <= m then s[0] else m
  }

  /** Python's max over a non-empty list. */
  function SeqMax(s: seq<real>): (hi: real)
    requires |s| > 0
    ensures hi in s && forall x :: x in s ==> x <= hi
  {
    if |s| == 1 then s[0]
    else
      var m := SeqMax(s[1..]);
      assert forall x :: x in s ==> x == s[0] || x in s[1..];
      if s[0] >= m then s[0] else m
  }

  /** Every series of the mapping is empty, so there is no value at all. */
  ghost predicate AllEmpty(m: MetricMap) {
    forall k :: k in m ==> m[k] == []
  }

  /** x is one of the values of the mapping. */
  ghost predicate IsValue(m: MetricMap, x: real) {
    exists k :: k in m && x in m[k]
  }

  /** lo and hi are the least and the greatest value of the mapping. */
  ghost predicate Bounds(m: MetricMap, lo: real, hi: real) {
    && (forall k, x :: k in m && x in m[k] ==> lo <= x <= hi)
    && IsValue(m, lo) && IsValue(m, hi)
  }

  /** The least and greatest values are determined by the mapping. */
  lemma {:induction false} BoundsUnique(m: MetricMap, lo: real, hi: real, lo': real, hi': real)
    requires Bounds(m, lo, hi) && Bounds(m, lo', hi')
    ensures lo == lo' && hi == hi'
  {
    var k :| k in m && lo in m[k];
    var k' :| k' in m && lo' in m[k'];
    var j :| j in m && hi in m[j];
    var j' :| j' in m && hi' in m[j'];
  }

  /**
   * get_min_max: all values of all series are gathered into one list (in whatever
   * order the keys are visited), then min and max; min of an empty list raises.
   */
  method GetMinMax(m: MetricMap) returns (r: Result<(real, real)>)
    ensures r.Err? <==> AllEmpty(m)
    ensures r.Err? ==> r.error == ValueError(EmptyMinMessage)
    ensures r.Ok? ==> Bounds(m, r.value.0, r.value.1)
  {
    var allValues: seq<real> := [];
    var rest := m.Keys;
    while rest != {}
      invariant rest <= m.Keys
      invariant forall x :: x in allValues ==> exists k :: k in m.Keys - rest && x in m[k]
      invariant forall k, x :: k in m.Keys - rest && x in m[k] ==> x in allValues
      invariant forall k :: k in m.Keys - rest ==> |m[k]| <= |allValues|
      decreases |rest|
    {
      var k :| k in rest;
      allValues := allValues + m[k];
      rest := rest - {k};
    }
    if allValues == [] {
      forall k | k in m
        ensures m[k] == []
      {
        assert k in m.Keys - rest;
      }
      return Err(ValueError(EmptyMinMessage));
    }
    assert m.Keys - rest == m.Keys;
    var lo, hi := SeqMin(allValues), SeqMax(allValues);
    forall k, x | k in m && x in m[k]
      ensures lo <= x <= hi
    {
      assert x in allValues;
    }
    r := Ok((lo, hi));
  }

  /**
   * (lo - padding, hi + padding) with padding = fraction * (hi - lo): the range is
   * wider by the fraction on each side, contains [lo, hi], and has zero width
   * exactly when hi == lo.
   */
  function Pad(lo: real, hi: real, fraction: real): (r: (real, real))
    ensures lo - r.0 == fraction * (hi - lo) && r.1 - hi == fraction * (hi - lo)
    ensures r.1 - r.0 == (1.0 + 2.0 * fraction) * (hi - lo)
    ensures fraction >= 0.0 && lo <= hi ==> r.0 <= lo && hi <= r.1
    ensures fraction >= 0.0 ==> (r.0 == r.1 <==> lo == hi)
  {
    var padding := fraction * (hi - lo);
    (lo - padding, hi + padding)
  }

  function CeilSqrtFrom(n: nat, c: nat): (r: nat)
    requires c == 0 || (c - 1) * (c - 1) < n
    ensures r * r >= n && (r == 0 || (r - 1) * (r - 1) < n)
    decreases n - c
  {
    if c * c >= n then c
    else
      assert c <= c * c;
      CeilSqrtFrom(n, c + 1)
  }

  /** math.ceil(math.sqrt(n)) computed exactly: the least c with c * c >= n. */
  function CeilSqrt(n: nat): (c: nat)
    ensures c * c >= n && (c == 0 || (c - 1) * (c - 1) < n)
  {
    CeilSqrtFrom(n, 0)
  }

  datatype Grid = Grid(rows: nat, cols: nat)

  lemma {:induction false} CeilDivBounds(n: nat, c: nat)
    requires c > 0 && n > 0 && c * c >= n
    ensures (n + c - 1) / c * c >= n
    ensures ((n + c - 1) / c - 1) * c < n
    ensures 1 <= (n + c - 1) / c <= c
  {
    var q, rem := (n + c - 1) / c, (n + c - 1) % c;
    assert n + c - 1 == q * c + rem;
    assert (q - 1) * c == q * c - c;
    assert q * c < (c + 1) * c;
    if q >= c + 1 {
      MulMonotone(c + 1, q, c);
      assert false;
    }
  }

  lemma {:induction false} MulMonotone(a: int, b: int, c: nat)
    requires a <= b
    ensures a * c <= b * c
  {
  }

  /**
   * The subplot grid for n plots: cols = ceil(sqrt n), rows = ceil(n / cols).
   * There are enough axes for the plots, no row is wholly unused, and rows <= cols.
   * With no plots cols is 0 and n / cols divides by zero.
   */
  function SubplotGrid(n: nat): (r: Result<Grid>)
    ensures r.Err? <==> n == 0
    ensures r.Err? ==> r.error == ZeroDivisionError
    ensures r.Ok? ==>
      && r.value.cols * r.value.cols >= n > (r.value.cols - 1) * (r.value.cols - 1)
      && r.value.rows * r.value.cols >= n > (r.value.rows - 1) * r.value.cols
      && 1 <= r.value.rows <= r.value.cols
  {
    if n == 0 then Err(ZeroDivisionError)
    else
      var cols := CeilSqrt(n);
      CeilDivBounds(n, cols);
      Ok(Grid((n + cols - 1) / cols, cols))
  }

  /**
   * The axes that probability_phase and probability_phase_aggregate delete after
   * drawing n plots: exactly n .. rows * cols - 1, in order, fewer than one row.
   */
  function DeletedAxes(n: nat): (r: Result<seq<nat>>)
    ensures r.Err? <==> n == 0
    ensures r.Ok? ==>
      var g := SubplotGrid(n).value;
      && n + |r.value| == g.rows * g.cols
      && |r.value| < g.cols
      && forall k :: 0 <= k < |r.value| ==> r.value[k] == n + k
  {
    var g :- SubplotGrid(n);
    Ok(seq(g.rows * g.cols - n, k requires 0 <= k => n + k))
  }

  /** The y range prepare_fig computes together with the grid. */
  datatype Fig = Fig(grid: Grid, yRange: (real, real))

  /**
   * prepare_fig with y_range_bool set: the padded [min, max] of all values, then
   * the grid for num_plots; an all-empty mapping raises in min, no plots in the grid.
   */
  method PrepareFig(m: MetricMap, numPlots: nat) returns (r: Result<Fig>)
    ensures AllEmpty(m) ==> r == Err(ValueError(EmptyMinMessage))
    ensures !AllEmpty(m) ==> (r.Ok? <==> numPlots > 0)
    ensures !AllEmpty(m) && numPlots == 0 ==> r == Err(ZeroDivisionError)
    ensures r.Ok? ==> r.value.grid == SubplotGrid(numPlots).value
    ensures r.Ok? ==> exists lo, hi :: Bounds(m, lo, hi) && r.value.yRange == Pad(lo, hi, FigPadding)
    ensures r.Ok? ==> forall k, x :: k in m && x in m[k] ==> r.value.yRange.0 <= x <= r.value.yRange.1
  {
    var minMax := GetMinMax(m);
    if minMax.Err? {
      return Err(minMax.error);
    }
    var (lo, hi) := minMax.value;
    var yRange := Pad(lo, hi, FigPadding);
    var grid := SubplotGrid(numPlots);
    if grid.Err? {
      return Err(grid.error);
    }
    r := Ok(Fig(grid.value, yRange));
  }

  /** The values of a list of series in order ([x for sublist in ss for x in sublist]). */
  function Flatten(ss: seq<seq<real>>): (r: seq<real>)
    ensures forall x :: x in r <==> exists i :: 0 <= i < |ss| && x in ss[i]
    ensures forall i, x :: 0 <= i < |ss| && x in ss[i] ==> x in r
  {
    if ss == [] then []
    else
      var r := ss[0] + Flatten(ss[1..]);
      assert forall i :: 1 <= i < |ss| ==> ss[i] == ss[1..][i - 1];
      r
  }

  /** lo and hi are the least and the greatest element of the list. */
  ghost predicate ListBounds(s: seq<real>, lo: real, hi: real) {
    lo in s && hi in s && forall x :: x in s ==> lo <= x <= hi
  }

  /**
   * (min(s), max(s)) padded by the fraction of its width on each side; it holds
   * every element of the list.
   */
  function PaddedRange(s: seq<real>, fraction: real): (r: (real, real))
    requires |s| > 0 && fraction >= 0.0
    ensures exists lo, hi :: ListBounds(s, lo, hi) && r == Pad(lo, hi, fraction)
    ensures forall x :: x in s ==> r.0 <= x <= r.1
  {
    var lo, hi := SeqMin(s), SeqMax(s);
    assert ListBounds(s, lo, hi);
    Pad(lo, hi, fraction)
  }

  /**
   * The padded [min, max] of all values of a list of series, None when there is no
   * value (min raises then); the range holds every value of every series.
   */
  function SeriesRange(ss: seq<seq<real>>, fraction: real): (r: Option<(real, real)>)
    requires fraction >= 0.0
    ensures r.None? <==> Flatten(ss) == []
    ensures r.Some? ==> exists lo, hi :: ListBounds(Flatten(ss), lo, hi) && r.value == Pad(lo, hi, fraction)
    ensures r.Some? ==> forall i, x :: 0 <= i < |ss| && x in ss[i] ==> r.value.0 <= x <= r.value.1
  {
    var all := Flatten(ss);
    if all == [] then None
    else
      var range := PaddedRange(all, fraction);
      assert forall i, x :: 0 <= i < |ss| && x in ss[i] ==> range.0 <= x <= range.1 by {
        forall i, x | 0 <= i < |ss| && x in ss[i]
          ensures range.0 <= x <= range.1
        {
          assert x in all;
        }
      }
      Some(range)
  }

  datatype ProbPhaseFig = ProbPhaseFig(grid: Grid, xRange: (real, real), yRange: (real, real))

  /**
   * prepare_prob_phase_fig: the grid for one plot per basis state, then the 5%-padded
   * ranges of all probabilities (x) and all phases (y).
   */
  function PrepareProbPhaseFig(stateCount: nat, probsList: seq<seq<real>>, phasesList: seq<seq<real>>): (r: Result<ProbPhaseFig>)
    ensures stateCount == 0 ==> r == Err(ZeroDivisionError)
    ensures stateCount > 0 ==> (r.Ok? <==> Flatten(probsList) != [] && Flatten(phasesList) != [])
    ensures stateCount > 0 && r.Err? ==> r.error == ValueError(EmptyMinMessage)
    ensures r.Ok? ==> r.value.grid == SubplotGrid(stateCount).value
    ensures r.Ok? ==> exists lo, hi :: ListBounds(Flatten(probsList), lo, hi) && r.value.xRange == Pad(lo, hi, ProbPhasePadding)
    ensures r.Ok? ==> exists lo, hi :: ListBounds(Flatten(phasesList), lo, hi) && r.value.yRange == Pad(lo, hi, ProbPhasePadding)
    ensures r.Ok? ==> forall i, x :: 0 <= i < |probsList| && x in probsList[i] ==> r.value.xRange.0 <= x <= r.value.xRange.1
    ensures r.Ok? ==> forall i, y :: 0 <= i < |phasesList| && y in phasesList[i] ==> r.value.yRange.0 <= y <= r.value.yRange.1
  {
    var grid :- SubplotGrid(stateCount);
    var xRange, yRange := SeriesRange(probsList, ProbPhasePadding), SeriesRange(phasesList, ProbPhasePadding);
    if xRange.None? || yRange.None? then Err(ValueError(EmptyMinMessage))
    else Ok(ProbPhaseFig(grid, xRange.value, yRange.value))
  }
}
