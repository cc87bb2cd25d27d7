/**
 * Multi-run merge and record layout of qaoa.py: collect_snapshots places the
 * checkpoints of run after run under consecutive keys, and state_metric_aggregate
 * lays them out checkpoint-major behind a header whose "Period" is the run count.
 */
module Aggregate {
  import opened Outcomes
  import opened Snapshots
  import opened Ranges
  import opened Records

  function Min(a: int, b: int): int {
    if a <= b then a else b
  }

  /**
   * The snapshot sequences of the runs zip(gamma_vals, beta_vals) makes, one per
   * pair; the simulation itself is a parameter.
   */
  function Runs<A>(gammas: seq<real>, betas: seq<real>, simulate: (real, real) -> seq<seq<A>>): (runs: seq<seq<seq<A>>>)
    ensures |runs| == Min(|gammas|, |betas|)
    ensures forall r :: 0 <= r < |runs| ==> runs[r] == simulate(gammas[r], betas[r])
  {
    seq(Min(|gammas|, |betas|), r requires 0 <= r < Min(|gammas|, |betas|) => simulate(gammas[r], betas[r]))
  }

  /** The number of checkpoints of all runs together. */
  function TotalSize<A>(runs: seq<seq<seq<A>>>): nat {
    if runs == [] then 0 else TotalSize(runs[..|runs| - 1]) + Checkpoints(runs[|runs| - 1])
  }

  /** target after copying source[0..k) to keys offset .. offset + k - 1. */
  function Copied(target: MetricMap, source: MetricMap, offset: nat, k: nat): MetricMap
    requires forall j: nat :: j < k ==> j in source
  {
    if k == 0 then target else Copied(target, source, offset, k - 1)[offset + k - 1 := source[k - 1]]
  }

  lemma {:induction false} CopiedAt(target: MetricMap, source: MetricMap, offset: nat, k: nat, x: nat)
    requires forall j: nat :: j < k ==> j in source
    ensures x in Copied(target, source, offset, k) <==> x in target || offset <= x < offset + k
    ensures offset <= x < offset + k ==> Copied(target, source, offset, k)[x] == source[x - offset]
    ensures x in target && !(offset <= x < offset + k) ==> Copied(target, source, offset, k)[x] == target[x]
  {
    if k > 0 {
      CopiedAt(target, source, offset, k - 1, x);
    }
  }

  /** The mapping collect_snapshots has built after the given runs. */
  function Merged<A>(runs: seq<seq<seq<A>>>, f: A -> real): MetricMap {
    if runs == [] then map[]
    else
      var prefix, last := runs[..|runs| - 1], runs[|runs| - 1];
      ExtractShape(last, f);
      Copied(Merged(prefix, f), Extract(last, f), TotalSize(prefix), Checkpoints(last))
  }

  /** The merged keys are exactly 0 .. TotalSize(runs) - 1. */
  lemma {:induction false} MergedKeys<A>(runs: seq<seq<seq<A>>>, f: A -> real)
    ensures HasKeys(Merged(runs, f), TotalSize(runs))
  {
    if runs != [] {
      var prefix, last := runs[..|runs| - 1], runs[|runs| - 1];
      MergedKeys(prefix, f);
      ExtractShape(last, f);
      forall x: nat
        ensures x in Merged(runs, f) <==> x < TotalSize(runs)
      {
        CopiedAt(Merged(prefix, f), Extract(last, f), TotalSize(prefix), Checkpoints(last), x);
      }
    }
  }

  lemma {:induction false} TotalSizePrefix<A>(runs: seq<seq<seq<A>>>, r: nat)
    requires r < |runs|
    ensures TotalSize(runs[..r]) + Checkpoints(runs[r]) <= TotalSize(runs)
  {
    var prefix := runs[..|runs| - 1];
    if r < |runs| - 1 {
      assert prefix[..r] == runs[..r];
      TotalSizePrefix(prefix, r);
    } else {
      assert prefix == runs[..r];
    }
  }

  /**
   * Checkpoint k of run r lands at key (checkpoints of the earlier runs) + k and
   * holds that checkpoint's series.
   */
  lemma {:induction false} MergedAt<A>(runs: seq<seq<seq<A>>>, f: A -> real, r: nat, k: nat)
    requires r < |runs| && k < Checkpoints(runs[r])
    ensures TotalSize(runs[..r]) + k in Merged(runs, f)
    ensures Merged(runs, f)[TotalSize(runs[..r]) + k] == ApplyAll(runs[r][k], f)
  {
    var prefix, last := runs[..|runs| - 1], runs[|runs| - 1];
    var x := TotalSize(runs[..r]) + k;
    ExtractShape(last, f);
    CopiedAt(Merged(prefix, f), Extract(last, f), TotalSize(prefix), Checkpoints(last), x);
    if r == |runs| - 1 {
      assert runs[..r] == prefix;
    } else {
      assert prefix[..r] == runs[..r];
      TotalSizePrefix(prefix, r);
      MergedAt(prefix, f, r, k);
    }
  }

  /** One more run: its checkpoints are copied in behind those of the runs before it. */
  lemma {:induction false} MergedStep<A>(runs: seq<seq<seq<A>>>, f: A -> real, r: nat)
    requires r < |runs|
    ensures forall j: nat :: j < Checkpoints(runs[r]) ==> j in Extract(runs[r], f)
    ensures TotalSize(runs[..r + 1]) == TotalSize(runs[..r]) + Checkpoints(runs[r])
    ensures Merged(runs[..r + 1], f)
         == Copied(Merged(runs[..r], f), Extract(runs[r], f), TotalSize(runs[..r]), Checkpoints(runs[r]))
  {
    ExtractShape(runs[r], f);
    assert runs[..r + 1][..r] == runs[..r];
  }

  /** The inner loops of collect_snapshots: all_probs[key_offset + k] = v for (k, v) in order. */
  method CopyShifted(target: MetricMap, source: MetricMap, offset: nat, n: nat) returns (t: MetricMap)
    requires forall j: nat :: j < n ==> j in source
    ensures t == Copied(target, source, offset, n)
  {
    t := target;
    var k := 0;
    while k < n
      invariant k <= n
      invariant t == Copied(target, source, offset, k)
    {
      t := t[offset + k := source[k]];
      k := k + 1;
    }
  }

  /**
   * collect_snapshots: one simulated run per (gamma, beta) pair of the zip, each
   * converted by from_snapshot_to_values and copied in behind the previous runs.
   * The returned count is the last run's checkpoint count, 0 without runs.
   */
  method CollectSnapshots<A>(gammas: seq<real>, betas: seq<real>, simulate: (real, real) -> seq<seq<A>>,
                             prob: A -> real, phase: A -> real)
    returns (allProbs: MetricMap, allPhases: MetricMap, nSnapshots: nat)
    ensures allProbs == Merged(Runs(gammas, betas, simulate), prob)
    ensures allPhases == Merged(Runs(gammas, betas, simulate), phase)
    ensures HasKeys(allProbs, TotalSize(Runs(gammas, betas, simulate)))
    ensures HasKeys(allPhases, TotalSize(Runs(gammas, betas, simulate)))
    ensures nSnapshots == if |gammas| == 0 || |betas| == 0 then 0
                          else Checkpoints(simulate(gammas[Min(|gammas|, |betas|) - 1], betas[Min(|gammas|, |betas|) - 1]))
  {
    ghost var runs := Runs(gammas, betas, simulate);
    allProbs, allPhases := map[], map[];
    var keyOffset: nat := 0;
    nSnapshots := 0;
    var r := 0;
    while r < Min(|gammas|, |betas|)
      invariant r <= |runs|
      invariant keyOffset == TotalSize(runs[..r])
      invariant allProbs == Merged(runs[..r], prob) && allPhases == Merged(runs[..r], phase)
      invariant nSnapshots == if r == 0 then 0 else Checkpoints(runs[r - 1])
    {
      var snaps := simulate(gammas[r], betas[r]);
      var probsDict, phasesDict := FromSnapshotToValues(snaps, prob, phase);
      nSnapshots := |probsDict|;
      MergedStep(runs, prob, r);
      MergedStep(runs, phase, r);
      allProbs := CopyShifted(allProbs, probsDict, keyOffset, nSnapshots);
      allPhases := CopyShifted(allPhases, phasesDict, keyOffset, nSnapshots);
      keyOffset := keyOffset + nSnapshots;
      r := r + 1;
    }
    assert runs[..r] == runs;
    MergedKeys(runs, prob);
    MergedKeys(runs, phase);
  }

  /** The keys at or above j. */
  function KeysFrom(m: MetricMap, j: nat): set<nat> {
    set k | k in m.Keys && k >= j
  }

  lemma {:induction false} SubsetCardinality(a: set<nat>, b: set<nat>)
    requires a <= b
    ensures |a| <= |b|
  {
    assert b == a + (b - a);
  }

  /** Each step of the while loop leaves fewer keys at or above it. */
  lemma {:induction false} KeysFromShrink(m: MetricMap, j: nat, step: nat)
    requires j in m && step > 0
    ensures |KeysFrom(m, j + step)| < |KeysFrom(m, j)|
  {
    var later, now := KeysFrom(m, j + step), KeysFrom(m, j);
    assert j in now && j !in later;
    SubsetCardinality(later, now - {j});
  }

  /** The series the while loop of state_metric_aggregate visits from key j on. */
  function Chain(m: MetricMap, j: nat, step: nat): seq<seq<real>>
    requires step > 0
    decreases |KeysFrom(m, j)|
  {
    if j in m then
      KeysFromShrink(m, j, step);
      [m[j]] + Chain(m, j + step, step)
    else []
  }

  /** The chain from j is m[j], m[j + step], ...: its t-th series is the one at j + t * step. */
  lemma {:induction false} ChainAt(m: MetricMap, j: nat, step: nat, t: nat)
    requires step > 0 && t < |Chain(m, j, step)|
    ensures j + t * step in m && Chain(m, j, step)[t] == m[j + t * step]
    decreases t
  {
    assert j in m;
    KeysFromShrink(m, j, step);
    if t > 0 {
      ChainAt(m, j + step, step, t - 1);
      assert j + t * step == (j + step) + (t - 1) * step;
    }
  }

  /** The chain stops at the first missing key: one step past its end there is none. */
  lemma {:induction false} ChainEnd(m: MetricMap, j: nat, step: nat)
    requires step > 0
    ensures j + |Chain(m, j, step)| * step !in m
    decreases |KeysFrom(m, j)|
  {
    if j in m {
      KeysFromShrink(m, j, step);
      ChainEnd(m, j + step, step);
      var c := Chain(m, j + step, step);
      assert j + (|c| + 1) * step == (j + step) + |c| * step;
    }
  }

  /** The entries of state_metric_aggregate for checkpoints 0 .. i - 1. */
  function Layout(m: MetricMap, n: nat, i: nat): seq<seq<real>>
    requires n > 0
  {
    if i == 0 then [] else Layout(m, n, i - 1) + Chain(m, i - 1, n)
  }

  /** The keys 0 .. n * runCount - 1 of runCount merged runs of n checkpoints each. */
  ghost predicate Contiguous(m: MetricMap, n: nat, runCount: nat) {
    n > 0 && HasKeys(m, n * runCount)
  }

  lemma {:induction false} ChainLengthFrom(m: MetricMap, n: nat, runCount: nat, i: nat, q: nat)
    requires Contiguous(m, n, runCount) && i < n && q <= runCount
    ensures |Chain(m, i + q * n, n)| == runCount - q
    decreases runCount - q
  {
    if q < runCount {
      assert i + q * n < n * runCount by {
        MulMonotone(q + 1, runCount, n);
      }
      KeysFromShrink(m, i + q * n, n);
      ChainLengthFrom(m, n, runCount, i, q + 1);
      assert i + q * n + n == i + (q + 1) * n;
    } else {
      assert i + q * n >= n * runCount;
    }
  }

  /**
   * With keys 0 .. n * R - 1, the chain from checkpoint i < n visits i, i + n, ...,
   * i + (R - 1) * n: one series per run.
   */
  lemma {:induction false} ChainOfContiguous(m: MetricMap, n: nat, runCount: nat, i: nat)
    requires Contiguous(m, n, runCount) && i < n
    ensures |Chain(m, i, n)| == runCount
    ensures forall r :: 0 <= r < runCount ==> i + r * n in m && Chain(m, i, n)[r] == m[i + r * n]
  {
    ChainLengthFrom(m, n, runCount, i, 0);
    forall r | 0 <= r < runCount
      ensures i + r * n in m && Chain(m, i, n)[r] == m[i + r * n]
    {
      ChainAt(m, i, n, r);
    }
  }

  lemma {:induction false} LayoutLength(m: MetricMap, n: nat, runCount: nat, i: nat)
    requires Contiguous(m, n, runCount) && i <= n
    ensures |Layout(m, n, i)| == i * runCount
  {
    if i > 0 {
      LayoutLength(m, n, runCount, i - 1);
      ChainOfContiguous(m, n, runCount, i - 1);
      assert i * runCount == (i - 1) * runCount + runCount;
    }
  }

  /**
   * The layout is checkpoint-major: with R runs of n checkpoints merged, entry
   * a * R + r is checkpoint a of run r, which collect_snapshots put at key a + r * n.
   */
  lemma {:induction false} LayoutAt(m: MetricMap, n: nat, runCount: nat, i: nat, a: nat, r: nat)
    requires Contiguous(m, n, runCount) && i <= n && a < i && r < runCount
    ensures a * runCount + r < |Layout(m, n, i)|
    ensures a + r * n in m && Layout(m, n, i)[a * runCount + r] == m[a + r * n]
  {
    LayoutLength(m, n, runCount, i);
    LayoutLength(m, n, runCount, i - 1);
    ChainOfContiguous(m, n, runCount, i - 1);
    assert (i - 1) * runCount + runCount == i * runCount;
    if a < i - 1 {
      MulMonotone(a + 1, i - 1, runCount);
      LayoutAt(m, n, runCount, i - 1, a, r);
    } else {
      MulMonotone(a + 1, i, runCount);
    }
  }

  /** Every chain fits the labels fixed_params[series_num] it needs. */
  ghost predicate LabelsSuffice(m: MetricMap, n: nat, labelCount: nat)
    requires n > 0
  {
    forall i :: 0 <= i < n ==> |Chain(m, i, n)| <= labelCount
  }

  /**
   * The while loop for checkpoint i: appends one entry per visited key, failing with
   * IndexError when a series has no fixed parameter left to label it.
   */
  method AppendChain(results: seq<Record>, states: seq<string>, m: MetricMap, i: nat, n: nat, fixedParams: seq<real>)
    returns (r: Result<seq<Record>>)
    requires n > 0
    ensures r.Ok? <==> |Chain(m, i, n)| <= |fixedParams|
    ensures r.Err? ==> r.error == IndexError
    ensures r.Ok? ==> r.value == results + Entries(states, MetricKey, Chain(m, i, n))
  {
    var acc := results;
    var j: nat := i;
    var seriesNum: nat := 0;
    ghost var done: seq<seq<real>> := [];
    while j in m
      invariant seriesNum == |done| <= |fixedParams|
      invariant done + Chain(m, j, n) == Chain(m, i, n)
      invariant acc == results + Entries(states, MetricKey, done)
      decreases |KeysFrom(m, j)|
    {
      KeysFromShrink(m, j, n);
      assert Chain(m, j, n) == [m[j]] + Chain(m, j + n, n);
      assert (done + [m[j]]) + Chain(m, j + n, n) == done + ([m[j]] + Chain(m, j + n, n));
      EntriesAppend(states, MetricKey, done, [m[j]]);
      acc := acc + [EntryRecord(states, MetricKey, m[j])];
      done := done + [m[j]];
      if seriesNum >= |fixedParams| {
        assert |Chain(m, i, n)| > |fixedParams|;
        return Err(IndexError);
      }
      j := j + n;
      seriesNum := seriesNum + 1;
    }
    assert done == Chain(m, i, n);
    r := Ok(acc);
  }

  /**
   * state_metric_aggregate: prepare_fig (whose errors come first), a header with
   * "Period" = len(fixed_params), then for each checkpoint i the chain i, i + n, ...
   */
  method StateMetricAggregate(states: seq<string>, m: MetricMap, nSnapshots: nat, fixedParams: seq<real>)
    returns (r: Result<seq<Record>>)
    ensures AllEmpty(m) ==> r == Err(ValueError(EmptyMinMessage))
    ensures !AllEmpty(m) && nSnapshots == 0 ==> r == Err(ZeroDivisionError)
    ensures !AllEmpty(m) && nSnapshots > 0 ==> (r.Ok? <==> LabelsSuffice(m, nSnapshots, |fixedParams|))
    ensures !AllEmpty(m) && nSnapshots > 0 && r.Err? ==> r.error == IndexError
    ensures r.Ok? ==> nSnapshots > 0 && |r.value| > 0
    ensures r.Ok? ==> exists lo, hi :: Bounds(m, lo, hi) && r.value[0] == HeaderRecord(Pad(lo, hi, FigPadding), |fixedParams|, fixedParams)
    ensures r.Ok? ==> r.value[1..] == Entries(states, MetricKey, Layout(m, nSnapshots, nSnapshots))
  {
    var fig := PrepareFig(m, nSnapshots);
    if fig.Err? {
      return Err(fig.error);
    }
    var header := HeaderRecord(fig.value.yRange, |fixedParams|, fixedParams);
    var results := [header];
    var i := 0;
    while i < nSnapshots
      invariant i <= nSnapshots
      invariant forall a :: 0 <= a < i ==> |Chain(m, a, nSnapshots)| <= |fixedParams|
      invariant results == [header] + Entries(states, MetricKey, Layout(m, nSnapshots, i))
    {
      var next := AppendChain(results, states, m, i, nSnapshots, fixedParams);
      if next.Err? {
        return Err(next.error);
      }
      EntriesAppend(states, MetricKey, Layout(m, nSnapshots, i), Chain(m, i, nSnapshots));
      results := next.value;
      i := i + 1;
    }
    r := Ok(results);
    assert r.value[1..] == Entries(states, MetricKey, Layout(m, nSnapshots, nSnapshots));
  }
}
