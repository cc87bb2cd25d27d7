/**
 * The writer/reader contract of qaoa-vis: collect_snapshots merges the runs,
 * state_metric_aggregate lays them out behind a header, load_json splits the file
 * again and the linechart slider of ui/main_window.py reads it back layer by layer.
 */
module Pipeline {
  import opened Outcomes
  import opened Snapshots
  import opened Records
  import opened Aggregate
  import opened Loader
  import opened MainWindow

  /** Every run stopped at the same number n of checkpoints. */
  ghost predicate Uniform<A>(runs: seq<seq<seq<A>>>, n: nat) {
    forall r :: 0 <= r < |runs| ==> Checkpoints(runs[r]) == n
  }

  /** R runs of n checkpoints hold R * n checkpoints together. */
  lemma {:induction false} TotalSizeUniform<A>(runs: seq<seq<seq<A>>>, n: nat)
    requires Uniform(runs, n)
    ensures TotalSize(runs) == |runs| * n
  {
    if runs != [] {
      var prefix := runs[..|runs| - 1];
      assert Uniform(prefix, n) by {
        assert forall r :: 0 <= r < |prefix| ==> prefix[r] == runs[r];
      }
      TotalSizeUniform(prefix, n);
      assert |runs| * n == (|runs| - 1) * n + n;
    }
  }

  /** Merging R runs of n checkpoints gives exactly the keys 0 .. n * R - 1. */
  lemma {:induction false} MergedUniform<A>(runs: seq<seq<seq<A>>>, f: A -> real, n: nat)
    requires n > 0 && Uniform(runs, n)
    ensures Contiguous(Merged(runs, f), n, |runs|)
  {
    MergedKeys(runs, f);
    TotalSizeUniform(runs, n);
    assert |runs| * n == n * |runs|;
  }

  /** The runs before run r of uniform runs hold r * n checkpoints. */
  lemma {:induction false} UniformPrefixSize<A>(runs: seq<seq<seq<A>>>, n: nat, r: nat)
    requires Uniform(runs, n) && r <= |runs|
    ensures TotalSize(runs[..r]) == r * n
  {
    var prefix := runs[..r];
    assert Uniform(prefix, n) by {
      assert forall q :: 0 <= q < |prefix| ==> prefix[q] == runs[q];
    }
    TotalSizeUniform(prefix, n);
  }

  /** Checkpoint k of run r of R uniform runs sits at key k + r * n. */
  lemma {:induction false} MergedUniformAt<A>(runs: seq<seq<seq<A>>>, f: A -> real, n: nat, r: nat, k: nat)
    requires Uniform(runs, n) && r < |runs| && k < n
    ensures k + r * n in Merged(runs, f) && Merged(runs, f)[k + r * n] == ApplyAll(runs[r][k], f)
  {
    var m, key := Merged(runs, f), TotalSize(runs[..r]) + k;
    assert key == k + r * n by {
      UniformPrefixSize(runs, n, r);
    }
    assert key in m && m[key] == ApplyAll(runs[r][k], f) by {
      assert Checkpoints(runs[r]) == n;
      MergedAt(runs, f, r, k);
    }
  }

  /**
   * The reader side on a laid-out file: with the header's "Period" equal to the run
   * count R and the entries of R runs of n checkpoints, load_json splits off the
   * header, the slider spans 0 .. n - 1, and slider value v sends entry v * R + r,
   * which is key v + r * n of the mapping, for r = 0 .. R - 1.
   */
  lemma {:induction false} SliderReadsLayout(m: MetricMap, n: nat, runCount: nat, states: seq<string>, records: seq<Record>,
                          yRange: (real, real), fixedParams: seq<real>, v: int)
    requires Contiguous(m, n, runCount) && runCount > 0 && |fixedParams| == runCount
    requires |records| > 0 && records[0] == HeaderRecord(yRange, |fixedParams|, fixedParams)
    requires records[1..] == Entries(states, MetricKey, Layout(m, n, n))
    requires 0 <= v < n
    ensures LoadJson(records) == Ok((records[0], records[1..]))
    ensures SetupLinecharts(records[1..], records[0]) == Ok(n - 1)
    ensures SliderValues(records[1..], v, runCount, MetricKey).Ok?
    ensures |SliderValues(records[1..], v, runCount, MetricKey).value| == runCount
    ensures forall r :: 0 <= r < runCount ==>
              v + r * n in m && SliderValues(records[1..], v, runCount, MetricKey).value[r] == Numbers(m[v + r * n])
  {
    var data := records[1..];
    var start := v * runCount;
    LayoutLength(m, n, runCount, n);
    assert |data| == n * runCount;
    SetupLinechartsOfLayers(n, data, records[0]);
    SliderMaximumOfLayers(n, runCount);
    forall r | 0 <= r < runCount
      ensures start + r < |data| && v + r * n in m && data[start + r] == EntryRecord(states, MetricKey, m[v + r * n])
    {
      LayoutAt(m, n, runCount, n, v, r);
    }
    SliderValuesOfLayer(data, v, runCount, MetricKey, start);
  }

  /**
   * End to end: R runs of n checkpoints each, merged by collect_snapshots (which
   * reports n_snapshots = n) and laid out by state_metric_aggregate with one fixed
   * parameter per run. Slider value v then selects exactly checkpoint v of runs
   * 0 .. R - 1, in run order.
   */
  lemma {:induction false} SliderSelectsCheckpoint<A>(gammas: seq<real>, betas: seq<real>, simulate: (real, real) -> seq<seq<A>>,
                                   f: A -> real, n: nat, nSnapshots: nat, states: seq<string>,
                                   records: seq<Record>, yRange: (real, real), fixedParams: seq<real>, v: int)
    requires |gammas| > 0 && |betas| > 0 && n > 0
    requires Uniform(Runs(gammas, betas, simulate), n)
    requires nSnapshots == Checkpoints(simulate(gammas[Min(|gammas|, |betas|) - 1], betas[Min(|gammas|, |betas|) - 1]))
    requires |fixedParams| == |Runs(gammas, betas, simulate)|
    requires |records| > 0 && records[0] == HeaderRecord(yRange, |fixedParams|, fixedParams)
    requires records[1..] == Entries(states, MetricKey, Layout(Merged(Runs(gammas, betas, simulate), f), nSnapshots, nSnapshots))
    requires 0 <= v < n
    ensures nSnapshots == n
    ensures LoadJson(records) == Ok((records[0], records[1..]))
    ensures SetupLinecharts(records[1..], records[0]) == Ok(n - 1)
    ensures SliderValues(records[1..], v, |fixedParams|, MetricKey).Ok?
    ensures |SliderValues(records[1..], v, |fixedParams|, MetricKey).value| == Min(|gammas|, |betas|)
    ensures forall r :: 0 <= r < Min(|gammas|, |betas|) ==>
              SliderValues(records[1..], v, |fixedParams|, MetricKey).value[r]
              == Numbers(ApplyAll(simulate(gammas[r], betas[r])[v], f))
  {
    var runs := Runs(gammas, betas, simulate);
    var m := Merged(runs, f);
    assert nSnapshots == Checkpoints(runs[|runs| - 1]);
    MergedUniform(runs, f, n);
    SliderReadsLayout(m, n, |runs|, states, records, yRange, fixedParams, v);
    forall r | 0 <= r < |runs|
      ensures m[v + r * n] == ApplyAll(simulate(gammas[r], betas[r])[v], f)
    {
      MergedUniformAt(runs, f, n, r, v);
    }
  }
}
