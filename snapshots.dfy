/**
 * Snapshot extraction (qaoa.py, from_snapshot_to_values): one metric series per
 * checkpoint snapshot except the last one, one value per amplitude.
 * The amplitude type is a type parameter; the squared modulus and the complex
 * argument are passed in as the functions `prob` and `phase`.
 */
module Snapshots {

  /** A metric mapping: checkpoint key to one value per basis state. */
  type MetricMap = map<nat, seq<real>>

  /** m has exactly the keys 0 .. n-1 (none when n <= 0), as Python's range(n). */
  ghost predicate HasKeys<V>(m: map<nat, V>, n: int) {
    forall x: nat :: x in m <==> x < n
  }

  lemma {:induction false} HasKeysSize<V>(m: map<nat, V>, n: nat)
    requires HasKeys(m, n)
    ensures |m| == n
  {
    if n > 0 {
      var smaller := m - {n - 1};
      assert HasKeys(smaller, n - 1);
      HasKeysSize(smaller, n - 1);
      assert m.Keys == smaller.Keys + {n - 1};
    } else {
      assert m.Keys == {};
    }
  }

  /** The number of metric keys a snapshot sequence yields: len(range(len(snaps) - 1)). */
  function Checkpoints<A>(snaps: seq<seq<A>>): nat {
    if |snaps| == 0 then 0 else |snaps| - 1
  }

  /** f applied to every amplitude of one state vector, in vector order. */
  function ApplyAll<A>(v: seq<A>, f: A -> real): (r: seq<real>)
    ensures |r| == |v| && forall k :: 0 <= k < |v| ==> r[k] == f(v[k])
  {
    seq(|v|, k requires 0 <= k < |v| => f(v[k]))
  }

  /** The mapping from_snapshot_to_values builds for one metric. */
  function Extract<A>(snaps: seq<seq<A>>, f: A -> real): MetricMap {
    map i: nat | i < |snaps| - 1 :: ApplyAll(snaps[i], f)
  }

  /** The shape of Extract: keys 0 .. len(snaps)-2, one value per amplitude, vector order. */
  lemma {:induction false} ExtractShape<A>(snaps: seq<seq<A>>, f: A -> real)
    ensures HasKeys(Extract(snaps, f), |snaps| - 1)
    ensures |Extract(snaps, f)| == Checkpoints(snaps)
    ensures forall i :: i in Extract(snaps, f) ==>
      |Extract(snaps, f)[i]| == |snaps[i]| &&
      forall k :: 0 <= k < |snaps[i]| ==> Extract(snaps, f)[i][k] == f(snaps[i][k])
  {
    HasKeysSize(Extract(snaps, f), Checkpoints(snaps));
  }

  /** The mapping after the loop of from_snapshot_to_values has filled checkpoints 0 .. n-1. */
  function FilledUpTo<A>(snaps: seq<seq<A>>, f: A -> real, n: nat): MetricMap
    requires n <= Checkpoints(snaps)
  {
    if n == 0 then map[] else FilledUpTo(snaps, f, n - 1)[n - 1 := ApplyAll(snaps[n - 1], f)]
  }

  lemma {:induction false} FilledUpToAt<A>(snaps: seq<seq<A>>, f: A -> real, n: nat)
    requires n <= Checkpoints(snaps)
    ensures HasKeys(FilledUpTo(snaps, f, n), n)
    ensures forall j :: j in FilledUpTo(snaps, f, n) ==> FilledUpTo(snaps, f, n)[j] == ApplyAll(snaps[j], f)
  {
    if n > 0 {
      FilledUpToAt(snaps, f, n - 1);
    }
  }

  /** Once every checkpoint is filled, the loop's mapping is Extract's. */
  lemma {:induction false} FilledIsExtract<A>(snaps: seq<seq<A>>, f: A -> real)
    ensures FilledUpTo(snaps, f, Checkpoints(snaps)) == Extract(snaps, f)
  {
    var m, e := FilledUpTo(snaps, f, Checkpoints(snaps)), Extract(snaps, f);
    FilledUpToAt(snaps, f, Checkpoints(snaps));
    ExtractShape(snaps, f);
    assert m.Keys == e.Keys;
  }

  /** The inner loop of from_snapshot_to_values: one appended value per amplitude of a vector. */
  method SeriesOf<A>(v: seq<A>, prob: A -> real, phase: A -> real) returns (p: seq<real>, q: seq<real>)
    ensures |p| == |q| == |v|
    ensures forall k :: 0 <= k < |v| ==> p[k] == prob(v[k]) && q[k] == phase(v[k])
  {
    p, q := [], [];
    var k := 0;
    while k < |v|
      invariant k <= |v| && |p| == |q| == k
      invariant forall t :: 0 <= t < k ==> p[t] == prob(v[t]) && q[t] == phase(v[t])
    {
      var n := v[k];
      p, q := p + [prob(n)], q + [phase(n)];
      k := k + 1;
    }
  }

  /**
   * from_snapshot_to_values(snaps) without the optional JSON dump: probs[i] and
   * phases[i] for every snapshot but the last one.
   */
  method FromSnapshotToValues<A>(snaps: seq<seq<A>>, prob: A -> real, phase: A -> real)
    returns (probs: MetricMap, phases: MetricMap)
    ensures HasKeys(probs, |snaps| - 1) && HasKeys(phases, |snaps| - 1)
    ensures |probs| == |phases| == Checkpoints(snaps)
    ensures forall i :: i in probs ==>
      |probs[i]| == |phases[i]| == |snaps[i]| &&
      forall k :: 0 <= k < |snaps[i]| ==> probs[i][k] == prob(snaps[i][k]) && phases[i][k] == phase(snaps[i][k])
    ensures probs == Extract(snaps, prob) && phases == Extract(snaps, phase)
  {
    probs, phases := map[], map[];
    var i: nat := 0;
    while i < |snaps| - 1
      invariant i <= Checkpoints(snaps)
      invariant probs == FilledUpTo(snaps, prob, i) && phases == FilledUpTo(snaps, phase, i)
    {
      var p, q := SeriesOf(snaps[i], prob, phase);
      assert p == ApplyAll(snaps[i], prob) && q == ApplyAll(snaps[i], phase);
      probs, phases := probs[i := p], phases[i := q];
      i := i + 1;
    }
    FilledIsExtract(snaps, prob);
    FilledIsExtract(snaps, phase);
    ExtractShape(snaps, prob);
    ExtractShape(snaps, phase);
  }
}
