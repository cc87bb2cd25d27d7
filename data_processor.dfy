/** qaoa/data_processor.py: the DataProcessor object that holds one run's snapshots. */
module DataProcessor {
  import opened Snapshots

  class DataProcessor<A> {
    /** The snapshot vectors of one run (self.snaps). */
    var snaps: seq<seq<A>>

    constructor (snaps: seq<seq<A>>)
      ensures this.snaps == snaps
    {
      this.snaps := snaps;
    }

    /**
     * get_values_from_snaps(): the same mappings as from_snapshot_to_values(self.snaps)
     * without its JSON dump. It has no modifies clause, so self.snaps is left as it was.
     */
    method GetValuesFromSnaps(prob: A -> real, phase: A -> real) returns (probs: MetricMap, phases: MetricMap)
      ensures HasKeys(probs, |snaps| - 1) && HasKeys(phases, |snaps| - 1)
      ensures |snaps| < 2 ==> probs == map[] && phases == map[]
      ensures forall i :: i in probs ==>
        |probs[i]| == |phases[i]| == |snaps[i]| &&
        forall k :: 0 <= k < |snaps[i]| ==> probs[i][k] == prob(snaps[i][k]) && phases[i][k] == phase(snaps[i][k])
      ensures probs == Extract(snaps, prob) && phases == Extract(snaps, phase)
    {
      probs, phases := FromSnapshotToValues(snaps, prob, phase);
    }
  }
}
