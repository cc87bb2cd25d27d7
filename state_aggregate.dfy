/**
 * The state-centred aggregate of qaoa.py: collect_states concatenates the per-run
 * results of from_state_to_values run after run, and probability_phase_aggregate
 * reads state i of run j back at index i + len(states) * j.
 */
module StateAggregate {
  import opened Outcomes
  import opened BasisStates
  import opened Ranges
  import opened StateValues
  import Aggregate

  /** A pair of lists of per-label series: (probs_list, phases_list). */
  type SeriesLists = (seq<seq<real>>, seq<seq<real>>)

  /** The lists built by extending with each run's result in turn, or the first exception raised. */
  function Concatenation(results: seq<Result<SeriesLists>>): Result<SeriesLists> {
    if results == [] then Ok(([], []))
    else
      var prev :- Concatenation(results[..|results| - 1]);
      var cur :- results[|results| - 1];
      Ok((prev.0 + cur.0, prev.1 + cur.1))
  }

  /** The result of from_state_to_values on each run's snapshots. */
  function RunResults<A>(runs: seq<seq<seq<A>>>, states: seq<string>, numWires: nat, prob: A -> real, phase: A -> real)
    : (results: seq<Result<SeriesLists>>)
    ensures |results| == |runs|
    ensures forall j :: 0 <= j < |runs| ==> results[j] == StateValuesOf(states, runs[j], numWires, prob, phase)
  {
    seq(|runs|, j requires 0 <= j < |runs| => StateValuesOf(states, runs[j], numWires, prob, phase))
  }

  /** What collect_states returns for the given runs. */
  function CollectedStates<A>(runs: seq<seq<seq<A>>>, states: seq<string>, numWires: nat, prob: A -> real, phase: A -> real)
    : Result<SeriesLists>
  {
    Concatenation(RunResults(runs, states, numWires, prob, phase))
  }

  /** Once a run has failed, the later runs are never reached. */
  lemma {:induction false} ConcatenationErrStays(results: seq<Result<SeriesLists>>, r: nat)
    requires r <= |results| && Concatenation(results[..r]).Err?
    ensures Concatenation(results) == Concatenation(results[..r])
    decreases |results| - r
  {
    if r < |results| {
      var prefix := results[..|results| - 1];
      assert prefix[..r] == results[..r];
      ConcatenationErrStays(prefix, r);
    } else {
      assert results[..r] == results;
    }
  }

  /**
   * collect_states: one simulated run per (gamma, beta) pair of the zip, each converted
   * by from_state_to_values and appended to the lists built so far.
   */
  method CollectStates<A>(gammas: seq<real>, betas: seq<real>, simulate: (real, real) -> seq<seq<A>>,
                          states: seq<string>, numWires: nat, prob: A -> real, phase: A -> real)
    returns (r: Result<SeriesLists>)
    ensures r == CollectedStates(Aggregate.Runs(gammas, betas, simulate), states, numWires, prob, phase)
  {
    ghost var runs := Aggregate.Runs(gammas, betas, simulate);
    ghost var results := RunResults(runs, states, numWires, prob, phase);
    var allProbs: seq<seq<real>> := [];
    var allPhases: seq<seq<real>> := [];
    var k := 0;
    while k < Aggregate.Min(|gammas|, |betas|)
      invariant k <= |runs|
      invariant Concatenation(results[..k]) == Ok((allProbs, allPhases))
    {
      assert results[..k + 1][..k] == results[..k];
      var snaps := simulate(gammas[k], betas[k]);
      var values := FromStateToValues(states, snaps, numWires, prob, phase);
      if values.Err? {
        ConcatenationErrStays(results, k + 1);
        return Err(values.error);
      }
      allProbs := allProbs + values.value.0;
      allPhases := allPhases + values.value.1;
      k := k + 1;
    }
    assert results[..k] == results;
    r := Ok((allProbs, allPhases));
  }

  /** The concatenation succeeds exactly when every run's result does. */
  lemma {:induction false} ConcatenationOk(results: seq<Result<SeriesLists>>)
    ensures Concatenation(results).Ok? <==> forall j :: 0 <= j < |results| ==> results[j].Ok?
  {
    if results != [] {
      var prefix := results[..|results| - 1];
      ConcatenationOk(prefix);
      assert forall j :: 0 <= j < |prefix| ==> prefix[j] == results[j];
    }
  }

  /** Every run's result holds S series in each list. */
  ghost predicate UniformWidth(results: seq<Result<SeriesLists>>, width: nat) {
    forall j :: 0 <= j < |results| && results[j].Ok? ==> |results[j].value.0| == width && |results[j].value.1| == width
  }

  /** With S series per run, both concatenated lists hold R * S entries. */
  lemma {:induction false} ConcatenationLength(results: seq<Result<SeriesLists>>, width: nat)
    requires Concatenation(results).Ok? && UniformWidth(results, width)
    ensures |Concatenation(results).value.0| == |results| * width
    ensures |Concatenation(results).value.1| == |results| * width
  {
    if results != [] {
      var prefix := results[..|results| - 1];
      assert UniformWidth(prefix, width) by {
        assert forall j :: 0 <= j < |prefix| ==> prefix[j] == results[j];
      }
      ConcatenationLength(prefix, width);
      assert |results| * width == |prefix| * width + width;
    }
  }

  /** Entry k of both concatenated lists is entry i of both lists of one run. */
  ghost predicate SameSeriesAt(lists: SeriesLists, k: int, run: SeriesLists, i: nat) {
    && 0 <= k < |lists.0| && k < |lists.1| && i < |run.0| && i < |run.1|
    && lists.0[k] == run.0[i] && lists.1[k] == run.1[i]
  }

  /** Index i + S * j of the concatenation is series i of run j. */
  lemma {:induction false} ConcatenationAt(results: seq<Result<SeriesLists>>, width: nat, i: nat, j: nat)
    requires Concatenation(results).Ok? && UniformWidth(results, width) && i < width && j < |results|
    ensures results[j].Ok?
    ensures SameSeriesAt(Concatenation(results).value, i + width * j, results[j].value, i)
  {
    var prefix := results[..|results| - 1];
    assert UniformWidth(prefix, width) by {
      assert forall t :: 0 <= t < |prefix| ==> prefix[t] == results[t];
    }
    ConcatenationLength(prefix, width);
    BlockBounds(j, |prefix| + 1, width);
    if j < |prefix| {
      assert prefix[j] == results[j];
      BlockBounds(j, |prefix|, width);
      ConcatenationAt(prefix, width, i, j);
    } else {
      assert width * j == |prefix| * width;
    }
  }

  /** The results of from_state_to_values on every run hold one series per label. */
  lemma {:induction false} RunResultsWidth<A>(runs: seq<seq<seq<A>>>, states: seq<string>, numWires: nat, prob: A -> real, phase: A -> real)
    ensures UniformWidth(RunResults(runs, states, numWires, prob, phase), |states|)
  {
    var results := RunResults(runs, states, numWires, prob, phase);
    forall j | 0 <= j < |results| && results[j].Ok?
      ensures |results[j].value.0| == |states| && |results[j].value.1| == |states|
    {
      FromStateToValuesShape(states, runs[j], numWires, prob, phase);
    }
  }

  /** collect_states succeeds exactly when from_state_to_values succeeds on every run. */
  lemma {:induction false} CollectedStatesOk<A>(runs: seq<seq<seq<A>>>, states: seq<string>, numWires: nat, prob: A -> real, phase: A -> real)
    ensures CollectedStates(runs, states, numWires, prob, phase).Ok? <==>
      forall j :: 0 <= j < |runs| ==> StateValuesOf(states, runs[j], numWires, prob, phase).Ok?
  {
    ConcatenationOk(RunResults(runs, states, numWires, prob, phase));
  }

  /** Both lists collect_states returns hold R * S series. */
  lemma {:induction false} CollectedStatesLength<A>(runs: seq<seq<seq<A>>>, states: seq<string>, numWires: nat, prob: A -> real, phase: A -> real)
    requires CollectedStates(runs, states, numWires, prob, phase).Ok?
    ensures |CollectedStates(runs, states, numWires, prob, phase).value.0| == |runs| * |states|
    ensures |CollectedStates(runs, states, numWires, prob, phase).value.1| == |runs| * |states|
  {
    RunResultsWidth(runs, states, numWires, prob, phase);
    ConcatenationLength(RunResults(runs, states, numWires, prob, phase), |states|);
  }

  /** Index i + S * j of what collect_states returns is label i of run j (whose result is run). */
  lemma {:induction false} CollectedStatesAt<A>(runs: seq<seq<seq<A>>>, states: seq<string>, numWires: nat,
                             prob: A -> real, phase: A -> real, i: nat, j: nat, run: SeriesLists)
    requires CollectedStates(runs, states, numWires, prob, phase).Ok? && i < |states| && j < |runs|
    requires StateValuesOf(states, runs[j], numWires, prob, phase) == Ok(run)
    ensures SameSeriesAt(CollectedStates(runs, states, numWires, prob, phase).value, i + |states| * j, run, i)
  {
    var results := RunResults(runs, states, numWires, prob, phase);
    RunResultsWidth(runs, states, numWires, prob, phase);
    ConcatenationAt(results, |states|, i, j);
  }

  /** Every run of a successful collect_states succeeded. */
  lemma {:induction false} CollectedStatesRunOk<A>(runs: seq<seq<seq<A>>>, states: seq<string>, numWires: nat,
                                prob: A -> real, phase: A -> real, j: nat)
    requires CollectedStates(runs, states, numWires, prob, phase).Ok? && j < |runs|
    ensures StateValuesOf(states, runs[j], numWires, prob, phase).Ok?
  {
    CollectedStatesOk(runs, states, numWires, prob, phase);
  }

  /** The series pair read for one state and one run: {"Probability": x, "Phase": y}. */
  type SeriesPair = (seq<real>, seq<real>)

  /** One record of the aggregate JSON: {"State": state, "Values": [...]}. */
  datatype StateRecord = StateRecord(state: string, values: seq<SeriesPair>)

  /** The reads of state i are in range and start a non-empty series (the x[0], y[0] marker). */
  ghost predicate Readable(probsList: seq<seq<real>>, phasesList: seq<seq<real>>, stateCount: nat, i: nat, periods: nat) {
    forall j :: 0 <= j < periods ==>
      && i + stateCount * j < |probsList| && i + stateCount * j < |phasesList|
      && probsList[i + stateCount * j] != [] && phasesList[i + stateCount * j] != []
  }

  /** The inner loop for state i: values.append(...) for each run j, with the reads that can fail. */
  method StateRecordValues(probsList: seq<seq<real>>, phasesList: seq<seq<real>>, stateCount: nat, i: nat, periods: nat)
    returns (r: Result<seq<SeriesPair>>)
    ensures r.Ok? <==> Readable(probsList, phasesList, stateCount, i, periods)
    ensures r.Err? ==> r.error == IndexError
    ensures r.Ok? ==> |r.value| == periods
    ensures r.Ok? ==> forall j :: 0 <= j < periods ==>
      r.value[j] == (probsList[i + stateCount * j], phasesList[i + stateCount * j])
  {
    var values: seq<SeriesPair> := [];
    var j := 0;
    while j < periods
      invariant j <= periods && |values| == j
      invariant Readable(probsList, phasesList, stateCount, i, j)
      invariant forall t :: 0 <= t < j ==> values[t] == (probsList[i + stateCount * t], phasesList[i + stateCount * t])
    {
      var idx := i + stateCount * j;
      if idx >= |probsList| || idx >= |phasesList| {
        return Err(IndexError);
      }
      var x, y := probsList[idx], phasesList[idx];
      if x == [] || y == [] {
        return Err(IndexError);
      }
      values := values + [(x, y)];
      j := j + 1;
    }
    r := Ok(values);
  }

  /** rec is the record for state i: its label and the series pair of each of the periods runs. */
  ghost predicate IsStateRecord(rec: StateRecord, state: string, probsList: seq<seq<real>>, phasesList: seq<seq<real>>,
                                stateCount: nat, i: nat, periods: nat)
  {
    && Readable(probsList, phasesList, stateCount, i, periods)
    && rec.state == state
    && |rec.values| == periods
    && forall j :: 0 <= j < periods ==>
         rec.values[j] == (probsList[i + stateCount * j], phasesList[i + stateCount * j])
  }

  /** The records of all states: for each state, the series pairs of the periods runs. */
  method StateRecords(states: seq<string>, probsList: seq<seq<real>>, phasesList: seq<seq<real>>, periods: nat)
    returns (r: Result<seq<StateRecord>>)
    ensures r.Ok? <==> forall i :: 0 <= i < |states| ==> Readable(probsList, phasesList, |states|, i, periods)
    ensures r.Err? ==> r.error == IndexError
    ensures r.Ok? ==> |r.value| == |states|
    ensures r.Ok? ==> forall i :: 0 <= i < |states| ==>
      IsStateRecord(r.value[i], states[i], probsList, phasesList, |states|, i, periods)
  {
    var results: seq<StateRecord> := [];
    var i := 0;
    while i < |states|
      invariant i <= |states| && |results| == i
      invariant forall p :: 0 <= p < i ==> Readable(probsList, phasesList, |states|, p, periods)
      invariant forall p :: 0 <= p < i ==> IsStateRecord(results[p], states[p], probsList, phasesList, |states|, p, periods)
    {
      var values := StateRecordValues(probsList, phasesList, |states|, i, periods);
      if values.Err? {
        return Err(IndexError);
      }
      results := results + [StateRecord(states[i], values.value)];
      i := i + 1;
    }
    r := Ok(results);
  }

  /**
   * probability_phase_aggregate: the figure is prepared first (its errors come first),
   * then for every state the series pair of each of the len(fixed_params) runs is read
   * at i + len(states) * j.
   */
  method ProbabilityPhaseAggregate(states: seq<string>, probsList: seq<seq<real>>, phasesList: seq<seq<real>>,
                                   fixedParams: seq<real>)
    returns (r: Result<seq<StateRecord>>)
    ensures PrepareProbPhaseFig(|states|, probsList, phasesList).Err? ==> r == Err(PrepareProbPhaseFig(|states|, probsList, phasesList).error)
    ensures PrepareProbPhaseFig(|states|, probsList, phasesList).Ok? ==>
      (r.Ok? <==> forall i :: 0 <= i < |states| ==> Readable(probsList, phasesList, |states|, i, |fixedParams|))
    ensures PrepareProbPhaseFig(|states|, probsList, phasesList).Ok? && r.Err? ==> r.error == IndexError
    ensures r.Ok? ==> |r.value| == |states|
    ensures r.Ok? ==> forall i :: 0 <= i < |states| ==>
      IsStateRecord(r.value[i], states[i], probsList, phasesList, |states|, i, |fixedParams|)
  {
    var nSnapshots := |fixedParams|;
    var fig := PrepareProbPhaseFig(|states|, probsList, phasesList);
    if fig.Err? {
      return Err(fig.error);
    }
    r := StateRecords(states, probsList, phasesList, nSnapshots);
  }
}
