/**
 * The JSON records the aggregate writers emit and the slider readers load: one
 * header object, then one object per plotted series.
 */
module Records {
  import opened Outcomes

  /** The JSON values that occur in the records. */
  datatype Field =
    | Numbers(values: seq<real>)
    | Names(names: seq<string>)
    | Interval(lo: real, hi: real)
    | Count(n: int)

  /** A JSON object. */
  type Record = map<string, Field>

  const YRangeKey: string := "Y range"
  const PeriodKey: string := "Period"
  const FixedParamsKey: string := "Fixed parameters"
  const StateKey: string := "State"
  const MetricKey: string := "Metric"
  const ProbabilityKey: string := "Probability"
  const PhaseKey: string := "Phase"

  /** rec[key]: the field, or KeyError when the object has no such key. */
  function Get(rec: Record, key: string): (r: Result<Field>)
    ensures r.Ok? <==> key in rec
    ensures r.Ok? ==> r.value == rec[key]
    ensures r.Err? ==> r.error == KeyError(key)
  {
    if key in rec then Ok(rec[key]) else Err(KeyError(key))
  }

  /** rec[key] used as an integer; any other JSON value is a TypeError there. */
  function GetCount(rec: Record, key: string): (r: Result<int>)
    ensures r.Ok? <==> key in rec && rec[key].Count?
    ensures r.Ok? ==> rec[key] == Count(r.value)
    ensures key !in rec ==> r == Err(KeyError(key))
    ensures key in rec && !rec[key].Count? ==> r == Err(TypeError)
  {
    var f :- Get(rec, key);
    if f.Count? then Ok(f.n) else Err(TypeError)
  }

  /** The header object {"Y range", "Period", "Fixed parameters"}. */
  function HeaderRecord(yRange: (real, real), period: nat, fixedParams: seq<real>): Record {
    map[YRangeKey := Interval(yRange.0, yRange.1), PeriodKey := Count(period), FixedParamsKey := Numbers(fixedParams)]
  }

  /** One plotted series {"State": states, key: ys}. */
  function EntryRecord(states: seq<string>, key: string, ys: seq<real>): Record
    requires key != StateKey
  {
    map[StateKey := Names(states), key := Numbers(ys)]
  }

  /** One entry per series, in order. */
  function Entries(states: seq<string>, key: string, series: seq<seq<real>>): (r: seq<Record>)
    requires key != StateKey
    ensures |r| == |series|
    ensures forall k :: 0 <= k < |r| ==> r[k] == EntryRecord(states, key, series[k])
  {
    seq(|series|, k requires 0 <= k < |series| => EntryRecord(states, key, series[k]))
  }

  lemma {:induction false} EntriesAppend(states: seq<string>, key: string, a: seq<seq<real>>, b: seq<seq<real>>)
    requires key != StateKey
    ensures Entries(states, key, a + b) == Entries(states, key, a) + Entries(states, key, b)
  {
  }
}
