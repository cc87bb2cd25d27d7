/**
 * The reader side of ui/main_window.py: the slider of a linechart spans the layers
 * of the loaded records, and moving it to `value` selects the `period` records
 * value * period .. value * period + period - 1 (wrapping around the data).
 */
module MainWindow {
  import opened Outcomes
  import opened Text
  import opened Records
  import opened Python

  /** setMaximum(len(data) // period - 1); a zero period divides by zero. */
  function SliderMaximum(dataLen: nat, period: int): (r: Result<int>)
    ensures r.Err? <==> period == 0
    ensures r.Err? ==> r.error == ZeroDivisionError
    ensures period > 0 ==> r.Ok? && (r.value + 1) * period <= dataLen < (r.value + 2) * period
  {
    if period == 0 then Err(ZeroDivisionError) else Ok(FloorDiv(dataLen, period) - 1)
  }

  /** A whole number of layers of `period` records gives one slider position per layer. */
  lemma {:induction false} SliderMaximumOfLayers(layers: nat, period: int)
    requires period > 0
    ensures SliderMaximum(layers * period, period) == Ok(layers - 1)
  {
    var v := SliderMaximum(layers * period, period).value;
    MulOrder(layers, v + 1, period);
    MulOrder(v + 2, layers, period);
  }

  lemma {:induction false} MulOrder(a: int, b: int, p: int)
    requires p > 0
    ensures a <= b ==> a * p <= b * p
    ensures a < b ==> a * p < b * p
  {
    if a <= b {
      MulNonNegative(b - a, p);
      assert (b - a) * p == b * p - a * p;
    }
    if a < b {
      MulNonNegative(b - a - 1, p);
      assert (b - a - 1) * p == b * p - a * p - p;
    }
  }

  lemma {:induction false} MulNonNegative(d: int, p: int)
    requires d >= 0 && p > 0
    ensures d * p >= 0
  {
  }

  /** Every position the slider can take ends its window inside the data. */
  lemma {:induction false} WindowInsideData(value: int, period: int, dataLen: nat)
    requires period > 0
    requires 0 <= value <= SliderMaximum(dataLen, period).value
    ensures 0 <= value * period && value * period + period <= dataLen
  {
    var m := SliderMaximum(dataLen, period).value;
    MulOrder(value + 1, m + 1, period);
    assert (value + 1) * period == value * period + period;
    MulNonNegative(value, period);
  }

  /** [(value * period + i) % len(data) for i in range(period)]. */
  function SliderIndices(value: int, period: int, dataLen: nat): (r: Result<seq<int>>)
    ensures r.Err? <==> period > 0 && dataLen == 0
    ensures r.Err? ==> r.error == ZeroDivisionError
    ensures r.Ok? ==> |r.value| == if period > 0 then period else 0
    ensures r.Ok? ==> forall i :: 0 <= i < |r.value| ==> 0 <= r.value[i] < dataLen
  {
    if period <= 0 then Ok([])
    else if dataLen == 0 then Err(ZeroDivisionError)
    else Ok(seq(period, i => (value * period + i) % dataLen))
  }

  /** Index i of the window is congruent to value * period + i modulo the data length. */
  lemma {:induction false} SliderIndicesCongruent(value: int, period: int, dataLen: nat, i: int)
    requires SliderIndices(value, period, dataLen).Ok?
    requires 0 <= i < |SliderIndices(value, period, dataLen).value|
    ensures dataLen > 0
    ensures SliderIndices(value, period, dataLen).value[i] == value * period + i - dataLen * FloorDiv(value * period + i, dataLen)
  {
    FloorModPositive(value * period + i, dataLen);
  }

  /** Within the slider range there is no wrap-around: the window is one contiguous block. */
  lemma {:induction false} SliderIndicesContiguous(value: int, period: int, dataLen: nat)
    requires period > 0
    requires 0 <= value <= SliderMaximum(dataLen, period).value
    ensures SliderIndices(value, period, dataLen) == Ok(Window(value * period, period))
  {
    WindowInsideData(value, period, dataLen);
    var start := value * period;
    var r := SliderIndices(value, period, dataLen).value;
    forall i | 0 <= i < period
      ensures r[i] == start + i
    {
      assert r[i] == (start + i) % dataLen;
      ModOfSmall(start + i, dataLen);
    }
    assert r == Window(start, period);
  }

  lemma {:induction false} ModOfSmall(x: int, n: int)
    requires 0 <= x < n
    ensures x % n == x
  {
  }

  /** The indices start, start + 1, ..., start + count - 1. */
  function Window(start: int, count: nat): (w: seq<int>)
    ensures |w| == count
    ensures forall i :: 0 <= i < count ==> w[i] == start + i
  {
    seq(count, i => start + i)
  }

  /** data[idx][key], with Python's IndexError and KeyError. */
  function FieldAt(data: seq<Record>, idx: int, key: string): (r: Result<Field>)
    ensures 0 <= idx < |data| ==> r == Get(data[idx], key)
  {
    var rec :- Index(data, idx);
    Get(rec, key)
  }

  function FieldOf(data: seq<Record>, key: string): int -> Result<Field> {
    idx => FieldAt(data, idx, key)
  }

  /** [data[idx][key] for idx in next_indices] for the window the slider at `value` selects. */
  function SliderValues(data: seq<Record>, value: int, period: int, key: string): Result<seq<Field>> {
    var indices :- SliderIndices(value, period, |data|);
    MapResult(indices, FieldOf(data, key))
  }

  /**
   * The values sent to the page are data[idx][key] in window order; the update fails
   * with KeyError when a record of the window lacks the key, and with
   * ZeroDivisionError when there is no data to wrap around.
   */
  lemma {:induction false} SliderValuesSpec(data: seq<Record>, value: int, period: int, key: string)
    ensures SliderIndices(value, period, |data|).Err? ==> SliderValues(data, value, period, key) == Err(ZeroDivisionError)
    ensures SliderIndices(value, period, |data|).Ok? ==>
              var indices := SliderIndices(value, period, |data|).value;
              && (SliderValues(data, value, period, key).Ok? <==> forall k :: 0 <= k < |indices| ==> key in data[indices[k]])
              && (SliderValues(data, value, period, key).Ok? ==>
                    && |SliderValues(data, value, period, key).value| == |indices|
                    && forall k :: 0 <= k < |indices| ==> SliderValues(data, value, period, key).value[k] == data[indices[k]][key])
              && (SliderValues(data, value, period, key).Err? ==> SliderValues(data, value, period, key).error == KeyError(key))
  {
    if SliderIndices(value, period, |data|).Ok? {
      var indices := SliderIndices(value, period, |data|).value;
      var f := FieldOf(data, key);
      MapResultSpec(indices, f);
      assert forall k :: 0 <= k < |indices| ==> f(indices[k]) == Get(data[indices[k]], key);
      if MapResult(indices, f).Err? {
        MapResultError(indices, f);
      }
    }
  }

  /** Within the slider range, layer `value` sends data[value * period + i][key] for i < period. */
  lemma {:induction false} SliderValuesOfLayer(data: seq<Record>, value: int, period: int, key: string, start: int)
    requires period > 0 && start == value * period
    requires 0 <= value <= SliderMaximum(|data|, period).value
    requires forall j :: 0 <= j < |data| && start <= j < start + period ==> key in data[j]
    ensures 0 <= start && start + period <= |data|
    ensures SliderValues(data, value, period, key).Ok?
    ensures |SliderValues(data, value, period, key).value| == period
    ensures forall i :: 0 <= i < period ==> SliderValues(data, value, period, key).value[i] == data[start + i][key]
  {
    WindowInsideData(value, period, |data|);
    SliderIndicesContiguous(value, period, |data|);
    SliderValuesSpec(data, value, period, key);
    var w := Window(start, period);
    assert forall k :: 0 <= k < period ==> key in data[w[k]];
  }

  /** slider_label.setText(f"Layer: {value}"). */
  function LayerLabel(value: int): (r: string)
    ensures |r| > 7 && r[..7] == "Layer: "
  {
    "Layer: " + IntToString(value)
  }

  /** The layer number can be read back from the label. */
  lemma {:induction false} LayerLabelValue(value: int)
    ensures ParseInt(LayerLabel(value)[7..]) == Some(value)
  {
    assert LayerLabel(value)[7..] == IntToString(value);
    ParseIntToString(value);
  }

  /**
   * setup_linecharts: the slider maximum len(data) // period - 1 for the loaded body
   * `data` and its header `params`; "Period" must be an integer.
   */
  function SetupLinecharts(data: seq<Record>, params: Record): (r: Result<int>)
    ensures PeriodKey !in params ==> r == Err(KeyError(PeriodKey))
    ensures PeriodKey in params && !params[PeriodKey].Count? ==> r == Err(TypeError)
    ensures PeriodKey in params && params[PeriodKey].Count? ==> r == SliderMaximum(|data|, params[PeriodKey].n)
  {
    var period :- GetCount(params, PeriodKey);
    SliderMaximum(|data|, period)
  }

  /** With a header "Period" of R > 0 runs and n layers of R records, the slider spans 0 .. n - 1. */
  lemma {:induction false} SetupLinechartsOfLayers(layers: nat, data: seq<Record>, params: Record)
    requires PeriodKey in params && params[PeriodKey].Count? && params[PeriodKey].n > 0
    requires |data| == layers * params[PeriodKey].n
    ensures SetupLinecharts(data, params) == Ok(layers - 1)
  {
    SliderMaximumOfLayers(layers, params[PeriodKey].n);
  }
}
