# qaoa-vis: a verified model of its index and layout bookkeeping

qaoa-vis runs the Quantum Approximate Optimisation Algorithm on a small graph. It
records the state vector at every layer checkpoint, then shows the per-basis-state
probabilities and phases in two ways. One way is static matplotlib plots. The
other is an interactive Qt window.

That window has a line chart per metric, a layer slider under each chart, a strip
of layer squares with an arrow on the current layer, and a vis.js view of the
graph. This project models the integer and index bookkeeping that ties these
together:

- **snapshot extraction**: one series per checkpoint snapshot except the last;
- **the multi-run merge**: `collect_snapshots` gives run after run consecutive keys;
- **the checkpoint-major record layout** that `state_metric_aggregate` writes
  behind a header with "Period";
- **the slider window** that the readers compute from that header;
- **basis-state enumeration** and the row-major indexing of the `[2] * n` reshape;
- **range and subplot-grid arithmetic**;
- **the small parsers**: `load_json`, `load_edges` and the vis.js node and edge lists;
- **the geometry** of the layer strip and its arrow.

Every module is checked by Dafny. Its end-to-end result is
`Pipeline.SliderSelectsCheckpoint`. Take R runs of n checkpoints, merged by
`collect_snapshots` and laid out by `state_metric_aggregate`. When `load_json`
loads the file back, the slider spans 0 .. n - 1. Slider value v then sends exactly
checkpoint v of runs 0 .. R - 1, in run order.

Modelling conventions:

- **Amplitudes** are a type parameter. `np.abs(n)**2` and `cmath.phase(n)` are the
  function parameters `prob` and `phase`.
- **The simulation** is a function parameter `simulate(gamma, beta)`, which returns
  the snapshot vectors of one run.
- **Python exceptions** are `Result` values: `ValueError(message)`, `IndexError`,
  `KeyError(key)`, `ZeroDivisionError` and `TypeError`. The exception kind and the
  point where it is raised follow the source; a message is modelled by its fixed
  prefix only (see "## Left out").
- **Python's floor division and modulo**, negative indexing and clamped slicing are
  written out in module `Python`.
- **Geometry** uses integers, because every value the model covers is a whole
  number.

Where the code and its documentation disagree, the model follows the code:

- **"Period"** in the header is `len(fixed_params)`, the number of runs. It is not
  the number of checkpoints. `run_plot_engine` passes `gamma_vals` as
  `fixed_params` (qaoa.py:375-381).
- **The layout is checkpoint-major.** Entry `a * R + r` is checkpoint a of run r.
  The `while j in metric_dict` loop stops at the first missing key.
- **Padding.** `prepare_fig` pads the y range by 10%. `prepare_prob_phase_fig` pads
  by 5%.
- **No wires.** `format(0, '00b')` is `"0"`, so zero wires still give one label.
- **Angle labels.** `draw_arrow_canvas` labels every square with γ, including the
  mixer squares (qaoa_interactive.py:226). `graph_canvas` uses β for those. The
  model keeps both: see `Interactive.LabelsAgreeWithCanvas`.

## Model

| member | source | states |
|---|---|---|
| Aggregate.Runs | qaoa.py:352-354 | one run per pair of `zip(gamma_vals, beta_vals)`, as many as the shorter list, run r simulated from the r-th pair |
| Aggregate.MergedKeys | qaoa.py:349-364 | after merging the runs the keys are exactly 0 .. total checkpoint count - 1, with no gaps and no extra keys |
| Aggregate.MergedAt | qaoa.py:355-362 | checkpoint k of run r sits at key (checkpoints of the earlier runs) + k and holds that checkpoint's series, so no later run overwrites it |
| Aggregate.MergedStep | qaoa.py:352-363 | one more run adds its checkpoints behind those of the runs before it, and `key_offset` grows by that run's checkpoint count |
| Aggregate.CopyShifted | qaoa.py:359-362 | the copy loop writes source key k to `offset + k` for k < n and keeps every other key of the target |
| Aggregate.CollectSnapshots | qaoa.py:349-364 | both returned mappings are the merge of all runs, with keys exactly 0 .. total - 1; `n_snapshots` is the last run's checkpoint count, and 0 when there are no runs |
| Aggregate.ChainAt | qaoa.py:124-135 | the t-th series the `while j in metric_dict` loop visits from j is the one at key j + t * n_snapshots |
| Aggregate.ChainEnd | qaoa.py:126 | the loop stops at the first missing key: one step past the last visited key there is none |
| Aggregate.ChainOfContiguous | qaoa.py:122-135 | with keys 0 .. n * R - 1, the loop for checkpoint i < n visits i, i + n, ..., i + (R - 1) * n: one series per run, in run order |
| Aggregate.LayoutLength | qaoa.py:122-135 | R runs of n checkpoints lay out to i * R entries after the first i checkpoints |
| Aggregate.LayoutAt | qaoa.py:122-135 | the layout is checkpoint-major: entry a * R + r is checkpoint a of run r, which the merge put at key a + r * n |
| Aggregate.AppendChain | qaoa.py:124-135 | one checkpoint's while loop appends one entry per visited key, and raises IndexError exactly when there are more series than `fixed_params` labels |
| Aggregate.StateMetricAggregate | qaoa.py:107-135 | `prepare_fig` errors come first (empty values raise ValueError, no snapshots raise ZeroDivisionError); then IndexError exactly when some chain outruns the labels; otherwise a header with the padded [min, max] and Period = `len(fixed_params)`, then the checkpoint-major layout |
| BasisStates.ListMultiplication | qaoa.py:29-30 | `[base] * n`: n copies of base |
| BasisStates.Binary | qaoa.py:426 | the binary numeral of i is a non-empty bit string with no leading zero |
| BasisStates.Format | qaoa.py:426 | `format(i, '0{w}b')` is a bit string of at least w characters |
| BasisStates.States | qaoa.py:426 | there are 2 ** n labels |
| BasisStates.DigitList | qaoa.py:309 | one digit value per character, in order |
| BasisStates.BinaryValue | qaoa.py:426 | the binary numeral of i reads back as i |
| BasisStates.BitsValueBound | qaoa.py:426 | a list of k bits has a value below 2 ** k |
| BasisStates.FormatValue | qaoa.py:426 | zero padding keeps the value; the padded label has exactly width characters when the numeral fits |
| BasisStates.StateValue | qaoa.py:426 | for n >= 1, label i is an n-character bit string whose binary value is i |
| BasisStates.StatesOfNoWires | qaoa.py:426 | with zero wires there is still one label, `"0"` |
| BasisStates.ValueOrderIsLexOrder | qaoa.py:426 | for bit strings of equal length, a smaller binary value means a string that sorts earlier |
| BasisStates.StatesIncreasing | qaoa.py:426 | the labels are strictly increasing in string order |
| BasisStates.Reshape | qaoa.py:317 | the reshaped tensor has `shape[0]` items on its first axis, and is a scalar exactly for the empty shape |
| BasisStates.ReshapeAt | qaoa.py:317 | indexing the reshape with an in-range index reads the element at the row-major position; an out-of-range index raises IndexError |
| BasisStates.ProductOfTwos | qaoa.py:306 | the `[2] * n` shape holds 2 ** n elements |
| BasisStates.FlatIndexOfBits | qaoa.py:306-317 | for the `[2] * n` shape, an index is in range exactly when it is a bit list, and its row-major position is its binary value |
| DataProcessor.DataProcessor.constructor | qaoa/data_processor.py:5-6 | the object holds the given snapshots |
| DataProcessor.DataProcessor.GetValuesFromSnaps | qaoa/data_processor.py:8-23 | keys 0 .. len(snaps) - 2; series i has one prob (phase) value per amplitude of snapshot i, in vector order; the same mappings as `from_snapshot_to_values` |
| GraphCanvas.Squares | ui/graph_canvas.py:36-63 | n squares for n layers (none when n <= 0), square i at x = 50 + 110 i, y = 100, size 80 |
| GraphCanvas.Labels | ui/graph_canvas.py:21-23 | one label per square: square i is U_C(γ) when even and U_M with the strip's mixer letter when odd, subscripted i div 2 |
| GraphCanvas.LabelsPairUp | ui/graph_canvas.py:45-50 | squares 2k and 2k + 1 are U_C(γ_k) and U_M(β_k): the cost and mixer halves of layer k |
| GraphCanvas.SquaresApart | ui/graph_canvas.py:14-19 | any two squares are at least one gap apart and on the same row, so none overlap |
| GraphCanvas.BaseLine | ui/graph_canvas.py:25-28 | the base line is horizontal through the squares' vertical centre, y = 140 |
| GraphCanvas.BaseLineSpan | ui/graph_canvas.py:25-28 | the line starts half a gap before the first square and ends half a gap after the start of the last square |
| GraphCanvas.ArrowPointsAtSquare | ui/graph_canvas.py:81-98 | the arrow is vertical over the square's centre; the shaft ends at the head's base; the tip is below the shaft and above the square's top edge |
| GraphCanvas.QAOALayerCanvas.constructor | ui/graph_canvas.py:6-10 | a fresh canvas has no squares and no arrow items |
| GraphCanvas.QAOALayerCanvas.UpdateArrow | ui/graph_canvas.py:77-98 | an index at or past the end changes nothing; a negative index counts from the end; one below -len raises IndexError; otherwise the arrow points at that square; squares and labels are untouched |
| GraphCanvas.QAOALayerCanvas.DrawLayers | ui/graph_canvas.py:12-75 | afterwards the scene holds exactly the strip's squares and labels and the base line, and the arrow points at layer 0 (the zero-size placeholder when there are no layers) |
| HtmlPlot.TraceLabel | ui/html_plot.py:29 | `params[i % num_runs]` raises ZeroDivisionError for zero runs and otherwise only IndexError |
| HtmlPlot.TraceLabelCyclic | ui/html_plot.py:29 | with 0 < num_runs <= len(params), trace i is labelled with the parameters of run i mod num_runs |
| HtmlPlot.TracesSpec | ui/html_plot.py:26-36 | one trace per y-list, in order, drawing it over the states with its label; building fails exactly when a label cannot be read, with that label's error |
| HtmlPlot.CreatePlotHtml | ui/html_plot.py:23-98 | the loop that builds the traces and breaks after the first entry gives the page that `PlotPageOf` describes |
| HtmlPlot.PlotPageFirstEntryOnly | ui/html_plot.py:25-37 | entries of `data` after the first have no effect on the page |
| HtmlPlot.PlotPageShape | ui/html_plot.py:23-58 | for well-formed arguments the page has one trace per y-list of the first entry, trace i named `params[i % num_runs]`, and the y axis `y_range[0] .. y_range[1]`; with no entry there are no traces |
| HtmlPlot.PlotPageNoRuns | ui/html_plot.py:29 | zero runs and a non-empty first y-list raise ZeroDivisionError |
| HtmlPlot.Endpoints | ui/html_plot.py:102 | the flattened list holds exactly the endpoints of the edges |
| HtmlPlot.Insert | ui/html_plot.py:102 | inserting into a strictly increasing list keeps it strictly increasing and adds exactly that value |
| HtmlPlot.SortedDistinct | ui/html_plot.py:102 | `sorted(set(xs))` is strictly increasing and holds exactly the values of xs |
| HtmlPlot.Unpack | ui/html_plot.py:105 | `u, v = e` succeeds exactly for pairs; longer tuples give the "too many values" ValueError, shorter ones the "not enough values" ValueError |
| HtmlPlot.NodesOf | ui/html_plot.py:104 | one node per id, in order, labelled `str(id)` |
| HtmlPlot.BuildVisjs | ui/html_plot.py:101-105 | a built page's nodes are the node list of the edges |
| HtmlPlot.NodeListSpec | ui/html_plot.py:102-104 | the nodes are strictly increasing by id, every endpoint is a node, every node is an endpoint, and each label reads back as its id |
| HtmlPlot.BuildVisjsSpec | ui/html_plot.py:101-105 | the page is built exactly when every edge is a pair, and then there is one edge record per input edge in input order; otherwise ValueError |
| Interactive.HeaderSplit | qaoa_interactive.py:12-22 | the header is the first object of the file and the body is the rest, in order; an empty file raises IndexError |
| Interactive.StateNames | qaoa_interactive.py:256 | the states are read from "State", which must be a list of names; a missing key raises KeyError |
| Interactive.NumberAt | qaoa_interactive.py:262 | indexing a JSON list follows Python indexing, and indexing an integer or a name list is a TypeError |
| Interactive.HtmlPlotShape | qaoa_interactive.py:250-295 | a built page draws the first records of the dataset that the slice `dataset[0:Period]` selects: min(Period, len(dataset)) of them for Period >= 0, and len(dataset) + Period (none if that is negative) for a negative Period; trace i shows the states and the y field of record i and is named `Fixed parameters[i]`; the y axis is `Y range[0] .. Y range[1]` |
| Interactive.HtmlPlotMissingKey | qaoa_interactive.py:254-263 | a record of the first group without "State", or without the y key, raises KeyError |
| Interactive.LabelsPairUp | qaoa_interactive.py:222-226 | squares 2k and 2k + 1 are U_C(γ_k) and U_M(γ_k) |
| Interactive.LabelsAgreeWithCanvas | qaoa_interactive.py:226 | for every strip length the interactive strip matches the canvas strip square for square in operator and layer, and a label differs exactly on the mixer squares |
| Interactive.InteractiveWindow.constructor | qaoa_interactive.py:12-22 | the window holds both headers and both bodies and has built nothing yet |
| Interactive.InteractiveWindow.CreateHtmlPlot | qaoa_interactive.py:250-295 | `html_content` becomes the page of the first Period records; when building it raises, `html_content` is left as it was |
| Interactive.InteractiveWindow.UpdateArrowPosition | qaoa_interactive.py:176-200 | a no-op before the squares exist or for an index at or past the end; IndexError below -len, with the arrow unchanged; otherwise the arrow line and head point at that square, negative indices counted from the end |
| Interactive.InteractiveWindow.DrawArrowCanvas | qaoa_interactive.py:204-247 | one square per position of the top slider, labelled with γ throughout, and the arrow on layer 0 |
| Interactive.InteractiveWindow.SliderUpdateTop | qaoa_interactive.py:312-319 | the label shows the layer; when the slider window over the probability body raises (KeyError, ZeroDivisionError) that error is raised, nothing is sent and the arrow stays; otherwise the chart is sent exactly the "Probability" fields of the window, and the arrow then moves as `update_arrow_position` does: unchanged before the squares exist or past the end, IndexError and unchanged below -len, otherwise line and head on that square |
| Interactive.InteractiveWindow.SliderUpdateBottom | qaoa_interactive.py:322-329 | the same for the phase body and its "Phase" fields |
| Interactive.InteractiveWindow.LoadGraphJs | qaoa_interactive.py:106-163 | a missing graph file leaves the view as it was and raises nothing; otherwise the view holds the vis.js page of the parsed edges, or the parse or unpack error is raised and the view is unchanged |
| Interactive.InteractiveWindow.SetupCharts | qaoa_interactive.py:51-76 | the outcome is `ChartsOutcome`: the top page from the probability body and header, the top slider, the bottom page from the phase body and header, the bottom slider; each page takes its own header's Period, and both slider ranges use the probability header's Period; a missing Period raises KeyError and Period 0 fails; on success both pages and ranges are built and the captions read "Layer 0 (Probability)" and "Layer 0 (Phase)" |
| Interactive.InteractiveWindow.Setup | qaoa_interactive.py:41-102 | `__init__` builds the charts and sliders, then the layer strip sized by the top slider, then the graph view; a chart failure is `ChartsOutcome`'s error, and after the charts the outcome is the graph page's (`GraphOutcome`); on success everything is built, with the initial captions |
| Interactive.InteractiveWindow.SetupCanvasAndGraph | qaoa_interactive.py:93-102 | the layer strip is always built; the call succeeds exactly when there is no graph file or its page builds, the page's error otherwise, and the graph view is built on success |
| Interactive.GraphOfErrors | qaoa_interactive.py:106-163 | every failure of the graph page is a ValueError; once every line parses, the page is the vis.js page of the parsed edges |
| Interactive.GraphOutcome | qaoa_interactive.py:102-163 | `load_graph_js` succeeds exactly when there is no graph file or the vis.js page of its lines builds, and otherwise raises the page's error |
| Interactive.ChartsOutcome | qaoa_interactive.py:51-80 | the chart half of `__init__` succeeds exactly when the probability header's Period is a non-zero integer and both pages build; otherwise the error of the first failing step: the Period read, the top page, ZeroDivisionError for Period 0, then the bottom page |
| Loader.LoadJson | data/loader.py:4-7 | the header followed by the body is the loaded array; the empty array raises IndexError |
| Loader.LoadJsonBody | data/loader.py:7 | the body is every element but the first, in order |
| Loader.ParseField | data/loader.py:12 | `int(field)` succeeds exactly when the text is a base-10 integer, and otherwise raises ValueError |
| Loader.ParseEdgeLength | data/loader.py:12 | a parsed line has one entry per comma plus one, so its length is not checked |
| Loader.ParseEdgeLine | data/loader.py:12 | the line `str(u),str(v)` with its newline reads back as the pair (u, v) |
| Loader.ParseEdgesError | data/loader.py:12 | any failing line fails with the integer parse's ValueError |
| Loader.LoadEdges | data/loader.py:9-14 | a missing file gives `[]`; otherwise one tuple per line, in file order, exactly when every line parses; a bad field is not caught |
| Loader.LoadEdgesOfPairs | data/loader.py:9-14 | a file written as `u,v` lines loads back as its pairs, in order |
| MainWindow.SliderMaximum | ui/main_window.py:39 | `len(data) // period - 1` raises ZeroDivisionError exactly for period 0; for period > 0, m + 1 whole windows fit in the data and m + 2 do not |
| MainWindow.SliderMaximumOfLayers | ui/main_window.py:39 | n layers of period records give the slider range 0 .. n - 1 |
| MainWindow.WindowInsideData | ui/main_window.py:54-55 | at every slider position the window `value * period .. + period` lies inside the data |
| MainWindow.SliderIndices | ui/main_window.py:54-55 | period indices, each a valid index into the data; ZeroDivisionError exactly when there is no data to wrap around |
| MainWindow.SliderIndicesCongruent | ui/main_window.py:55 | index i is `value * period + i` reduced modulo the data length |
| MainWindow.SliderIndicesContiguous | ui/main_window.py:54-55 | within the slider range there is no wrap-around: the window is one contiguous block |
| MainWindow.FieldAt | ui/main_window.py:56 | `data[idx][key]` for an index in range is the key lookup on that record |
| MainWindow.SliderValuesSpec | ui/main_window.py:54-56 | the values are `data[idx][key]` in window order; KeyError exactly when a record of the window lacks the key; ZeroDivisionError with no data |
| MainWindow.SliderValuesOfLayer | ui/main_window.py:52-56 | within the slider range, layer v sends `data[v * period + i][key]` for i < period |
| MainWindow.LayerLabel | ui/main_window.py:53 | the label starts with "Layer: " |
| MainWindow.LayerLabelValue | ui/main_window.py:53 | the layer number reads back from the label |
| MainWindow.SetupLinecharts | ui/main_window.py:34-39 | a header without Period raises KeyError and a non-integer Period TypeError; otherwise the slider maximum is `SliderMaximum(len(data), Period)`, that is `len(data) // Period - 1`, and ZeroDivisionError for Period 0 |
| MainWindow.SetupLinechartsOfLayers | ui/main_window.py:34-39 | with Period = R > 0 and n layers of R records, the slider spans 0 .. n - 1 |
| Pipeline.TotalSizeUniform | qaoa.py:349-364 | R runs of n checkpoints hold R * n checkpoints together |
| Pipeline.MergedUniform | qaoa.py:349-364 | merging R runs of n checkpoints gives exactly the keys 0 .. n * R - 1 |
| Pipeline.MergedUniformAt | qaoa.py:355-362 | checkpoint k of run r of uniform runs sits at key k + r * n |
| Pipeline.SliderReadsLayout | ui/main_window.py:30-56 | a file laid out with Period R and R runs of n checkpoints loads into header and body, the slider spans 0 .. n - 1, and slider value v sends key v + r * n for r = 0 .. R - 1 |
| Pipeline.SliderSelectsCheckpoint | qaoa.py:349-391 | end to end from the simulated runs: the reported n_snapshots is n, and slider value v shows exactly checkpoint v of every run, in run order |
| Python.FloorDiv | ui/main_window.py:39 | `a // b` rounds toward minus infinity: the quotient q is bracketed by q * b and q * b + b |
| Python.FloorMod | ui/html_plot.py:29 | `a % b` completes the floor division and takes the divisor's sign |
| Python.Index | ui/graph_canvas.py:81 | `s[j]` succeeds exactly for -len <= j < len, counting negative indices from the end; otherwise IndexError |
| Python.Slice | qaoa_interactive.py:251 | a slice never fails, is no longer than the list, and is the plain sub-range for in-range bounds |
| Python.SliceFromStart | qaoa_interactive.py:251 | `s[0:stop]` is a prefix of s, of length min(stop, len) for non-negative stop and len + stop for a negative stop |
| Ranges.SeqMin | qaoa.py:36 | `min` of a non-empty list is an element of it and no larger than any element |
| Ranges.SeqMax | qaoa.py:36 | `max` of a non-empty list is an element of it and no smaller than any element |
| Ranges.BoundsUnique | qaoa.py:32-36 | the least and greatest value are determined by the mapping, whatever order the keys are visited in |
| Ranges.GetMinMax | qaoa.py:32-36 | ValueError exactly when there is no value at all; otherwise the least and the greatest value of all series |
| Ranges.Pad | qaoa.py:84-87 | each side grows by exactly fraction * (hi - lo); the padded range contains [lo, hi] and has zero width exactly when hi == lo |
| Ranges.CeilSqrt | qaoa.py:89 | `ceil(sqrt(n))` is the least c with c * c >= n |
| Ranges.CeilDivBounds | qaoa.py:90 | with c * c >= n, the row count `ceil(n / c)` gives enough axes, leaves no row wholly unused, and is between 1 and c |
| Ranges.SubplotGrid | qaoa.py:89-90 | ZeroDivisionError exactly with no plots; otherwise there are enough axes, no row is wholly unused, and rows <= cols |
| Ranges.DeletedAxes | qaoa.py:291-292 | the deleted axes are exactly n .. rows * cols - 1, in order, fewer than one row |
| Ranges.PrepareFig | qaoa.py:83-105 | an all-empty mapping raises in `min`; no plots raise ZeroDivisionError; otherwise the grid for the plot count and the 10%-padded [min, max], which holds every value |
| Ranges.Flatten | qaoa.py:209-210 | the flattened list holds exactly the values of the series |
| Ranges.PaddedRange | qaoa.py:211-218 | the result is `Pad` of the least and the greatest element of the non-empty list, so it holds every element |
| Ranges.SeriesRange | qaoa.py:209-218 | None exactly when there is no value; otherwise `Pad` of the least and the greatest value of all series, which holds every value |
| Ranges.PrepareProbPhaseFig | qaoa.py:199-220 | ZeroDivisionError with no states; ValueError exactly when either list has no value; otherwise the grid, and as x and y ranges `Pad` with 5% of the least and greatest probability and phase, which hold every probability and every phase |
| Records.Get | qaoa_interactive.py:52 | `rec[key]` is the field, or KeyError exactly when the key is missing |
| Records.GetCount | qaoa_interactive.py:52 | a Period read as an integer succeeds exactly when the field is an integer, and gives it; a missing key raises KeyError and a field of another shape TypeError |
| Records.Entries | qaoa.py:128-133 | one `{"State", key}` entry per series, in order |
| Snapshots.ApplyAll | qaoa.py:180-183 | one value per amplitude, in vector order |
| Snapshots.ExtractShape | qaoa.py:171-196 | keys exactly 0 .. len(snaps) - 2, and each series has one value per amplitude of its snapshot |
| Snapshots.FilledIsExtract | qaoa.py:177-183 | once the loop has filled every checkpoint its mapping is the extraction |
| Snapshots.SeriesOf | qaoa.py:180-183 | the inner loop appends `prob(n)` and `phase(n)` for every amplitude n, in order |
| Snapshots.FromSnapshotToValues | qaoa.py:171-196 | keys exactly 0 .. len(snaps) - 2; series i is prob (phase) of every amplitude of snapshot i, in vector order; the last snapshot is not read |
| StateAggregate.RunResults | qaoa.py:339-346 | one `from_state_to_values` result per run, in run order |
| StateAggregate.CollectStates | qaoa.py:337-347 | the lists built by extending with each run's result in turn, or the first run's exception |
| StateAggregate.ConcatenationOk | qaoa.py:339-346 | the concatenation succeeds exactly when every run's result does |
| StateAggregate.ConcatenationLength | qaoa.py:339-346 | with S series per run both lists hold R * S series |
| StateAggregate.ConcatenationAt | qaoa.py:339-346 | index i + S * j of the concatenation is series i of run j |
| StateAggregate.CollectedStatesOk | qaoa.py:337-347 | `collect_states` succeeds exactly when `from_state_to_values` succeeds on every run |
| StateAggregate.CollectedStatesLength | qaoa.py:337-347 | both returned lists hold R * S series for R runs and S labels |
| StateAggregate.CollectedStatesAt | qaoa.py:337-347 | index i + S * j of the returned lists is label i of run j |
| StateAggregate.CollectedStatesRunOk | qaoa.py:337-347 | every run of a successful `collect_states` succeeded |
| StateAggregate.StateRecordValues | qaoa.py:267-281 | for state i, one series pair per run j read at i + S * j; IndexError exactly when a read is out of range or starts an empty series |
| StateAggregate.StateRecords | qaoa.py:264-281 | one record per state with its label and the series pair of each run; IndexError exactly when some read fails |
| StateAggregate.ProbabilityPhaseAggregate | qaoa.py:258-300 | figure errors come first; then, with `n_snapshots = len(fixed_params)` runs, the records of `StateRecords`; IndexError otherwise |
| StateValues.BitsOf | qaoa.py:309 | `[int(bit) for bit in state]` succeeds exactly for an all-digit label and gives its digits; otherwise ValueError |
| StateValues.StatesBits | qaoa.py:309 | bit lists of all labels in order exactly when every label is all digits; otherwise ValueError |
| StateValues.ReshapeIndexOfBits | qaoa.py:317 | with no wires the shape is empty and `reshape()` raises TypeError; otherwise a vector not of size 2 ** n cannot be reshaped (ValueError), a non-bit index raises IndexError, and a bit list reads the amplitude at its binary value |
| StateValues.StateRow | qaoa.py:311-319 | the loop filling the zero arrays gives prob and phase of the label's amplitude series, or that series' error |
| StateValues.FromStateToValues | qaoa.py:302-335 | the method gives `(probs_list, phases_list)` as `StateValuesOf` describes, or its first exception |
| StateValues.AmplitudesOfBits | qaoa.py:314-319 | "Wrong shape" as soon as a checkpoint is read with a label of the wrong length, and TypeError with no wires and an empty label; otherwise success exactly when there is a wire, the bits are 0/1 and every vector read has 2 ** n entries |
| StateValues.FromStateToValuesOk | qaoa.py:302-335 | success exactly when every label parses and there are no labels, or only one snapshot, or there is at least one wire, every label fits the wires and every vector read has 2 ** n entries |
| StateValues.StateAmplitudesShape | qaoa.py:311-319 | one series per label, each with one amplitude per checkpoint but the last |
| StateValues.StateAmplitudesAt | qaoa.py:314-319 | amplitude c of label q is snapshot c at the label's binary value |
| StateValues.FromStateToValuesShape | qaoa.py:302-335 | both lists hold one series per label with one entry per checkpoint but the last |
| StateValues.FromStateToValuesAt | qaoa.py:314-319 | entry c of label q is prob (phase) of snapshot c's amplitude at the label's binary value |
| StateValues.WrongShapeRaised | qaoa.py:315-316 | with at least one checkpoint, well-sized vectors and bit-only labels, a label of the wrong length raises "Wrong shape" when there is a wire; with no wires an empty label before it may raise TypeError instead |
| StateValues.NoCheckWithoutCheckpoints | qaoa.py:312-319 | with a single snapshot nothing is read, so any all-digit labels succeed with empty series |
| StateValues.StatesSelectAmplitudes | qaoa.py:302-335 | with the labels `format(i, '0{n}b')`, label i selects amplitude i of every checkpoint |
| Text.Strip | data/loader.py:12 | the stripped text is a slice of the input with only whitespace before and after it, and it neither starts nor ends with whitespace, so exactly the leading and trailing whitespace is removed |
| Text.Split | data/loader.py:12 | one piece more than there are separators; no piece holds the separator; joining the pieces gives back the text |
| Text.SplitTwo | data/loader.py:12 | two separator-free pieces joined by the separator split back into those pieces |
| Text.StripLine | data/loader.py:12 | strip removes the newline of a line that has no other surrounding whitespace |
| Text.ParseInt | data/loader.py:12 | a successful `int()` was given a text that is not blank |
| Text.ParseIntChar | qaoa.py:309 | `int(c)` of one character succeeds exactly for a decimal digit and gives its value |
| Text.IntToString | ui/html_plot.py:104 | `str(i)` is a non-empty run of digits and a minus sign, with no surrounding whitespace |
| Text.ParseIntToString | ui/html_plot.py:104 | `int(str(i)) == i` |

## Left out

- The quantum simulation and optimisation (`run_qaoa_for_graph` and all of
  qaoa/qaoa.py) are PennyLane circuits. The model takes each run's snapshot vectors
  as the parameter `simulate`.
- The numeric values of `np.abs(n)**2` and `cmath.phase(n)` are complex floating
  point. They are the function parameters `prob` and `phase`. Nothing is claimed
  about their values, such as the probabilities summing to one.
- Floating point in general is modelled as exact `real` arithmetic. This covers the
  padding, `min` and `max`.
- Ranges.CeilSqrt: `math.ceil(math.sqrt(n))` is computed exactly. The float
  square root could round differently for very large n.
- Ranges.CeilDivBounds and Ranges.SubplotGrid: the row count `math.ceil(num_plots / cols)`
  is an exact integer ceiling. Python divides in floating point, which could round
  differently for very large counts.
- NaN is left out: the order properties of `min` and `max` assume values without
  NaN.
- I/O is outside the model: file reads, `json.load` and `json.dump`, matplotlib
  drawing, `savefig`, `os.makedirs`, and the `save_json` branches of
  `from_snapshot_to_values` and `from_state_to_values`. The loaders take the decoded
  array, or the file's lines with `None` for a missing file.
- Aggregate.StateMetricAggregate and StateAggregate.ProbabilityPhaseAggregate do not
  model matplotlib's ValueError for `ax.plot` on lists of different lengths
  (qaoa.py:128, where a metric series is shorter or longer than the state list, for
  instance when graph.txt's node ids are not 0 .. k - 1; and qaoa.py:274). The model
  returns its records in those cases where the source raises.
- The positions of the layer labels (ui/graph_canvas.py:56-60,
  qaoa_interactive.py:232-235) centre Qt's rendered text box in the square; they
  depend on font metrics and are fractional, so the labels are modelled by their
  text only.
- Qt widgets, `QWebEngineView`, `runJavaScript` and the exact Plotly and vis.js page
  text are UI and foreign libraries. The model keeps the structural content: traces,
  labels, ranges, nodes and edges, and the values sent to `updateData`.
- `state_metric`, `probability_phase` (apart from its deleted axes, which
  `Ranges.DeletedAxes` covers), `draw_circuit`, `run_plot_engine`'s argument
  plumbing and the test drivers only draw or dispatch.
- `add_edge`, the dialogs in ui/edit_widow.py and ui/init_window.py, and
  ui/graph_node.py build widgets, and their only logic is `float()` and `int()` text
  parsing.
- ui/main_window.py:35 calls `create_plot_html` with arguments that do not match its
  definition at ui/html_plot.py:23, so that call is not modelled.
  `MainWindow.SetupLinecharts` models the Period read and the slider range only.
- `animate_update` (qaoa_interactive.py:298-309) uses the undefined
  `self.current_index` and `data`, so it is not modelled.
- Ranges.PrepareFig: modelled with `y_range_bool` set. With it clear, `y_range` is
  unbound at return and the function raises `UnboundLocalError`. Every caller sets
  the flag.
- Interactive.InteractiveWindow.CreateHtmlPlot: `current_index_top` is fixed at 0,
  as `__init__` sets it. Nothing in the source changes it.
- Dictionary order: the model reads `metric_dict` by key, so `get_min_max`'s visiting
  order does not matter (`Ranges.BoundsUnique`).
- Record fields are five shapes: numbers, names, a two-number interval, an integer
  and a missing key. JSON values of any other shape are left out.
  - Interactive.StateNames requires "State" to hold a list of names. Any other field
    shape gives TypeError.
  - Interactive.NumberAt does not model `str()` of a non-number.
  - A non-integer Period is a TypeError in the model. Python raises TypeError for a
    float Period too, but at a later point: at the slice at qaoa_interactive.py:251,
    and in ui/main_window.py at `range(period)` or at `setMaximum`, which takes an
    int. The `//` itself accepts a float.
- Text.ParseInt, Text.Strip and Loader.LoadEdges: `int()` is modelled on ASCII
  digits, an optional sign and ASCII whitespace, and `str.strip()` in `load_edges`
  on ASCII whitespace. Unicode digits, underscores between digits and Unicode
  whitespace are left out.
- HtmlPlot.Unpack: the unpacking messages are modelled up to their fixed prefixes
  ("too many values to unpack", "not enough values to unpack"). The counts Python
  appends are left out.
- Loader.ParseField, Loader.ParseEdge, Loader.LoadEdges, StateValues.ParseBit and
  StateValues.BitsOf: int()'s message is modelled as its fixed prefix
  `Text.InvalidLiteral` ("invalid literal for int() with base 10"). The quoted text
  Python appends is left out.
- Ranges.GetMinMax, Ranges.PrepareFig, Ranges.PrepareProbPhaseFig and
  Aggregate.StateMetricAggregate: the ValueError of `min()` on an empty list carries
  the message of Python 3.11 and earlier, "min() arg is an empty sequence"; later
  versions word it differently.
- StateValues.ReshapeIndex: NumPy's reshape message is modelled as its fixed prefix
  "cannot reshape array". The array size and target shape NumPy appends are left
  out.
- `hasattr(self, "squares")` in `update_arrow_position` is modelled as an `Option`
  field, which is None until `draw_arrow_canvas` runs.
