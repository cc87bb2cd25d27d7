/**
 * qaoa_interactive.py: the stand-alone interactive window. Two line charts (state
 * probabilities on top, phases below) each with a layer slider, the strip of layer
 * squares with its arrow, and the graph page. The module-level loading splits each
 * file into its header and its body; the window then reads both bodies with the
 * period of the probability header.
 */
module Interactive {
  import opened Outcomes
  import opened Records
  import opened Python
  import Loader
  import MainWindow
  import HtmlPlot
  import GraphCanvas

  /**
   * params = data[0]; data = data[1:] for both files: the header is the first object
   * and the body the rest, in order; an empty file raises IndexError.
   */
  lemma {:induction false} HeaderSplit(file: seq<Record>)
    ensures file == [] ==> Loader.LoadJson(file) == Err(IndexError)
    ensures file != [] ==> Loader.LoadJson(file) == Ok((file[0], file[1..]))
  {
    if file != [] {
      Loader.LoadJsonBody(file);
    }
  }

  /** One trace of the page: the states, the y field of the record and its legend value. */
  datatype PageTrace = PageTrace(x: seq<string>, y: Field, name: real)

  /** self.html_content, up to the page text: the traces, the y key and the y-axis range. */
  datatype Page = Page(traces: seq<PageTrace>, yKey: string, yLo: real, yHi: real)

  /** [str(s) for s in elem["State"]]. */
  function StateNames(elem: Record): (r: Result<seq<string>>)
    ensures r.Ok? <==> StateKey in elem && elem[StateKey].Names?
    ensures r.Ok? ==> r.value == elem[StateKey].names
    ensures StateKey !in elem ==> r == Err(KeyError(StateKey))
  {
    var f :- Get(elem, StateKey);
    if f.Names? then Ok(f.names) else Err(TypeError)
  }

  /** f[i] for a JSON list of numbers; an integer cannot be indexed. */
  function NumberAt(f: Field, i: int): (r: Result<real>)
    ensures f.Numbers? ==> r == Index(f.values, i)
    ensures f.Interval? ==> r == Index([f.lo, f.hi], i)
    ensures f.Count? || f.Names? ==> r == Err(TypeError)
  {
    match f
    case Numbers(vs) => Index(vs, i)
    case Interval(lo, hi) => Index([lo, hi], i)
    case _ => Err(TypeError)
  }

  /** params["Fixed parameters"][i]: the legend value of trace i. */
  function FixedParam(params: Record, i: int): Result<real> {
    var f :- Get(params, FixedParamsKey);
    NumberAt(f, i)
  }

  /** params["Y range"][i]. */
  function YRangeAt(params: Record, i: int): Result<real> {
    var f :- Get(params, YRangeKey);
    NumberAt(f, i)
  }

  /** The trace of element i of the group: its states, then elem[y_key], then its legend value. */
  function TraceOf(group: seq<Record>, params: Record, yKey: string, i: int): Result<PageTrace> {
    if 0 <= i < |group| then
      var xs :- StateNames(group[i]);
      var ys :- Get(group[i], yKey);
      var name :- FixedParam(params, i);
      Ok(PageTrace(xs, ys, name))
    else Err(IndexError)
  }

  function TraceOfFn(group: seq<Record>, params: Record, yKey: string): int -> Result<PageTrace> {
    i => TraceOf(group, params, yKey, i)
  }

  /** dataset[current_index_top : current_index_top + params["Period"]], the index being 0. */
  function FirstGroup(dataset: seq<Record>, period: int): seq<Record> {
    Slice(dataset, 0, period)
  }

  /** create_html_plot(dataset, params, y_key) as a value: the page or the exception it raises. */
  function HtmlPlotOf(dataset: seq<Record>, params: Record, yKey: string): Result<Page> {
    var period :- GetCount(params, PeriodKey);
    var group := FirstGroup(dataset, period);
    var traces :- MapResult(MainWindow.Window(0, |group|), TraceOfFn(group, params, yKey));
    var lo :- YRangeAt(params, 0);
    var hi :- YRangeAt(params, 1);
    Ok(Page(traces, yKey, lo, hi))
  }

  /**
   * The page draws at most Period records, the first ones of the dataset: trace i
   * shows the states and the y_key field of record i and is named after
   * Fixed parameters[i]; the y-axis spans Y range[0] .. Y range[1].
   */
  lemma {:induction false} HtmlPlotShape(dataset: seq<Record>, params: Record, yKey: string)
    requires HtmlPlotOf(dataset, params, yKey).Ok?
    ensures PeriodKey in params && params[PeriodKey].Count?
    ensures var page, period := HtmlPlotOf(dataset, params, yKey).value, params[PeriodKey].n;
            && |page.traces| <= |dataset|
            && (period >= 0 ==> |page.traces| == if period <= |dataset| then period else |dataset|)
            && (period < 0 ==> |page.traces| == if -period <= |dataset| then |dataset| + period else 0)
            && page.yKey == yKey
            && YRangeAt(params, 0) == Ok(page.yLo) && YRangeAt(params, 1) == Ok(page.yHi)
            && forall i :: 0 <= i < |page.traces| ==>
                 && StateNames(dataset[i]) == Ok(page.traces[i].x)
                 && yKey in dataset[i] && page.traces[i].y == dataset[i][yKey]
                 && FixedParam(params, i) == Ok(page.traces[i].name)
  {
    var period := GetCount(params, PeriodKey).value;
    var group := FirstGroup(dataset, period);
    SliceFromStart(dataset, period);
    var indices := MainWindow.Window(0, |group|);
    var f := TraceOfFn(group, params, yKey);
    MapResultSpec(indices, f);
    var page := HtmlPlotOf(dataset, params, yKey).value;
    forall i | 0 <= i < |page.traces|
      ensures && StateNames(dataset[i]) == Ok(page.traces[i].x)
              && yKey in dataset[i] && page.traces[i].y == dataset[i][yKey]
              && FixedParam(params, i) == Ok(page.traces[i].name)
    {
      assert f(indices[i]).Ok? && page.traces[i] == f(indices[i]).value;
      assert group[i] == dataset[i];
    }
  }

  /** A record of the group without "State" or without the y key makes the page fail with KeyError. */
  lemma {:induction false} HtmlPlotMissingKey(dataset: seq<Record>, params: Record, yKey: string, i: nat)
    requires PeriodKey in params && params[PeriodKey].Count?
    requires i < |FirstGroup(dataset, params[PeriodKey].n)|
    requires forall j :: 0 <= j < i ==> TraceOf(FirstGroup(dataset, params[PeriodKey].n), params, yKey, j).Ok?
    requires StateKey !in dataset[i] || (dataset[i][StateKey].Names? && yKey !in dataset[i])
    ensures HtmlPlotOf(dataset, params, yKey).Err?
    ensures HtmlPlotOf(dataset, params, yKey).error.KeyError?
  {
    var group := FirstGroup(dataset, params[PeriodKey].n);
    SliceFromStart(dataset, params[PeriodKey].n);
    assert group[i] == dataset[i];
    var indices := MainWindow.Window(0, |group|);
    var f := TraceOfFn(group, params, yKey);
    MapResultSpec(indices[..i], f);
    assert forall j :: 0 <= j < i ==> indices[..i][j] == j;
    MapResultStops(indices, f, i);
  }

  /** The angle letter this window writes on every square, the mixer squares included. */
  const MixerAngle: char := 'γ'
  /** The slider captions __init__ sets before any slider has moved. */
  const InitialTopLabel: string := "Layer 0 (Probability)"
  const InitialBottomLabel: string := "Layer 0 (Phase)"

  /** Squares 2k and 2k + 1 are the cost and mixer halves of layer k, both written with γ_k. */
  lemma {:induction false} LabelsPairUp(k: nat)
    ensures GraphCanvas.LabelAt(2 * k, MixerAngle) == GraphCanvas.LayerLabel('C', 'γ', k)
    ensures GraphCanvas.LabelAt(2 * k + 1, MixerAngle) == GraphCanvas.LayerLabel('M', 'γ', k)
  {
  }

  /**
   * The interactive strip agrees with the canvas strip in every operator and layer
   * number, and differs exactly on the mixer squares, in the angle letter.
   */
  lemma {:induction false} LabelsAgreeWithCanvas(n: int)
    ensures |GraphCanvas.Labels(n, MixerAngle)| == |GraphCanvas.Labels(n, GraphCanvas.MixerAngle)|
    ensures forall i :: 0 <= i < |GraphCanvas.Labels(n, MixerAngle)| ==>
              && GraphCanvas.Labels(n, MixerAngle)[i].op == GraphCanvas.Labels(n, GraphCanvas.MixerAngle)[i].op
              && GraphCanvas.Labels(n, MixerAngle)[i].layer == GraphCanvas.Labels(n, GraphCanvas.MixerAngle)[i].layer
              && (GraphCanvas.Labels(n, MixerAngle)[i] == GraphCanvas.Labels(n, GraphCanvas.MixerAngle)[i] <==> i % 2 == 0)
  {
  }

  class InteractiveWindow {
    /** The headers and bodies split off the two files at module level. */
    const paramsProb: Record
    const dataProb: seq<Record>
    const paramsPhase: Record
    const dataPhase: seq<Record>

    var period: int
    var htmlContent: Option<Page>
    var topPage: Option<Page>
    var bottomPage: Option<Page>
    var sliderTopMax: int
    var sliderBottomMax: int
    var topLabel: string
    var bottomLabel: string
    /** The y values last sent to each chart by runJavaScript. */
    var topSent: Option<seq<Field>>
    var bottomSent: Option<seq<Field>>
    /** None until draw_arrow_canvas runs: hasattr(self, "squares") is false then. */
    var squares: Option<seq<GraphCanvas.Square>>
    var labels: seq<GraphCanvas.LayerLabel>
    var arrowLine: Option<GraphCanvas.Segment>
    var arrowHead: Option<seq<GraphCanvas.Point>>
    var graph: Option<HtmlPlot.VisGraph>

    /**
     * The arrow items exist whenever there is a square to point at: draw_arrow_canvas
     * creates both together. This excludes the AttributeError update_arrow_position
     * would raise on a missing arrow_line, which no sequence of the window's own
     * methods can produce.
     */
    ghost predicate Valid()
      reads this
    {
      squares.Some? && squares.value != [] ==> arrowLine.Some? && arrowHead.Some?
    }

    /** The window object before __init__ runs its body: nothing built yet. */
    constructor (paramsProb: Record, dataProb: seq<Record>, paramsPhase: Record, dataPhase: seq<Record>)
      ensures Valid()
      ensures this.paramsProb == paramsProb && this.dataProb == dataProb
      ensures this.paramsPhase == paramsPhase && this.dataPhase == dataPhase
      ensures htmlContent == None && topPage == None && bottomPage == None
      ensures squares == None && arrowLine == None && arrowHead == None && graph == None
      ensures topSent == None && bottomSent == None
    {
      this.paramsProb := paramsProb;
      this.dataProb := dataProb;
      this.paramsPhase := paramsPhase;
      this.dataPhase := dataPhase;
      period := 0;
      htmlContent := None;
      topPage := None;
      bottomPage := None;
      sliderTopMax := 0;
      sliderBottomMax := 0;
      topLabel := "";
      bottomLabel := "";
      topSent := None;
      bottomSent := None;
      squares := None;
      labels := [];
      arrowLine := None;
      arrowHead := None;
      graph := None;
    }

    /**
     * create_html_plot(dataset, params, y_key): html_content becomes the page of the
     * first Period records; when building it raises, html_content is left as it was.
     */
    method CreateHtmlPlot(dataset: seq<Record>, params: Record, yKey: string) returns (r: Result<()>)
      modifies this`htmlContent
      ensures r.Ok? <==> HtmlPlotOf(dataset, params, yKey).Ok?
      ensures r.Ok? ==> htmlContent == Some(HtmlPlotOf(dataset, params, yKey).value)
      ensures r.Err? ==> r.error == HtmlPlotOf(dataset, params, yKey).error && htmlContent == old(htmlContent)
    {
      var p := GetCount(params, PeriodKey);
      if p.Err? {
        return Err(p.error);
      }
      var group := Slice(dataset, 0, p.value);
      ghost var indices := MainWindow.Window(0, |group|);
      ghost var f := TraceOfFn(group, params, yKey);
      var traces: seq<PageTrace> := [];
      var i := 0;
      while i < |group|
        invariant 0 <= i <= |group|
        invariant MapResult(indices[..i], f) == Ok(traces)
        invariant htmlContent == old(htmlContent)
      {
        var t := TraceOf(group, params, yKey, i);
        assert f(indices[i]) == t;
        if t.Err? {
          MapResultStops(indices, f, i);
          return Err(t.error);
        }
        MapResultSnoc(indices[..i], indices[i], f);
        assert indices[..i] + [indices[i]] == indices[..i + 1];
        traces := traces + [t.value];
        i := i + 1;
      }
      assert indices[..i] == indices;
      var lo := YRangeAt(params, 0);
      if lo.Err? {
        return Err(lo.error);
      }
      var hi := YRangeAt(params, 1);
      if hi.Err? {
        return Err(hi.error);
      }
      htmlContent := Some(Page(traces, yKey, lo.value, hi.value));
      return Ok(());
    }

    /**
     * The arrow after update_arrow_position(layerIndex), given the arrow items before it:
     * before draw_arrow_canvas, or past the last square, nothing moves and nothing
     * raises; an index below -len(squares) is squares[layer_index]'s IndexError and
     * nothing moves; any other index, negative ones counted from the end as Python
     * does, points the arrow at that square.
     */
    ghost predicate ArrowMovedTo(layerIndex: int, r: Result<()>,
                                 line0: Option<GraphCanvas.Segment>, head0: Option<seq<GraphCanvas.Point>>)
      reads this`squares, this`arrowLine, this`arrowHead
    {
      && (squares.None? || layerIndex >= |squares.value| ==>
            r.Ok? && arrowLine == line0 && arrowHead == head0)
      && (squares.Some? && layerIndex < -|squares.value| ==>
            r == Err(IndexError) && arrowLine == line0 && arrowHead == head0)
      && (squares.Some? && -|squares.value| <= layerIndex < |squares.value| ==>
            var sq := squares.value[Position(|squares.value|, layerIndex)];
            r.Ok? && arrowLine == Some(GraphCanvas.ArrowLine(sq)) && arrowHead == Some(GraphCanvas.ArrowHead(sq)))
    }

    /**
     * update_arrow_position(layer_index): as the canvas's update_arrow, and also a
     * no-op before draw_arrow_canvas has created the squares.
     */
    method UpdateArrowPosition(layerIndex: int) returns (r: Result<()>)
      requires Valid()
      modifies this`arrowLine, this`arrowHead
      ensures Valid()
      ensures ArrowMovedTo(layerIndex, r, old(arrowLine), old(arrowHead))
    {
      if squares.None? || layerIndex >= |squares.value| {
        return Ok(());
      }
      var square :- Index(squares.value, layerIndex);
      arrowLine := Some(GraphCanvas.ArrowLine(square));
      arrowHead := Some(GraphCanvas.ArrowHead(square));
      return Ok(());
    }

    /**
     * draw_arrow_canvas: one square per position of the top slider, labelled by the
     * idx counter, then the arrow pointed at layer 0.
     */
    method DrawArrowCanvas()
      requires Valid()
      modifies this`squares, this`labels, this`arrowLine, this`arrowHead
      ensures Valid()
      ensures squares == Some(GraphCanvas.Squares(sliderTopMax + 1)) && labels == GraphCanvas.Labels(sliderTopMax + 1, MixerAngle)
      ensures sliderTopMax + 1 > 0 ==>
                arrowLine == Some(GraphCanvas.ArrowLine(GraphCanvas.SquareAt(0)))
                && arrowHead == Some(GraphCanvas.ArrowHead(GraphCanvas.SquareAt(0)))
      ensures sliderTopMax + 1 <= 0 ==> arrowLine == Some(GraphCanvas.Segment(0, 0, 0, 0)) && arrowHead == Some([])
    {
      var numLayers := sliderTopMax + 1;
      var strip: seq<GraphCanvas.Square> := [];
      var names: seq<GraphCanvas.LayerLabel> := [];
      var idx := -1;
      var i := 0;
      while i < numLayers
        invariant i == 0 || 0 < i <= numLayers
        invariant |strip| == i && |names| == i
        invariant idx == (i + 1) / 2 - 1
        invariant forall k :: 0 <= k < i ==> strip[k] == GraphCanvas.SquareAt(k) && names[k] == GraphCanvas.LabelAt(k, MixerAngle)
      {
        var x := GraphCanvas.StartX + i * (GraphCanvas.SquareSize + GraphCanvas.Spacing);
        if i % 2 == 0 {
          idx := idx + 1;
        }
        names := names + [GraphCanvas.LayerLabel(if i % 2 == 0 then 'C' else 'M', 'γ', idx)];
        strip := strip + [GraphCanvas.Square(x, GraphCanvas.Top, GraphCanvas.SquareSize)];
        i := i + 1;
      }
      assert strip == GraphCanvas.Squares(numLayers);
      assert names == GraphCanvas.Labels(numLayers, MixerAngle);
      squares := Some(strip);
      labels := names;
      arrowLine := Some(GraphCanvas.Segment(0, 0, 0, 0));
      arrowHead := Some([]);
      var _ := UpdateArrowPosition(0);
    }

    /**
     * slider_update_top(value): the label shows the layer, the chart is sent the
     * "Probability" fields of the window of len(data_prob), and the arrow moves.
     */
    method SliderUpdateTop(value: int) returns (r: Result<()>)
      requires Valid()
      modifies this`topLabel, this`topSent, this`arrowLine, this`arrowHead
      ensures Valid()
      ensures topLabel == MainWindow.LayerLabel(value)
      ensures MainWindow.SliderValues(dataProb, value, period, ProbabilityKey).Err? ==>
                r == Err(MainWindow.SliderValues(dataProb, value, period, ProbabilityKey).error)
                && topSent == old(topSent) && arrowLine == old(arrowLine) && arrowHead == old(arrowHead)
      ensures MainWindow.SliderValues(dataProb, value, period, ProbabilityKey).Ok? ==>
                topSent == Some(MainWindow.SliderValues(dataProb, value, period, ProbabilityKey).value)
      ensures MainWindow.SliderValues(dataProb, value, period, ProbabilityKey).Ok? ==>
                ArrowMovedTo(value, r, old(arrowLine), old(arrowHead))
    {
      topLabel := MainWindow.LayerLabel(value);
      var values :- MainWindow.SliderValues(dataProb, value, period, ProbabilityKey);
      topSent := Some(values);
      r := UpdateArrowPosition(value);
    }

    /** slider_update_bottom(value): as the top slider, over data_phase and its "Phase" fields. */
    method SliderUpdateBottom(value: int) returns (r: Result<()>)
      requires Valid()
      modifies this`bottomLabel, this`bottomSent, this`arrowLine, this`arrowHead
      ensures Valid()
      ensures bottomLabel == MainWindow.LayerLabel(value)
      ensures MainWindow.SliderValues(dataPhase, value, period, PhaseKey).Err? ==>
                r == Err(MainWindow.SliderValues(dataPhase, value, period, PhaseKey).error)
                && bottomSent == old(bottomSent) && arrowLine == old(arrowLine) && arrowHead == old(arrowHead)
      ensures MainWindow.SliderValues(dataPhase, value, period, PhaseKey).Ok? ==>
                bottomSent == Some(MainWindow.SliderValues(dataPhase, value, period, PhaseKey).value)
      ensures MainWindow.SliderValues(dataPhase, value, period, PhaseKey).Ok? ==>
                ArrowMovedTo(value, r, old(arrowLine), old(arrowHead))
    {
      bottomLabel := MainWindow.LayerLabel(value);
      var values :- MainWindow.SliderValues(dataPhase, value, period, PhaseKey);
      bottomSent := Some(values);
      r := UpdateArrowPosition(value);
    }

    /**
     * load_graph_js: a missing graph file leaves the view as it was; otherwise the lines
     * are parsed as by load_edges and the graph page is built from them.
     */
    method LoadGraphJs(lines: Option<seq<string>>) returns (r: Result<()>)
      modifies this`graph
      ensures r == GraphOutcome(lines)
      ensures lines.None? ==> r.Ok? && graph == old(graph)
      ensures lines.Some? ==>
                var g := GraphOf(lines.value);
                && (r.Ok? <==> g.Ok?)
                && (g.Ok? ==> graph == Some(g.value))
                && (g.Err? ==> r.error == g.error && graph == old(graph))
    {
      if lines.None? {
        return Ok(());
      }
      var edges :- MapResult(lines.value, Loader.ParseEdge);
      var g :- HtmlPlot.BuildVisjs(edges);
      graph := Some(g);
      return Ok(());
    }

    /**
     * The two charts and their sliders as __init__ builds them: the period of the
     * probability header, each page from its own file and header, and both slider
     * ranges computed with that one period.
     */
    ghost predicate ChartsBuilt()
      reads this`period, this`topPage, this`bottomPage, this`sliderTopMax, this`sliderBottomMax
    {
      && GetCount(paramsProb, PeriodKey) == Ok(period)
      && topPage.Some? && HtmlPlotOf(dataProb, paramsProb, ProbabilityKey) == Ok(topPage.value)
      && bottomPage.Some? && HtmlPlotOf(dataPhase, paramsPhase, PhaseKey) == Ok(bottomPage.value)
      && MainWindow.SliderMaximum(|dataProb|, period) == Ok(sliderTopMax)
      && MainWindow.SliderMaximum(|dataPhase|, period) == Ok(sliderBottomMax)
    }

    /** The layer strip draw_arrow_canvas builds: one square per position of the top slider. */
    ghost predicate StripBuilt()
      reads this`squares, this`labels, this`sliderTopMax
    {
      squares == Some(GraphCanvas.Squares(sliderTopMax + 1)) && labels == GraphCanvas.Labels(sliderTopMax + 1, MixerAngle)
    }

    /** The graph page load_graph_js builds when graph.txt exists. */
    ghost predicate GraphLoaded(graphFile: Option<seq<string>>)
      reads this`graph
    {
      graphFile.Some? ==> GraphOf(graphFile.value).Ok? && graph == Some(GraphOf(graphFile.value).value)
    }

    /** The chart half of __init__: top chart, top slider, bottom chart, bottom slider. */
    method SetupCharts() returns (r: Result<()>)
      modifies this`period, this`htmlContent, this`topPage, this`bottomPage
      modifies this`sliderTopMax, this`sliderBottomMax, this`topLabel, this`bottomLabel
      ensures r == ChartsOutcome(paramsProb, dataProb, paramsPhase, dataPhase)
      ensures PeriodKey !in paramsProb ==> r == Err(KeyError(PeriodKey))
      ensures GetCount(paramsProb, PeriodKey) == Ok(0) ==> r.Err?
      ensures r.Ok? ==> ChartsBuilt() && topLabel == InitialTopLabel && bottomLabel == InitialBottomLabel
    {
      var p := GetCount(paramsProb, PeriodKey);
      if p.Err? {
        return Err(p.error);
      }
      period := p.value;
      var top := CreateHtmlPlot(dataProb, paramsProb, ProbabilityKey);
      if top.Err? {
        return top;
      }
      topPage := htmlContent;
      var topMax := MainWindow.SliderMaximum(|dataProb|, period);
      if topMax.Err? {
        return Err(topMax.error);
      }
      sliderTopMax := topMax.value;
      topLabel := InitialTopLabel;
      var bottom := CreateHtmlPlot(dataPhase, paramsPhase, PhaseKey);
      if bottom.Err? {
        return bottom;
      }
      bottomPage := htmlContent;
      var bottomMax := MainWindow.SliderMaximum(|dataPhase|, period);
      sliderBottomMax := bottomMax.value;
      bottomLabel := InitialBottomLabel;
      return Ok(());
    }

    /**
     * __init__: the charts and sliders, then the layer strip sized by the top slider,
     * then the graph page; the first exception ends it.
     */
    method Setup(graphFile: Option<seq<string>>) returns (r: Result<()>)
      requires Valid()
      modifies this
      ensures Valid()
      ensures ChartsOutcome(paramsProb, dataProb, paramsPhase, dataPhase).Err? ==>
                r == ChartsOutcome(paramsProb, dataProb, paramsPhase, dataPhase)
      ensures ChartsOutcome(paramsProb, dataProb, paramsPhase, dataPhase).Ok? ==> r == GraphOutcome(graphFile)
      ensures PeriodKey !in paramsProb ==> r == Err(KeyError(PeriodKey))
      ensures GetCount(paramsProb, PeriodKey) == Ok(0) ==> r.Err?
      ensures r.Ok? ==> ChartsBuilt() && topLabel == InitialTopLabel && bottomLabel == InitialBottomLabel
      ensures r.Ok? ==> StripBuilt() && GraphLoaded(graphFile)
    {
      r := SetupCharts();
      if r.Err? {
        return;
      }
      r := SetupCanvasAndGraph(graphFile);
    }

    /** The rest of __init__: the layer strip, then the graph page. */
    method SetupCanvasAndGraph(graphFile: Option<seq<string>>) returns (r: Result<()>)
      requires Valid()
      modifies this`squares, this`labels, this`arrowLine, this`arrowHead, this`graph
      ensures Valid()
      ensures StripBuilt()
      ensures r == GraphOutcome(graphFile)
      ensures r.Ok? <==> graphFile.None? || GraphOf(graphFile.value).Ok?
      ensures r.Ok? ==> GraphLoaded(graphFile)
    {
      DrawArrowCanvas();
      r := LoadGraphJs(graphFile);
    }
  }

  /** The graph page load_graph_js builds from the lines of graph.txt. */
  function GraphOf(lines: seq<string>): Result<HtmlPlot.VisGraph> {
    var edges :- MapResult(lines, Loader.ParseEdge);
    HtmlPlot.BuildVisjs(edges)
  }

  /** The outcome of load_graph_js: no graph file is no error. */
  function GraphOutcome(graphFile: Option<seq<string>>): (r: Result<()>)
    ensures r.Ok? <==> graphFile.None? || GraphOf(graphFile.value).Ok?
    ensures r.Err? ==> r.error == GraphOf(graphFile.value).error
  {
    if graphFile.None? then Ok(())
    else
      var g := GraphOf(graphFile.value);
      if g.Ok? then Ok(()) else Err(g.error)
  }

  /**
   * The outcome of the chart half of __init__, which runs the top page, the top slider,
   * the bottom page and the bottom slider in that order: it succeeds exactly when
   * Period is a non-zero integer and both pages build, and otherwise fails with the
   * error of the first step that raises. The bottom slider divides by the period the
   * top slider has already divided by, so it cannot raise.
   */
  function ChartsOutcome(paramsProb: Record, dataProb: seq<Record>, paramsPhase: Record, dataPhase: seq<Record>): (r: Result<()>)
    ensures var p := GetCount(paramsProb, PeriodKey);
            r.Ok? <==>
              && p.Ok? && p.value != 0
              && HtmlPlotOf(dataProb, paramsProb, ProbabilityKey).Ok?
              && HtmlPlotOf(dataPhase, paramsPhase, PhaseKey).Ok?
    ensures GetCount(paramsProb, PeriodKey).Err? ==> r == Err(GetCount(paramsProb, PeriodKey).error)
    ensures GetCount(paramsProb, PeriodKey).Ok? && HtmlPlotOf(dataProb, paramsProb, ProbabilityKey).Err? ==>
              r == Err(HtmlPlotOf(dataProb, paramsProb, ProbabilityKey).error)
    ensures GetCount(paramsProb, PeriodKey) == Ok(0) && HtmlPlotOf(dataProb, paramsProb, ProbabilityKey).Ok? ==>
              r == Err(ZeroDivisionError)
    ensures var p := GetCount(paramsProb, PeriodKey);
            p.Ok? && p.value != 0 && HtmlPlotOf(dataProb, paramsProb, ProbabilityKey).Ok? ==>
              r == if HtmlPlotOf(dataPhase, paramsPhase, PhaseKey).Ok? then Ok(()) else Err(HtmlPlotOf(dataPhase, paramsPhase, PhaseKey).error)
  {
    var period :- GetCount(paramsProb, PeriodKey);
    var _ :- HtmlPlotOf(dataProb, paramsProb, ProbabilityKey);
    var _ :- MainWindow.SliderMaximum(|dataProb|, period);
    var _ :- HtmlPlotOf(dataPhase, paramsPhase, PhaseKey);
    Ok(())
  }

  /** A bad line of graph.txt is int()'s ValueError; an edge that is not a pair is an unpacking ValueError. */
  lemma {:induction false} GraphOfErrors(lines: seq<string>)
    ensures GraphOf(lines).Err? ==> GraphOf(lines).error.ValueError?
    ensures MapResult(lines, Loader.ParseEdge).Ok? ==>
              GraphOf(lines) == HtmlPlot.BuildVisjs(MapResult(lines, Loader.ParseEdge).value)
  {
    Loader.ParseEdgesError(lines);
    if MapResult(lines, Loader.ParseEdge).Ok? {
      HtmlPlot.BuildVisjsSpec(MapResult(lines, Loader.ParseEdge).value);
    }
  }
}
