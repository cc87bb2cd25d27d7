/**
 * ui/html_plot.py: which traces the Plotly page draws and how they are labelled
 * (create_plot_html), and the node and edge lists of the vis.js graph page
 * (build_visjs_html). The HTML and JavaScript text around them is not modelled.
 */
module HtmlPlot {
  import opened Outcomes
  import opened Text
  import opened Python

  /** One Plotly trace: the states on the x axis, one series on the y axis, its legend label. */
  datatype Trace<P> = Trace(x: seq<string>, y: seq<real>, name: P)

  /** The structural content of the page: the traces, the title and the y-axis range. */
  datatype PlotPage<P> = PlotPage(traces: seq<Trace<P>>, title: string, yLo: real, yHi: real)

  /** params[i % num_runs], with Python's modulo and negative indexing. */
  function TraceLabel<P>(params: seq<P>, i: int, numRuns: int): (r: Result<P>)
    ensures numRuns == 0 ==> r == Err(ZeroDivisionError)
    ensures r.Err? ==> r.error == ZeroDivisionError || r.error == IndexError
  {
    if numRuns == 0 then Err(ZeroDivisionError) else Index(params, FloorMod(i, numRuns))
  }

  /** With at most len(params) runs, trace i is labelled with the parameters of run i mod num_runs. */
  lemma {:induction false} TraceLabelCyclic<P>(params: seq<P>, i: nat, numRuns: int)
    requires 0 < numRuns <= |params|
    ensures i % numRuns < |params|
    ensures TraceLabel(params, i, numRuns) == Ok(params[i % numRuns])
  {
    FloorModPositive(i, numRuns);
  }

  /** The traces of one y-list, in order, up to the first label that cannot be formed. */
  function Traces<P>(states: seq<string>, ys: seq<seq<real>>, params: seq<P>, numRuns: int): Result<seq<Trace<P>>> {
    if ys == [] then Ok([])
    else
      var init :- Traces(states, ys[..|ys| - 1], params, numRuns);
      var name :- TraceLabel(params, |ys| - 1, numRuns);
      Ok(init + [Trace(states, ys[|ys| - 1], name)])
  }

  /** Once a prefix fails, every longer prefix fails with the same exception. */
  lemma {:induction false} TracesErrStays<P>(states: seq<string>, ys: seq<seq<real>>, params: seq<P>, numRuns: int, k: nat)
    requires k <= |ys| && Traces(states, ys[..k], params, numRuns).Err?
    ensures Traces(states, ys, params, numRuns) == Traces(states, ys[..k], params, numRuns)
    decreases |ys| - k
  {
    if k < |ys| {
      assert ys[..k + 1][..k] == ys[..k];
      TracesErrStays(states, ys, params, numRuns, k + 1);
    } else {
      assert ys[..k] == ys;
    }
  }

  /**
   * There is one trace per y-list, in order, trace i drawing ys[i] over the states
   * and named after params[i % num_runs]; forming the traces fails exactly when one
   * of those labels cannot be read.
   */
  lemma {:induction false} TracesSpec<P>(states: seq<string>, ys: seq<seq<real>>, params: seq<P>, numRuns: int)
    ensures Traces(states, ys, params, numRuns).Ok? <==> forall i :: 0 <= i < |ys| ==> TraceLabel(params, i, numRuns).Ok?
    ensures Traces(states, ys, params, numRuns).Ok? ==>
              && |Traces(states, ys, params, numRuns).value| == |ys|
              && forall i :: 0 <= i < |ys| ==>
                   Traces(states, ys, params, numRuns).value[i] == Trace(states, ys[i], TraceLabel(params, i, numRuns).value)
    ensures Traces(states, ys, params, numRuns).Err? ==>
              Traces(states, ys, params, numRuns).error == ZeroDivisionError || Traces(states, ys, params, numRuns).error == IndexError
  {
    if ys != [] {
      var init := ys[..|ys| - 1];
      TracesSpec(states, init, params, numRuns);
      assert forall i :: 0 <= i < |init| ==> init[i] == ys[i];
      var r := Traces(states, ys, params, numRuns);
      if r.Ok? {
        var prev := Traces(states, init, params, numRuns).value;
        assert r.value == prev + [Trace(states, ys[|ys| - 1], TraceLabel(params, |ys| - 1, numRuns).value)];
        forall i | 0 <= i < |ys|
          ensures r.value[i] == Trace(states, ys[i], TraceLabel(params, i, numRuns).value)
        {
          if i < |init| {
            assert r.value[i] == prev[i];
          }
        }
      }
    }
  }

  /**
   * create_plot_html: only the first (key, y-list) entry of `data` is drawn (the loop
   * breaks after it); the y-axis range is y_range[0] .. y_range[1].
   */
  function PlotPageOf<P>(states: seq<string>, data: seq<(string, seq<seq<real>>)>, params: seq<P>,
                         yRange: seq<real>, numRuns: int, title: string): Result<PlotPage<P>> {
    var traces :- if data == [] then Ok([]) else Traces(states, data[0].1, params, numRuns);
    if |yRange| < 2 then Err(IndexError) else Ok(PlotPage(traces, title, yRange[0], yRange[1]))
  }

  method CreatePlotHtml<P>(states: seq<string>, data: seq<(string, seq<seq<real>>)>, params: seq<P>,
                           yRange: seq<real>, numRuns: int, title: string) returns (r: Result<PlotPage<P>>)
    ensures r == PlotPageOf(states, data, params, yRange, numRuns, title)
  {
    var traces: seq<Trace<P>> := [];
    if |data| > 0 {
      var yList := data[0].1;
      var i := 0;
      while i < |yList|
        invariant 0 <= i <= |yList|
        invariant Traces(states, yList[..i], params, numRuns) == Ok(traces)
      {
        var name := TraceLabel(params, i, numRuns);
        assert yList[..i + 1][..i] == yList[..i];
        if name.Err? {
          TracesErrStays(states, yList, params, numRuns, i + 1);
          return Err(name.error);
        }
        traces := traces + [Trace(states, yList[i], name.value)];
        i := i + 1;
      }
      assert yList[..i] == yList;
    }
    if |yRange| < 2 {
      return Err(IndexError);
    }
    return Ok(PlotPage(traces, title, yRange[0], yRange[1]));
  }

  /** Entries of `data` after the first have no effect on the page. */
  lemma {:induction false} PlotPageFirstEntryOnly<P>(states: seq<string>, data: seq<(string, seq<seq<real>>)>, params: seq<P>,
                                  yRange: seq<real>, numRuns: int, title: string)
    requires data != []
    ensures PlotPageOf(states, data, params, yRange, numRuns, title) == PlotPageOf(states, data[..1], params, yRange, numRuns, title)
  {
  }

  /**
   * The page for a well-formed call: one trace per y-list of the first entry, trace i
   * named params[i % num_runs], and the y-axis range taken from y_range; with no entry
   * at all there are no traces.
   */
  lemma {:induction false} PlotPageShape<P>(states: seq<string>, data: seq<(string, seq<seq<real>>)>, params: seq<P>,
                         yRange: seq<real>, numRuns: int, title: string)
    requires 0 < numRuns <= |params| && |yRange| >= 2
    ensures PlotPageOf(states, data, params, yRange, numRuns, title).Ok?
    ensures PlotPageOf(states, data, params, yRange, numRuns, title).value.yLo == yRange[0]
    ensures PlotPageOf(states, data, params, yRange, numRuns, title).value.yHi == yRange[1]
    ensures data == [] ==> PlotPageOf(states, data, params, yRange, numRuns, title).value.traces == []
    ensures data != [] ==>
              var page := PlotPageOf(states, data, params, yRange, numRuns, title).value;
              && |page.traces| == |data[0].1|
              && forall i :: 0 <= i < |data[0].1| ==> page.traces[i] == Trace(states, data[0].1[i], params[i % numRuns])
  {
    if data != [] {
      var ys := data[0].1;
      forall i | 0 <= i < |ys|
        ensures TraceLabel(params, i, numRuns) == Ok(params[i % numRuns])
      {
        TraceLabelCyclic(params, i, numRuns);
      }
      TracesSpec(states, ys, params, numRuns);
    }
  }

  /** No runs means i % 0: the first y-list raises ZeroDivisionError. */
  lemma {:induction false} PlotPageNoRuns<P>(states: seq<string>, data: seq<(string, seq<seq<real>>)>, params: seq<P>,
                          yRange: seq<real>, title: string)
    requires data != [] && data[0].1 != []
    ensures PlotPageOf(states, data, params, yRange, 0, title) == Err(ZeroDivisionError)
  {
    var ys := data[0].1;
    assert ys[..1][..0] == [];
    TracesErrStays(states, ys, params, 0, 1);
  }

  // ---------------------------------------------------------------------------
  // build_visjs_html
  // ---------------------------------------------------------------------------

  /** [n for e in edges for n in e]: every endpoint, edge by edge. */
  function Endpoints(edges: seq<seq<int>>): (r: seq<int>)
    ensures forall k, x :: 0 <= k < |edges| && x in edges[k] ==> x in r
    ensures forall x :: x in r ==> exists k :: 0 <= k < |edges| && x in edges[k]
  {
    if edges == [] then []
    else
      var rest := Endpoints(edges[1..]);
      assert forall k :: 1 <= k < |edges| ==> edges[k] == edges[1..][k - 1];
      edges[0] + rest
  }

  predicate StrictlyIncreasing(s: seq<int>) {
    forall i, j :: 0 <= i < j < |s| ==> s[i] < s[j]
  }

  /** x placed into a strictly increasing list, unless it is already there. */
  function Insert(x: int, s: seq<int>): (r: seq<int>)
    requires StrictlyIncreasing(s)
    ensures StrictlyIncreasing(r)
    ensures forall y :: y in r <==> y == x || y in s
  {
    if s == [] then [x]
    else if x < s[0] then [x] + s
    else if x == s[0] then s
    else
      var rest := Insert(x, s[1..]);
      assert forall i :: 0 <= i < |rest| ==> s[0] < rest[i] by {
        forall i | 0 <= i < |rest|
          ensures s[0] < rest[i]
        {
          assert rest[i] in rest;
          if rest[i] != x {
            var j :| 0 <= j < |s[1..]| && s[1..][j] == rest[i];
            assert s[j + 1] == rest[i];
          }
        }
      }
      [s[0]] + rest
  }

  /** sorted(set(xs)): the distinct values of xs in increasing order. */
  function SortedDistinct(xs: seq<int>): (r: seq<int>)
    ensures StrictlyIncreasing(r)
    ensures forall x :: x in r <==> x in xs
  {
    if xs == [] then [] else Insert(xs[|xs| - 1], SortedDistinct(xs[..|xs| - 1]))
  }

  /** One vis.js node {"id": n, "label": str(n)}. */
  datatype VisNode = VisNode(id: int, caption: string)

  /** One vis.js edge {"from": u, "to": v}. */
  datatype VisEdge = VisEdge(source: int, target: int)

  datatype VisGraph = VisGraph(nodes: seq<VisNode>, edges: seq<VisEdge>)

  const TooManyValues: string := "too many values to unpack"
  const NotEnoughValues: string := "not enough values to unpack"

  /** `for u, v in edges`: a tuple of any length but two cannot be unpacked. */
  function Unpack(e: seq<int>): (r: Result<VisEdge>)
    ensures r.Ok? <==> |e| == 2
    ensures r.Ok? ==> r.value == VisEdge(e[0], e[1])
    ensures |e| > 2 ==> r == Err(ValueError(TooManyValues))
    ensures |e| < 2 ==> r == Err(ValueError(NotEnoughValues))
  {
    if |e| == 2 then Ok(VisEdge(e[0], e[1]))
    else if |e| > 2 then Err(ValueError(TooManyValues))
    else Err(ValueError(NotEnoughValues))
  }

  function NodesOf(ids: seq<int>): (r: seq<VisNode>)
    ensures |r| == |ids|
    ensures forall k :: 0 <= k < |ids| ==> r[k] == VisNode(ids[k], IntToString(ids[k]))
  {
    seq(|ids|, k requires 0 <= k < |ids| => VisNode(ids[k], IntToString(ids[k])))
  }

  /** nodes = sorted(set(...)), one {"id": n, "label": str(n)} per value. */
  function NodeList(edges: seq<seq<int>>): seq<VisNode> {
    NodesOf(SortedDistinct(Endpoints(edges)))
  }

  /** build_visjs_html, up to the page text: the node list and the edge list. */
  function BuildVisjs(edges: seq<seq<int>>): (r: Result<VisGraph>)
    ensures r.Ok? ==> r.value.nodes == NodeList(edges)
  {
    var es :- MapResult(edges, Unpack);
    Ok(VisGraph(NodeList(edges), es))
  }

  /**
   * The nodes are the distinct endpoints in increasing order, each labelled with
   * its number.
   */
  lemma {:induction false} NodeListSpec(edges: seq<seq<int>>)
    ensures var nodes := NodeList(edges);
            && (forall i, j :: 0 <= i < j < |nodes| ==> nodes[i].id < nodes[j].id)
            && (forall k, x :: 0 <= k < |edges| && x in edges[k] ==> exists i :: 0 <= i < |nodes| && nodes[i].id == x)
            && (forall i :: 0 <= i < |nodes| ==> exists k :: 0 <= k < |edges| && nodes[i].id in edges[k])
            && (forall i :: 0 <= i < |nodes| ==> ParseInt(nodes[i].caption) == Some(nodes[i].id))
  {
    var points := Endpoints(edges);
    var ids := SortedDistinct(points);
    var nodes := NodeList(edges);
    forall k, x | 0 <= k < |edges| && x in edges[k]
      ensures exists i :: 0 <= i < |nodes| && nodes[i].id == x
    {
      assert x in points;
      assert x in ids;
      var i :| 0 <= i < |ids| && ids[i] == x;
      assert nodes[i].id == x;
    }
    forall i | 0 <= i < |nodes|
      ensures exists k :: 0 <= k < |edges| && nodes[i].id in edges[k]
    {
      assert ids[i] in ids;
      assert ids[i] in points;
    }
    forall i | 0 <= i < |nodes|
      ensures ParseInt(nodes[i].caption) == Some(nodes[i].id)
    {
      ParseIntToString(ids[i]);
    }
  }

  /**
   * There is one edge record per input edge, in order; any edge that is not a pair
   * makes the page fail with ValueError.
   */
  lemma {:induction false} BuildVisjsSpec(edges: seq<seq<int>>)
    ensures BuildVisjs(edges).Ok? <==> forall k :: 0 <= k < |edges| ==> |edges[k]| == 2
    ensures BuildVisjs(edges).Err? ==> BuildVisjs(edges).error.ValueError?
    ensures BuildVisjs(edges).Ok? ==>
              && |BuildVisjs(edges).value.edges| == |edges|
              && forall k :: 0 <= k < |edges| ==> BuildVisjs(edges).value.edges[k] == VisEdge(edges[k][0], edges[k][1])
  {
    MapResultSpec(edges, Unpack);
    if MapResult(edges, Unpack).Err? {
      MapResultError(edges, Unpack);
    }
  }
}
