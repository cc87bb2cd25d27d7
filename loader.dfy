/**
 * data/loader.py: load_json splits the loaded JSON array into its header and its
 * body, and load_edges reads one integer tuple per line of a comma-separated file.
 * The file reads themselves are inputs: the decoded array, or the file's lines
 * (None when the file does not exist).
 */
module Loader {
  import opened Outcomes
  import opened Text

  /** load_json: (data[0], data[1:]); data[0] is an IndexError on the empty array. */
  function LoadJson<T>(data: seq<T>): (r: Result<(T, seq<T>)>)
    ensures r.Err? <==> data == []
    ensures r.Err? ==> r.error == IndexError
    ensures r.Ok? ==> [r.value.0] + r.value.1 == data
  {
    if data == [] then Err(IndexError) else Ok((data[0], data[1..]))
  }

  /** The body holds every element but the header, in order. */
  lemma {:induction false} LoadJsonBody<T>(data: seq<T>)
    requires data != []
    ensures LoadJson(data).Ok?
    ensures |LoadJson(data).value.1| == |data| - 1
    ensures forall k :: 0 <= k < |data| - 1 ==> LoadJson(data).value.1[k] == data[k + 1]
  {
  }

  /** int(field): the integer, or int()'s ValueError. */
  function ParseField(field: string): (r: Result<int>)
    ensures r.Ok? <==> ParseInt(field).Some?
    ensures r.Ok? ==> r.value == ParseInt(field).value
    ensures r.Err? ==> r.error == ValueError(InvalidLiteral)
  {
    match ParseInt(field)
    case None => Err(ValueError(InvalidLiteral))
    case Some(x) => Ok(x)
  }

  /** tuple(map(int, line.strip().split(','))): one integer per comma-separated field. */
  function ParseEdge(line: string): Result<seq<int>> {
    MapResult(Split(Strip(line), ','), ParseField)
  }

  /** The tuple has one entry per comma plus one; its length is not checked. */
  lemma {:induction false} ParseEdgeLength(line: string)
    requires ParseEdge(line).Ok?
    ensures |ParseEdge(line).value| == Count(Strip(line), ',') + 1
  {
    MapResultSpec(Split(Strip(line), ','), ParseField);
  }

  /** The line str(u) + "," + str(v), with its newline, reads back as the pair (u, v). */
  lemma {:induction false} ParseEdgeLine(u: int, v: int)
    ensures ParseEdge(IntToString(u) + "," + IntToString(v) + "\n") == Ok([u, v])
  {
    var a, b := IntToString(u), IntToString(v);
    var s := a + "," + b;
    assert s + "\n" == IntToString(u) + "," + IntToString(v) + "\n";
    assert s[0] == a[0] && s[|s| - 1] == b[|b| - 1];
    StripLine(s);
    assert ',' !in a && ',' !in b by {
      assert forall k :: 0 <= k < |a| ==> a[k] != ',';
      assert forall k :: 0 <= k < |b| ==> b[k] != ',';
    }
    SplitTwo(a, b, ',');
    ParseFieldsOfPair(u, v);
  }

  lemma {:induction false} ParseFieldsOfPair(u: int, v: int)
    ensures MapResult([IntToString(u), IntToString(v)], ParseField) == Ok([u, v])
  {
    var a, b := IntToString(u), IntToString(v);
    ParseIntToString(u);
    ParseIntToString(v);
    assert MapResult([], ParseField) == Ok([]);
    MapResultCons(b, [], ParseField, v, []);
    assert [b] + [] == [b] && [v] + [] == [v];
    MapResultCons(a, [b], ParseField, u, [v]);
    assert [a] + [b] == [a, b] && [u] + [v] == [u, v];
  }

  /** Every error of a line is int()'s ValueError. */
  lemma {:induction false} ParseEdgesError(lines: seq<string>)
    ensures MapResult(lines, ParseEdge).Err? ==> MapResult(lines, ParseEdge).error == ValueError(InvalidLiteral)
  {
    if MapResult(lines, ParseEdge).Err? {
      MapResultError(lines, ParseEdge);
      var k :| 0 <= k < |lines| && ParseEdge(lines[k]) == Err(MapResult(lines, ParseEdge).error);
      MapResultError(Split(Strip(lines[k]), ','), ParseField);
    }
  }

  /**
   * load_edges: a missing file gives the empty list; otherwise one tuple per line in
   * file order, and a bad field is not caught (only the missing file is).
   */
  function LoadEdges(lines: Option<seq<string>>): (r: Result<seq<seq<int>>>)
    ensures lines.None? ==> r == Ok([])
    ensures lines.Some? ==> (r.Ok? <==> forall k :: 0 <= k < |lines.value| ==> ParseEdge(lines.value[k]).Ok?)
    ensures lines.Some? && r.Ok? ==> |r.value| == |lines.value|
    ensures lines.Some? && r.Ok? ==> forall k :: 0 <= k < |lines.value| ==> r.value[k] == ParseEdge(lines.value[k]).value
    ensures r.Err? ==> r.error == ValueError(InvalidLiteral)
  {
    match lines
    case None => Ok([])
    case Some(ls) =>
      MapResultSpec(ls, ParseEdge);
      ParseEdgesError(ls);
      MapResult(ls, ParseEdge)
  }

  /** A file written as "u,v" lines loads back as its pairs, in order. */
  lemma {:induction false} LoadEdgesOfPairs(pairs: seq<(int, int)>, lines: seq<string>)
    requires |lines| == |pairs|
    requires forall k :: 0 <= k < |pairs| ==> lines[k] == IntToString(pairs[k].0) + "," + IntToString(pairs[k].1) + "\n"
    ensures LoadEdges(Some(lines)).Ok?
    ensures |LoadEdges(Some(lines)).value| == |pairs|
    ensures forall k :: 0 <= k < |pairs| ==> LoadEdges(Some(lines)).value[k] == [pairs[k].0, pairs[k].1]
  {
    forall k | 0 <= k < |pairs|
      ensures ParseEdge(lines[k]) == Ok([pairs[k].0, pairs[k].1])
    {
      ParseEdgeLine(pairs[k].0, pairs[k].1);
    }
  }
}
