/**
 * ui/graph_canvas.py: the strip of QAOA layer squares, their labels, the base line
 * behind them and the red arrow that points at the current layer. Coordinates are
 * integers: every value the source computes is a whole number.
 */
module GraphCanvas {
  import opened Outcomes
  import opened Python

  const SquareSize: int := 80
  const Spacing: int := 30
  const StartX: int := 50
  const Top: int := 100
  const ArrowSize: int := 12

  /** A square item: its top-left corner and side. */
  datatype Square = Square(x: int, y: int, size: int)
  datatype Point = Point(x: int, y: int)
  datatype Segment = Segment(x1: int, y1: int, x2: int, y2: int)

  /** The label of a square: U_op(angle_layer), e.g. U_C(γ_0). */
  datatype LayerLabel = LayerLabel(op: char, angle: char, layer: int)

  /** Square i of the strip. */
  function SquareAt(i: int): Square {
    Square(StartX + i * (SquareSize + Spacing), Top, SquareSize)
  }

  /** The squares of a strip of n layers (none when n <= 0, as range(n) is empty then). */
  function Squares(n: int): (r: seq<Square>)
    ensures |r| == if n > 0 then n else 0
    ensures forall i :: 0 <= i < |r| ==> r[i] == SquareAt(i)
  {
    if n <= 0 then [] else seq(n, i => SquareAt(i))
  }

  /** The angle letter this canvas writes on the mixer squares. */
  const MixerAngle: char := 'β'

  /**
   * Even squares are cost layers U_C(γ_k), odd squares mixer layers U_M(mixerAngle_k),
   * with k = i div 2.
   */
  function LabelAt(i: nat, mixerAngle: char): LayerLabel {
    if i % 2 == 0 then LayerLabel('C', 'γ', i / 2) else LayerLabel('M', mixerAngle, i / 2)
  }

  /** The labels of a strip of n layers (none when n <= 0). */
  function Labels(n: int, mixerAngle: char): (r: seq<LayerLabel>)
    ensures |r| == if n > 0 then n else 0
    ensures forall i :: 0 <= i < |r| ==> r[i] == LabelAt(i, mixerAngle)
  {
    if n <= 0 then [] else seq(n, i requires 0 <= i => LabelAt(i, mixerAngle))
  }

  /** The two squares of QAOA layer k: its cost unitary U_C(γ_k), then its mixer unitary U_M(β_k). */
  lemma {:induction false} LabelsPairUp(k: nat)
    ensures LabelAt(2 * k, MixerAngle) == LayerLabel('C', 'γ', k)
    ensures LabelAt(2 * k + 1, MixerAngle) == LayerLabel('M', 'β', k)
  {
  }

  /** Consecutive squares are one gap apart, so no two squares overlap. */
  lemma {:induction false} SquaresApart(i: int, j: int)
    requires i < j
    ensures SquareAt(i).x + SquareAt(i).size + Spacing <= SquareAt(j).x
    ensures SquareAt(i).y == SquareAt(j).y
  {
    assert SquareAt(j).x - SquareAt(i).x == (j - i) * (SquareSize + Spacing);
  }

  /** The base line through the squares' vertical centre, for num_layers layers. */
  function BaseLine(numLayers: int): (l: Segment)
    ensures l.y1 == l.y2 == Top + SquareSize / 2
  {
    var totalWidth := numLayers * SquareSize + (numLayers - 1) * Spacing;
    Segment(StartX - Spacing / 2, Top + SquareSize / 2, StartX + totalWidth - SquareSize + Spacing / 2, Top + SquareSize / 2)
  }

  /**
   * The base line starts half a gap before the first square and ends half a gap
   * into the last one, so it crosses every gap of the strip.
   */
  lemma {:induction false} BaseLineSpan(numLayers: int)
    requires numLayers >= 1
    ensures BaseLine(numLayers).x1 == SquareAt(0).x - Spacing / 2
    ensures BaseLine(numLayers).x2 == SquareAt(numLayers - 1).x + Spacing / 2
  {
  }

  /** The arrow shaft: from 40 to 20 above the square, on its horizontal centre. */
  function ArrowLine(sq: Square): Segment {
    var cx := sq.x + sq.size / 2;
    Segment(cx, sq.y - 40, cx, sq.y - 20)
  }

  /** The arrow head: a triangle below the shaft's end with its tip 12 further down. */
  function ArrowHead(sq: Square): seq<Point> {
    var cx := sq.x + sq.size / 2;
    var endY := sq.y - 20;
    [Point(cx, endY + ArrowSize), Point(cx + ArrowSize / 2, endY), Point(cx - ArrowSize / 2, endY)]
  }

  /**
   * The arrow is vertical over the square's centre and points down at it: the shaft
   * ends where the head's base is, and the tip stays above the square's top edge.
   */
  lemma {:induction false} ArrowPointsAtSquare(i: int)
    ensures var sq, l, h := SquareAt(i), ArrowLine(SquareAt(i)), ArrowHead(SquareAt(i));
            && l.x1 == l.x2 == h[0].x
            && sq.x < l.x1 < sq.x + sq.size
            && l.y1 < l.y2 < h[0].y < sq.y
            && h[1].y == h[2].y == l.y2
            && h[1].x - l.x2 == l.x2 - h[2].x == ArrowSize / 2
  {
  }

  class QAOALayerCanvas {
    /** The square items, in strip order. */
    var squares: seq<Square>
    /** The label items of the scene, one per square. */
    var labels: seq<LayerLabel>
    var baseLine: Option<Segment>
    var arrowLine: Option<Segment>
    var arrowHead: Option<seq<Point>>

    /**
     * Squares exist only after draw_layers, which also creates the arrow items. The
     * source sets the squares without the arrow only if a caller does so from outside;
     * update_arrow then calls setLine on None, an AttributeError this invariant rules out.
     */
    ghost predicate Valid()
      reads this
    {
      squares != [] ==> arrowLine.Some? && arrowHead.Some?
    }

    /** A fresh canvas: no squares and no arrow items yet. */
    constructor ()
      ensures Valid()
      ensures squares == [] && labels == [] && baseLine == None
      ensures arrowLine == None && arrowHead == None
    {
      squares := [];
      labels := [];
      baseLine := None;
      arrowLine := None;
      arrowHead := None;
    }

    /**
     * update_arrow(layer_index): point the arrow at square layer_index. An index past
     * the end changes nothing; a negative one counts from the end, and one below
     * -len(squares) raises IndexError.
     */
    method UpdateArrow(layerIndex: int) returns (r: Result<()>)
      requires Valid()
      modifies this
      ensures Valid()
      ensures squares == old(squares) && labels == old(labels) && baseLine == old(baseLine)
      ensures layerIndex >= |squares| ==> r.Ok? && arrowLine == old(arrowLine) && arrowHead == old(arrowHead)
      ensures layerIndex < -|squares| ==> r == Err(IndexError) && arrowLine == old(arrowLine) && arrowHead == old(arrowHead)
      ensures -|squares| <= layerIndex < |squares| ==>
                && r.Ok?
                && arrowLine == Some(ArrowLine(squares[Position(|squares|, layerIndex)]))
                && arrowHead == Some(ArrowHead(squares[Position(|squares|, layerIndex)]))
    {
      if layerIndex >= |squares| {
        return Ok(());
      }
      var square :- Index(squares, layerIndex);
      arrowLine := Some(ArrowLine(square));
      arrowHead := Some(ArrowHead(square));
      return Ok(());
    }

    /**
     * draw_layers(num_layers): clear the scene, lay out the squares and their labels,
     * draw the base line, create the arrow and point it at layer 0.
     */
    method DrawLayers(numLayers: int)
      requires Valid()
      modifies this
      ensures Valid()
      ensures squares == Squares(numLayers) && labels == Labels(numLayers, MixerAngle)
      ensures baseLine == Some(BaseLine(numLayers))
      ensures numLayers > 0 ==> arrowLine == Some(ArrowLine(SquareAt(0))) && arrowHead == Some(ArrowHead(SquareAt(0)))
      ensures numLayers <= 0 ==> arrowLine == Some(Segment(0, 0, 0, 0)) && arrowHead == Some([])
    {
      squares := [];
      labels := [];
      var idx := -1;
      baseLine := Some(BaseLine(numLayers));
      var i := 0;
      while i < numLayers
        invariant i == 0 || 0 < i <= numLayers
        invariant |squares| == i && |labels| == i
        invariant idx == (i + 1) / 2 - 1
        invariant forall k :: 0 <= k < i ==> squares[k] == SquareAt(k) && labels[k] == LabelAt(k, MixerAngle)
        invariant baseLine == Some(BaseLine(numLayers))
      {
        var x := StartX + i * (SquareSize + Spacing);
        if i % 2 == 0 {
          idx := idx + 1;
        }
        var op := if i % 2 == 0 then 'C' else 'M';
        var angle := if i % 2 == 0 then 'γ' else 'β';
        labels := labels + [LayerLabel(op, angle, idx)];
        squares := squares + [Square(x, Top, SquareSize)];
        i := i + 1;
      }
      assert squares == Squares(numLayers);
      assert labels == Labels(numLayers, MixerAngle);
      arrowLine := Some(Segment(0, 0, 0, 0));
      arrowHead := Some([]);
      var _ := UpdateArrow(0);
    }
  }
}
