/**
 * build/GridBackground.js: the debug background, a grid of lines drawn in
 * screen space. Lines are drawn at screen offsets o, o + d, o + 2d, ... up
 * to the screen's edge, where d is the cell size and o = -(topLeft % d)
 * with JavaScript's truncating remainder, so that topLeft + o is a multiple
 * of d. The camera passes the world top-left but a cell size scaled to the
 * screen, so the lines fall on multiples of the world cell size only at
 * scale 1. For a non-negative top-left the first line is at or before the
 * screen's edge; for a negative one it is on screen, less than a cell past
 * the edge. The `GridBackground` class has no state, so its one method
 * `draw` is a method of this module.
 */
module GridBackground {
  import opened VectorMath
  import opened Canvas
  import opened Stepping

  /**
   * `origin - topLeft % dimensions`: the screen offset of the first grid
   * intersection. topLeft + o is a whole number of cells, o is less than a
   * cell from the corner, and it lies at or before the corner for a
   * non-negative top-left and at or after it for a negative one; these
   * determine o.
   */
  function GridOrigin(topLeft: Vec2, dimensions: Vec2): (o: Vec2)
    requires dimensions.x > 0.0 && dimensions.y > 0.0
    ensures IsInteger((topLeft.x + o.x) / dimensions.x) && IsInteger((topLeft.y + o.y) / dimensions.y)
    ensures -dimensions.x < o.x < dimensions.x && -dimensions.y < o.y < dimensions.y
    ensures topLeft.x >= 0.0 ==> o.x <= 0.0
    ensures topLeft.y >= 0.0 ==> o.y <= 0.0
    ensures topLeft.x < 0.0 ==> o.x >= 0.0
    ensures topLeft.y < 0.0 ==> o.y >= 0.0
  {
    var r := ModVectors(topLeft, dimensions);
    assert (topLeft.x - r.x) == topLeft.x + (0.0 - r.x);
    assert (topLeft.y - r.y) == topLeft.y + (0.0 - r.y);
    SubtractVectors(Origin, r)
  }

  /** A vertical line at screen x, from the top edge to the bottom edge. */
  function VerticalLine(x: real, height: real): CanvasOp {
    StrokeLine(Vec2(x, 0.0), Vec2(x, height))
  }

  /** A horizontal line at screen y, from the left edge to the right edge. */
  function HorizontalLine(y: real, width: real): CanvasOp {
    StrokeLine(Vec2(0.0, y), Vec2(width, y))
  }

  function VerticalLines(xs: seq<real>, height: real): (lines: seq<CanvasOp>)
    ensures |lines| == |xs| && forall i :: 0 <= i < |xs| ==> lines[i] == VerticalLine(xs[i], height)
  {
    if xs == [] then [] else VerticalLines(xs[..|xs| - 1], height) + [VerticalLine(xs[|xs| - 1], height)]
  }

  function HorizontalLines(ys: seq<real>, width: real): (lines: seq<CanvasOp>)
    ensures |lines| == |ys| && forall i :: 0 <= i < |ys| ==> lines[i] == HorizontalLine(ys[i], width)
  {
    if ys == [] then [] else HorizontalLines(ys[..|ys| - 1], width) + [HorizontalLine(ys[|ys| - 1], width)]
  }

  /** The lines `draw` emits: every vertical line, then every horizontal line. */
  function GridLines(topLeft: Vec2, dimensions: Vec2, width: real, height: real): seq<CanvasOp>
    requires dimensions.x > 0.0 && dimensions.y > 0.0
  {
    var o := GridOrigin(topLeft, dimensions);
    VerticalLines(Positions(o.x, dimensions.x, width), height)
      + HorizontalLines(Positions(o.y, dimensions.y, height), width)
  }

  /**
   * `draw(ctx, topLeft, bottomRight, dimensions)`: the two loops of the
   * source, one line per iteration. `bottomRight` is accepted and never
   * used, as in the source; the screen size is passed in. The loops end
   * only for positive cell sizes.
   */
  method Draw(topLeft: Vec2, bottomRight: Vec2, dimensions: Vec2, width: real, height: real)
    returns (lines: seq<CanvasOp>)
    requires dimensions.x > 0.0 && dimensions.y > 0.0
    ensures lines == GridLines(topLeft, dimensions, width, height)
  {
    var gridOrigin := SubtractVectors(Origin, ModVectors(topLeft, dimensions));
    var vertical := DrawVerticalLines(gridOrigin.x, dimensions.x, width, height);
    var horizontal := DrawHorizontalLines(gridOrigin.y, dimensions.y, width, height);
    lines := vertical + horizontal;
  }

  /** The first loop of `draw`: a vertical line at every x from start while x <= width. */
  method DrawVerticalLines(start: real, step: real, width: real, height: real) returns (lines: seq<CanvasOp>)
    requires step > 0.0
    ensures lines == VerticalLines(Positions(start, step, width), height)
  {
    lines := [];
    var x := start;
    ghost var xs: seq<real> := [];
    while x <= width
      invariant xs + Positions(x, step, width) == Positions(start, step, width)
      invariant lines == VerticalLines(xs, height)
      decreases Remaining(x, step, width)
    {
      RemainingShrinks(x, step, width);
      assert Positions(x, step, width) == [x] + Positions(x + step, step, width);
      lines := lines + [VerticalLine(x, height)];
      xs := xs + [x];
      x := x + step;
    }
  }

  /** The second loop of `draw`: a horizontal line at every y from start while y <= height. */
  method DrawHorizontalLines(start: real, step: real, width: real, height: real) returns (lines: seq<CanvasOp>)
    requires step > 0.0
    ensures lines == HorizontalLines(Positions(start, step, height), width)
  {
    lines := [];
    var y := start;
    ghost var ys: seq<real> := [];
    while y <= height
      invariant ys + Positions(y, step, height) == Positions(start, step, height)
      invariant lines == HorizontalLines(ys, width)
      decreases Remaining(y, step, height)
    {
      RemainingShrinks(y, step, height);
      assert Positions(y, step, height) == [y] + Positions(y + step, step, height);
      lines := lines + [HorizontalLine(y, width)];
      ys := ys + [y];
      y := y + step;
    }
  }

  /**
   * What the grid looks like: the first vertical lines come first, each one
   * spans the screen's height at an x no greater than the width, consecutive
   * ones are dimensions.x apart and the first sits at the grid origin; the
   * horizontal lines follow with the same shape on the other axis.
   */
  lemma GridLinesShape(topLeft: Vec2, dimensions: Vec2, width: real, height: real)
    requires dimensions.x > 0.0 && dimensions.y > 0.0
    ensures var o := GridOrigin(topLeft, dimensions);
      var xs := Positions(o.x, dimensions.x, width);
      var ys := Positions(o.y, dimensions.y, height);
      var lines := GridLines(topLeft, dimensions, width, height);
      && |lines| == |xs| + |ys|
      && (forall i :: 0 <= i < |xs| ==>
            lines[i] == StrokeLine(Vec2(xs[i], 0.0), Vec2(xs[i], height)) && xs[i] <= width)
      && (forall j :: 0 <= j < |ys| ==>
            lines[|xs| + j] == StrokeLine(Vec2(0.0, ys[j]), Vec2(width, ys[j])) && ys[j] <= height)
      && (xs != [] ==> xs[0] == o.x && xs[|xs| - 1] + dimensions.x > width)
      && (ys != [] ==> ys[0] == o.y && ys[|ys| - 1] + dimensions.y > height)
      && (forall i :: 0 <= i < |xs| - 1 ==> xs[i + 1] == xs[i] + dimensions.x)
      && (forall j :: 0 <= j < |ys| - 1 ==> ys[j + 1] == ys[j] + dimensions.y)
  {
    var o := GridOrigin(topLeft, dimensions);
    PositionsShape(o.x, dimensions.x, width);
    PositionsShape(o.y, dimensions.y, height);
  }

  /**
   * Where the first vertical line falls. With a non-negative top-left it is
   * at or before the screen's left edge and less than a cell before it, so
   * it is always drawn. With a negative top-left it is on screen, less than
   * a cell past the edge, and drawn whenever the screen is at least a cell
   * wide.
   */
  lemma GridFirstLine(topLeft: Vec2, dimensions: Vec2, width: real)
    requires dimensions.x > 0.0 && dimensions.y > 0.0
    ensures var xs := Positions(GridOrigin(topLeft, dimensions).x, dimensions.x, width);
      && (topLeft.x >= 0.0 && width >= 0.0 ==> xs != [] && -dimensions.x < xs[0] <= 0.0)
      && (topLeft.x < 0.0 && width >= dimensions.x ==> xs != [] && 0.0 <= xs[0] < dimensions.x)
  {
    var o := GridOrigin(topLeft, dimensions);
    PositionsShape(o.x, dimensions.x, width);
  }
}
