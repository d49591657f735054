/**
 * The 2D drawing surface the client draws on, seen as the sequence of
 * primitive calls it receives. Nothing ever reads back from the surface, so
 * a trace of calls is all there is to model.
 */
module Canvas {
  import opened VectorMath

  /** One call on the drawing context. */
  datatype CanvasOp =
    | Translate(offset: Vec2)             // ctx.translate(x, y)
    | Rotate(radians: real)               // ctx.rotate(r)
    | DrawImage(at: Vec2, size: Vec2)     // ctx.drawImage(sprite, x, y, w, h)
    | FillCircle(center: Vec2, radius: real)  // beginPath; arc(x, y, r, 0, 2 pi); fill
    | StrokeLine(from: Vec2, to: Vec2)    // beginPath; moveTo; lineTo; stroke
    | FillText(text: string, at: Vec2)    // ctx.fillText(text, x, y)
    | ClearRect(size: Vec2)               // ctx.clearRect(0, 0, w, h)
  {
    predicate IsTransform() {
      Translate? || Rotate?
    }
  }

  /** `b` undoes `a`: a translation by the opposite offset, or a rotation by the opposite angle. */
  predicate Undoes(a: CanvasOp, b: CanvasOp) {
    || (a.Translate? && b.Translate? && b.offset == SubtractVectors(Origin, a.offset))
    || (a.Rotate? && b.Rotate? && b.radians == -a.radians)
  }

  /**
   * The transformations a trace leaves applied to the surface, read left to
   * right: a transformation that undoes the one applied last cancels it,
   * any other is stacked; drawing calls leave the transformation alone.
   * An empty result means the trace restores the transformation it started with.
   */
  function PendingTransforms(ops: seq<CanvasOp>): seq<CanvasOp>
  {
    if ops == [] then []
    else
      var pending := PendingTransforms(ops[..|ops| - 1]);
      var op := ops[|ops| - 1];
      if !op.IsTransform() then pending
      else if pending != [] && Undoes(pending[|pending| - 1], op) then pending[..|pending| - 1]
      else pending + [op]
  }

  /**
   * Translating, rotating, one drawing call, rotating back and translating
   * back leaves the surface's transformation as it found it.
   */
  lemma BracketRestores(t: Vec2, r: real, draw: CanvasOp)
    requires !draw.IsTransform()
    ensures PendingTransforms([Translate(t), Rotate(r), draw, Rotate(-r), Translate(SubtractVectors(Origin, t))]) == []
  {
    var ops := [Translate(t), Rotate(r), draw, Rotate(-r), Translate(SubtractVectors(Origin, t))];
    assert ops[..1] == [Translate(t)];
    assert ops[..2] == ops[..1] + [Rotate(r)];
    assert ops[..3] == ops[..2] + [draw];
    assert ops[..4] == ops[..3] + [Rotate(-r)];
    assert ops == ops[..4] + [Translate(SubtractVectors(Origin, t))];
    assert PendingTransforms(ops[..1]) == [Translate(t)];
    assert PendingTransforms(ops[..2]) == [Translate(t), Rotate(r)];
    assert PendingTransforms(ops[..3]) == [Translate(t), Rotate(r)];
    assert PendingTransforms(ops[..4]) == [Translate(t)];
  }

  /** Without the closing translation the bracket is left open: the translation stays applied. */
  lemma UnclosedBracketLeavesTranslation(t: Vec2, r: real, draw: CanvasOp)
    requires !draw.IsTransform()
    ensures PendingTransforms([Translate(t), Rotate(r), draw, Rotate(-r)]) == [Translate(t)]
  {
    var ops := [Translate(t), Rotate(r), draw, Rotate(-r)];
    assert ops[..1] == [Translate(t)];
    assert ops[..2] == ops[..1] + [Rotate(r)];
    assert ops[..3] == ops[..2] + [draw];
    assert PendingTransforms(ops[..1]) == [Translate(t)];
    assert PendingTransforms(ops[..2]) == [Translate(t), Rotate(r)];
    assert PendingTransforms(ops[..3]) == [Translate(t), Rotate(r)];
  }
}
