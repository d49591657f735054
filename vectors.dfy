/**
 * build/Vectors.js: an older copy of the first four definitions of
 * build/VectorMath.js (no `modVectors`, no `randInt`). It is defined here on
 * its own and proved to agree with VectorMath, so that either file can be
 * used for the other.
 */
module Vectors {
  import VectorMath

  type Vec2 = VectorMath.Vec2

  /** `origin` of Vectors.js. */
  const Origin: Vec2 := VectorMath.Vec2(0.0, 0.0)

  /** `addVectors(v1, v2)` of Vectors.js. */
  function AddVectors(v1: Vec2, v2: Vec2): Vec2 {
    VectorMath.Vec2(v1.x + v2.x, v1.y + v2.y)
  }

  /** `subractVectors(v1, v2)` of Vectors.js. */
  function SubtractVectors(v1: Vec2, v2: Vec2): Vec2 {
    VectorMath.Vec2(v1.x - v2.x, v1.y - v2.y)
  }

  /** `multiplyVectors(v1, v2)` of Vectors.js. */
  function MultiplyVectors(v1: Vec2, v2: Vec2): Vec2 {
    VectorMath.Vec2(v1.x * v2.x, v1.y * v2.y)
  }

  /** The duplicate file computes exactly what VectorMath computes. */
  lemma AgreesWithVectorMath(v1: Vec2, v2: Vec2)
    ensures Origin == VectorMath.Origin
    ensures AddVectors(v1, v2) == VectorMath.AddVectors(v1, v2)
    ensures SubtractVectors(v1, v2) == VectorMath.SubtractVectors(v1, v2)
    ensures MultiplyVectors(v1, v2) == VectorMath.MultiplyVectors(v1, v2)
  {
  }

  /** Component-wise laws of the copy: commutativity and the identity `origin`. */
  lemma AddAndMultiplyCommute(v1: Vec2, v2: Vec2)
    ensures AddVectors(v1, v2) == AddVectors(v2, v1)
    ensures MultiplyVectors(v1, v2) == MultiplyVectors(v2, v1)
    ensures AddVectors(v1, Origin) == v1
  {
  }

  /** Adding `origin - v2` is subtracting v2. */
  lemma SubtractIsAddNegated(v1: Vec2, v2: Vec2)
    ensures AddVectors(v1, SubtractVectors(Origin, v2)) == SubtractVectors(v1, v2)
  {
  }
}
