/**
 * The counting loop `for (c = start; c <= limit; c += step)` with a real
 * step, which the grid background runs on each axis and which the camera's
 * shake timer runs one frame at a time. It ends for every positive step.
 */
module Stepping {

  /** How many more times a loop `for (c = start; c <= limit; c += step)` runs. */
  function Remaining(start: real, step: real, limit: real): nat
    requires step > 0.0
  {
    if start > limit then 0 else StepFacts(start, step, limit); ((limit - start) / step).Floor + 1
  }

  /** Helper: the quotient is non-negative, and one step lowers it by exactly one. */
  lemma StepFacts(start: real, step: real, limit: real)
    requires step > 0.0 && start <= limit
    ensures (limit - start) / step >= 0.0
    ensures (limit - (start + step)) / step == (limit - start) / step - 1.0
  {
    var q := (limit - start) / step;
    var r := (limit - (start + step)) / step;
    assert q * step == limit - start;
    assert r * step == limit - (start + step);
    assert (q - 1.0) * step == limit - (start + step);
    assert (r - (q - 1.0)) * step == 0.0;
    ZeroProduct(r - (q - 1.0), step);
  }

  /** Helper: a product with a positive factor is zero only when the other factor is. */
  lemma ZeroProduct(a: real, s: real)
    requires s > 0.0 && a * s == 0.0
    ensures a == 0.0
  {
  }

  /** One step takes exactly one iteration off the loop. */
  lemma RemainingShrinks(start: real, step: real, limit: real)
    requires step > 0.0 && start <= limit
    ensures Remaining(start + step, step, limit) == Remaining(start, step, limit) - 1
  {
    StepFacts(start, step, limit);
    var q := (limit - start) / step;
    assert (q - 1.0).Floor == q.Floor - 1;
    if start + step > limit {
      assert q * step == limit - start;
      assert q < 1.0;
    }
  }

  /** The coordinates `for (c = start; c <= limit; c += step)` visits, in order. */
  function Positions(start: real, step: real, limit: real): seq<real>
    requires step > 0.0
    decreases Remaining(start, step, limit)
  {
    if start > limit then []
    else
      RemainingShrinks(start, step, limit);
      [start] + Positions(start + step, step, limit)
  }

  /**
   * The visited coordinates: as many as the loop has iterations, none when
   * start is past the limit; otherwise the
   * first is start, each is at most the limit, consecutive ones are one step
   * apart, and one more step would pass the limit.
   */
  lemma {:induction false} PositionsShape(start: real, step: real, limit: real)
    requires step > 0.0
    ensures var cs := Positions(start, step, limit);
      && |cs| == Remaining(start, step, limit)
      && (cs == [] <==> start > limit)
      && (cs != [] ==> cs[0] == start && cs[|cs| - 1] + step > limit)
      && (forall i :: 0 <= i < |cs| ==> cs[i] <= limit)
      && (forall i :: 0 <= i < |cs| - 1 ==> cs[i + 1] == cs[i] + step)
    decreases Remaining(start, step, limit)
  {
    if start <= limit {
      RemainingShrinks(start, step, limit);
      PositionsShape(start + step, step, limit);
      var rest := Positions(start + step, step, limit);
      var cs := Positions(start, step, limit);
      assert cs == [start] + rest;
      forall i | 0 <= i < |cs| - 1
        ensures cs[i + 1] == cs[i] + step
      {
        if i > 0 {
          assert cs[i] == rest[i - 1] && cs[i + 1] == rest[i];
        }
      }
    }
  }
}
