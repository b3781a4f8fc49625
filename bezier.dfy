/**
 * A fuel-behaviour response curve: a cubic Bezier from (0, min) through two
 * control points to (max, max), read off on its y coordinate and clamped to
 * [min, max].
 */
module Bezier {
  import opened Mathf

  datatype BezierCurve = BezierCurve(x1: real, y1: real, x2: real, y2: real, min: real, max: real) {

    /** The y coordinate of the Bezier blend at parameter `t`, before clamping. */
    function BlendY(t: real): real {
      var u := 1.0 - t;
      u * u * u * min + 3.0 * u * u * t * y1 + 3.0 * u * t * t * y2 + t * t * t * max
    }

    /**
     * `Evaluate`: the parameter is clamped to [0, 1] and the blended y is
     * clamped to [min, max].
     */
    function Evaluate(t: real): (y: real)
      ensures min <= max ==> min <= y <= max
    {
      var s := Clamp01(t);
      Clamp(BlendY(s), min, max)
    }

    /** `EvaluateWithInput`: the input's clamped position between the bounds picks the parameter. */
    function EvaluateWithInput(input: real, inputMin: real, inputMax: real): (y: real)
      ensures min <= max ==> min <= y <= max
    {
      Evaluate(InverseLerp(inputMin, inputMax, input))
    }
  }

  /** A curve with every field at its declared default: all 0 except `max = 100`. */
  const DefaultCurve: BezierCurve := BezierCurve(0.0, 0.0, 0.0, 0.0, 0.0, 100.0)

  /** `BezierCurve.From`: a curve holding exactly the six given numbers. */
  function From(x1: real, y1: real, x2: real, y2: real, min: real, max: real): (c: BezierCurve)
    ensures c.x1 == x1 && c.y1 == y1 && c.x2 == x2 && c.y2 == y2 && c.min == min && c.max == max
  {
    BezierCurve(x1, y1, x2, y2, min, max)
  }

  /** A parameter outside [0, 1] evaluates like the nearer end. */
  lemma {:induction false} EvaluateClampsParameter(c: BezierCurve, t: real)
    ensures t <= 0.0 ==> c.Evaluate(t) == c.Evaluate(0.0)
    ensures t >= 1.0 ==> c.Evaluate(t) == c.Evaluate(1.0)
    ensures c.Evaluate(t) == c.Evaluate(Clamp01(t))
  {
    assert Clamp01(Clamp01(t)) == Clamp01(t);
  }

  /** The curve starts at `min`. */
  lemma {:induction false} EvaluateAtZero(c: BezierCurve)
    requires c.min <= c.max
    ensures c.Evaluate(0.0) == c.min
  {
    assert c.BlendY(0.0) == c.min;
  }

  /** The curve ends at `max`, because its end point is (max, max). */
  lemma {:induction false} EvaluateAtOne(c: BezierCurve)
    requires c.min <= c.max
    ensures c.Evaluate(1.0) == c.max
  {
    assert c.BlendY(1.0) == c.max;
  }

  /**
   * An input at or below the range's start reads the curve's start, one at
   * or above the range's end its end; an empty range reads the start. With
   * `min <= max` these are `min` and `max`.
   */
  lemma {:induction false} EvaluateWithInputEnds(c: BezierCurve, input: real, inputMin: real, inputMax: real)
    ensures inputMin < inputMax && input <= inputMin ==> c.EvaluateWithInput(input, inputMin, inputMax) == c.Evaluate(0.0)
    ensures inputMin < inputMax && input >= inputMax ==> c.EvaluateWithInput(input, inputMin, inputMax) == c.Evaluate(1.0)
    ensures inputMin == inputMax ==> c.EvaluateWithInput(input, inputMin, inputMax) == c.Evaluate(0.0)
    ensures c.min <= c.max && inputMin < inputMax && input <= inputMin ==> c.EvaluateWithInput(input, inputMin, inputMax) == c.min
    ensures c.min <= c.max && inputMin < inputMax && input >= inputMax ==> c.EvaluateWithInput(input, inputMin, inputMax) == c.max
  {
    if c.min <= c.max {
      EvaluateAtZero(c);
      EvaluateAtOne(c);
    }
  }
}
