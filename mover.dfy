/**
 * `Mover::run` (src/systems.rs): each entity is moved toward its target by
 * its step rate, and lands on the target exactly once it is within one step.
 *
 * The distance `d = |pos - target|` is an input here: the program computes it
 * with a square root (`magnitude`), which has no exact counterpart over the
 * reals. Callers supply it together with the fact that defines it,
 * `d >= 0 && d * d == SqNorm(pos - target)`.
 */
module Mover {
  import opened Components
  import opened Ecs

  /** `d` is the distance between `p` and `t`. */
  ghost predicate IsDistance(p: Vec3, t: Vec3, d: real) {
    0.0 <= d && d * d == SqNorm(Sub(p, t))
  }

  /**
   * The interpolation factor: `max(d - step, 0) / d`, or 0 when `d` is 0.
   * It never goes below 0, never above 1 for a non-negative step, is 0 once the
   * entity is within one step, and otherwise scales the distance down by
   * exactly one step.
   */
  function Factor(d: real, step: real): (f: real)
    ensures 0.0 <= f
    ensures 0.0 <= step ==> f <= 1.0
    ensures d <= step ==> f == 0.0
    ensures 0.0 < d && step < d ==> f * d == d - step
  {
    var newDistance := if d - step > 0.0 then d - step else 0.0;
    if d > 0.0 then newDistance / d else 0.0
  }

  /** The new position: the lerp from the target toward the old position by the factor. */
  function Step(p: Vec3, m: MoveTo, d: real): (r: Vec3)
    ensures Sub(r, m.target) == Scale(Sub(p, m.target), Factor(d, m.step))
  {
    Lerp(m.target, p, Factor(d, m.step))
  }

  /** Within one step of the target, the entity lands on it exactly. */
  lemma Arrives(p: Vec3, m: MoveTo, d: real)
    requires d <= m.step
    ensures Step(p, m, d) == m.target
  {
  }

  lemma SqNormScale(v: Vec3, f: real)
    ensures SqNorm(Scale(v, f)) == (f * f) * SqNorm(v)
  {
    calc {
      SqNorm(Scale(v, f));
      (f * v.x) * (f * v.x) + (f * v.y) * (f * v.y) + (f * v.z) * (f * v.z);
      { assert (f * v.x) * (f * v.x) == (f * f) * (v.x * v.x);
        assert (f * v.y) * (f * v.y) == (f * f) * (v.y * v.y);
        assert (f * v.z) * (f * v.z) == (f * f) * (v.z * v.z); }
      (f * f) * (v.x * v.x) + (f * f) * (v.y * v.y) + (f * f) * (v.z * v.z);
      (f * f) * SqNorm(v);
    }
  }

  /**
   * Farther than one (non-negative) step away, the entity ends exactly one step
   * closer: its new distance to the target is `d - step`.
   */
  lemma {:induction false} StepsCloser(p: Vec3, m: MoveTo, d: real)
    requires IsDistance(p, m.target, d)
    requires 0.0 <= m.step < d
    ensures IsDistance(Step(p, m, d), m.target, d - m.step)
  {
    var f := Factor(d, m.step);
    var r := Step(p, m, d);
    assert Sub(r, m.target) == Scale(Sub(p, m.target), f);
    SqNormScale(Sub(p, m.target), f);
    calc {
      SqNorm(Sub(r, m.target));
      (f * f) * SqNorm(Sub(p, m.target));
      (f * f) * (d * d);
      { assert (f * f) * (d * d) == (f * d) * (f * d); }
      (f * d) * (f * d);
      (d - m.step) * (d - m.step);
    }
  }

  /** A position equal to its target stays there, whatever distance is supplied. */
  lemma FixedPoint(m: MoveTo, d: real)
    ensures Step(m.target, m, d) == m.target
  {
  }

  /**
   * One pass of the mover over every entity that has both a `Pos` and a
   * `MoveTo`, in join order. Only `Pos` is written; `MoveTo` is only read.
   */
  method Run(w: World, dist: seq<real>)
    requires w.Valid()
    requires |dist| == w.pos.Length
    requires forall k :: 0 <= k < |dist| ==> IsDistance(w.pos[k].v, w.moveTo[k].target, dist[k])
    modifies w.pos
    ensures w.Valid() && w.moveTo == old(w.moveTo)
    ensures forall k :: 0 <= k < w.pos.Length ==>
      w.pos[k] == Pos(Step(old(w.pos[k]).v, w.moveTo[k], dist[k]))
    ensures forall k :: 0 <= k < w.pos.Length && dist[k] <= w.moveTo[k].step ==>
      w.pos[k].v == w.moveTo[k].target
    ensures forall k :: 0 <= k < w.pos.Length && 0.0 <= w.moveTo[k].step < dist[k] ==>
      IsDistance(w.pos[k].v, w.moveTo[k].target, dist[k] - w.moveTo[k].step)
  {
    for i := 0 to w.pos.Length
      invariant forall k :: 0 <= k < i ==> w.pos[k] == Pos(Step(old(w.pos[k]).v, w.moveTo[k], dist[k]))
      invariant forall k :: i <= k < w.pos.Length ==> w.pos[k] == old(w.pos[k])
    {
      w.pos[i] := Pos(Step(w.pos[i].v, w.moveTo[i], dist[i]));
    }
    forall k | 0 <= k < w.pos.Length && 0.0 <= w.moveTo[k].step < dist[k]
      ensures IsDistance(w.pos[k].v, w.moveTo[k].target, dist[k] - w.moveTo[k].step)
    {
      StepsCloser(old(w.pos[k]).v, w.moveTo[k], dist[k]);
    }
  }
}
