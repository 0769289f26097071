/** Indicator geometry: closed-form functions of the pull offset and of a
    reference distance `maxOffsetY` (the trigger distance at every call site).
    The "slingshot" drives the arc trim, its rotation and the arrow size; the
    indicator offset places the indicator vertically. Both share the tension
    curve that measures overshoot past the reference distance. */
module Indicator {
  import opened RealMath

  /** The arc never sweeps more than 80% of a full circle. */
  const MaxProgressArc: real := 0.8

  /** `min(1, offsetY / maxOffsetY)`. */
  function OffsetPercent(offsetY: real, maxOffsetY: real): (p: real)
    requires maxOffsetY > 0.0
    ensures p <= 1.0
    ensures offsetY >= 0.0 ==> p >= 0.0
    ensures offsetY >= maxOffsetY ==> p == 1.0
    ensures offsetY <= maxOffsetY ==> p * maxOffsetY == offsetY
    ensures offsetY <= 0.4 * maxOffsetY ==> p <= 0.4
    ensures offsetY >= 0.4 * maxOffsetY ==> p >= 0.4
    ensures maxOffsetY * p == Min(offsetY, maxOffsetY)
  {
    var ratio := offsetY / maxOffsetY;
    DivMonotone(0.0, offsetY, maxOffsetY);
    DivMonotone(offsetY, maxOffsetY, maxOffsetY);
    DivMonotone(maxOffsetY, offsetY, maxOffsetY);
    DivMonotone(offsetY, 0.4 * maxOffsetY, maxOffsetY);
    DivCancel(0.4, maxOffsetY);
    DivCancel(1.0, maxOffsetY);
    Min(1.0, ratio)
  }

  lemma OffsetPercentMonotone(y1: real, y2: real, maxOffsetY: real)
    requires maxOffsetY > 0.0
    requires y1 <= y2
    ensures OffsetPercent(y1, maxOffsetY) <= OffsetPercent(y2, maxOffsetY)
  {
    DivMonotone(y1, y2, maxOffsetY);
  }

  /** The arc and arrow stay still for the first 40% of the distance and then
      grow to full size at 100%. */
  function AdjustedPercent(offsetY: real, maxOffsetY: real): (a: real)
    requires maxOffsetY > 0.0
    ensures 0.0 <= a <= 1.0
    ensures offsetY <= 0.4 * maxOffsetY ==> a == 0.0
    ensures offsetY >= maxOffsetY ==> a == 1.0
    ensures 0.4 * maxOffsetY <= offsetY <= maxOffsetY ==>
              0.6 * maxOffsetY * a == offsetY - 0.4 * maxOffsetY
  {
    var p := OffsetPercent(offsetY, maxOffsetY);
    var adjusted := Max(p - 0.4, 0.0) * 5.0 / 3.0;
    assert 0.4 * maxOffsetY <= offsetY <= maxOffsetY ==>
             0.6 * maxOffsetY * adjusted == offsetY - 0.4 * maxOffsetY by {
      if 0.4 * maxOffsetY <= offsetY <= maxOffsetY {
        var d := p - 0.4;
        assert adjusted == d * 5.0 / 3.0;
        assert 0.6 * maxOffsetY * adjusted == maxOffsetY * d;
        assert maxOffsetY * d == maxOffsetY * p - 0.4 * maxOffsetY;
      }
    }
    adjusted
  }

  lemma AdjustedPercentMonotone(y1: real, y2: real, maxOffsetY: real)
    requires maxOffsetY > 0.0
    requires y1 <= y2
    ensures AdjustedPercent(y1, maxOffsetY) <= AdjustedPercent(y2, maxOffsetY)
  {
    OffsetPercentMonotone(y1, y2, maxOffsetY);
  }

  /** Overshoot past `maxOffsetY` as a multiple of it, capped at 2. */
  function TensionSlingshotPercent(offsetY: real, maxOffsetY: real): (t: real)
    requires maxOffsetY > 0.0
    ensures 0.0 <= t <= 2.0
    ensures Abs(offsetY) <= maxOffsetY ==> t == 0.0
    ensures Abs(offsetY) >= 3.0 * maxOffsetY ==> t == 2.0
    ensures maxOffsetY <= Abs(offsetY) <= 3.0 * maxOffsetY ==>
              t * maxOffsetY == Abs(offsetY) - maxOffsetY
  {
    var capped := Min(Abs(offsetY) - maxOffsetY, maxOffsetY * 2.0);
    DivMulCancel(capped, maxOffsetY);
    DivMonotone(capped, 2.0 * maxOffsetY, maxOffsetY);
    DivCancel(2.0, maxOffsetY);
    DivCancel(0.0, maxOffsetY);
    assert capped <= 0.0 ==> capped / maxOffsetY <= 0.0 by {
      if capped <= 0.0 {
        DivMonotone(capped, 0.0, maxOffsetY);
      }
    }
    Max(0.0, capped / maxOffsetY)
  }

  lemma TensionSlingshotPercentMonotone(y1: real, y2: real, maxOffsetY: real)
    requires maxOffsetY > 0.0
    requires Abs(y1) <= Abs(y2)
    ensures TensionSlingshotPercent(y1, maxOffsetY) <= TensionSlingshotPercent(y2, maxOffsetY)
  {
    var c1 := Min(Abs(y1) - maxOffsetY, maxOffsetY * 2.0);
    var c2 := Min(Abs(y2) - maxOffsetY, maxOffsetY * 2.0);
    DivMonotone(c1, c2, maxOffsetY);
  }

  /** `q - q^2` on `[0, 1/2]`: between 0 and 1/4, and 1/4 exactly at 1/2. */
  lemma EaseBounds(q: real)
    requires 0.0 <= q <= 0.5
    ensures 0.0 <= q - q * q <= 0.25
    ensures q == 0.0 ==> q - q * q == 0.0
    ensures q == 0.5 ==> q - q * q == 0.25
  {
    MulMonotone(q, q, 1.0);
    var d := 0.5 - q;
    assert 0.25 - (q - q * q) == d * d;
    MulMonotone(d, 0.0, d);
    if q == 0.5 {
      assert d == 0.0;
    }
  }

  /** `q - q^2` rises on `[0, 1/2]`. */
  lemma EaseMonotone(q1: real, q2: real)
    requires 0.0 <= q1 <= q2 <= 0.5
    ensures q1 - q1 * q1 <= q2 - q2 * q2
  {
    assert (q2 - q2 * q2) - (q1 - q1 * q1) == (q2 - q1) * (1.0 - q1 - q2);
    MulMonotone(q2 - q1, 0.0, 1.0 - q1 - q2);
  }

  /** The eased curve in terms of the overshoot `d = q * 4 * m`: scaled by
      `8 m^2` it is `4 m d - d^2`. */
  lemma EaseInOvershoot(m: real, q: real, d: real)
    requires 4.0 * q * m == d
    ensures 8.0 * m * m * ((q - q * q) * 2.0) == 4.0 * m * d - d * d
  {
    var u := q * m;
    assert d == 4.0 * u;
    assert m * m * q == m * u;
    assert m * m * (q * q) == u * u;
    assert 8.0 * m * m * ((q - q * q) * 2.0) == 16.0 * (m * m * q) - 16.0 * (m * m * (q * q));
  }

  /** The eased slingshot curve `(t/4 - (t/4)^2) * 2`: zero within the
      reference distance, rising along a parabola in the overshoot to one half
      at three times it. */
  function TensionPercent(offsetY: real, maxOffsetY: real): (t: real)
    requires maxOffsetY > 0.0
    ensures 0.0 <= t <= 0.5
    ensures Abs(offsetY) <= maxOffsetY ==> t == 0.0
    ensures Abs(offsetY) >= 3.0 * maxOffsetY ==> t == 0.5
    ensures maxOffsetY <= Abs(offsetY) <= 3.0 * maxOffsetY ==>
              8.0 * maxOffsetY * maxOffsetY * t
                == 4.0 * maxOffsetY * (Abs(offsetY) - maxOffsetY)
                   - (Abs(offsetY) - maxOffsetY) * (Abs(offsetY) - maxOffsetY)
  {
    var slingshot := TensionSlingshotPercent(offsetY, maxOffsetY);
    var q := slingshot / 4.0;
    var eased := (q - q * q) * 2.0;
    EaseBounds(q);
    assert maxOffsetY <= Abs(offsetY) <= 3.0 * maxOffsetY ==>
             8.0 * maxOffsetY * maxOffsetY * eased
               == 4.0 * maxOffsetY * (Abs(offsetY) - maxOffsetY)
                  - (Abs(offsetY) - maxOffsetY) * (Abs(offsetY) - maxOffsetY) by {
      if maxOffsetY <= Abs(offsetY) <= 3.0 * maxOffsetY {
        assert slingshot * maxOffsetY == Abs(offsetY) - maxOffsetY;
        EaseInOvershoot(maxOffsetY, q, Abs(offsetY) - maxOffsetY);
      }
    }
    eased
  }

  lemma TensionMonotone(y1: real, y2: real, maxOffsetY: real)
    requires maxOffsetY > 0.0
    requires Abs(y1) <= Abs(y2)
    ensures TensionPercent(y1, maxOffsetY) <= TensionPercent(y2, maxOffsetY)
  {
    TensionSlingshotPercentMonotone(y1, y2, maxOffsetY);
    var q1 := TensionSlingshotPercent(y1, maxOffsetY) / 4.0;
    var q2 := TensionSlingshotPercent(y2, maxOffsetY) / 4.0;
    EaseMonotone(q1, q2);
  }

  /** What the painter draws: the arc's trim, its rotation (in turns) and the
      arrow's scale. */
  datatype Slingshot = Slingshot(startTrim: real, endTrim: real, rotation: real, arrowScale: real)

  /** The arc opens from nothing at 40% of the distance to its full 80% sweep at
      the trigger, with the arrow growing in step; overshoot only adds rotation. */
  function UpdatedSlingshot(offsetY: real, maxOffsetY: real): (s: Slingshot)
    requires maxOffsetY > 0.0
    ensures s.startTrim == 0.0
    ensures 0.0 <= s.endTrim <= MaxProgressArc
    ensures 0.0 <= s.arrowScale <= 1.0
    ensures s.endTrim == MaxProgressArc * s.arrowScale
    ensures offsetY <= 0.4 * maxOffsetY ==> s.endTrim == 0.0 && s.arrowScale == 0.0
    ensures offsetY >= maxOffsetY ==> s.endTrim == MaxProgressArc && s.arrowScale == 1.0
    ensures s.arrowScale == AdjustedPercent(offsetY, maxOffsetY)
    ensures -0.125 <= s.rotation <= 0.575
    ensures s.rotation == -0.125 + 0.2 * s.arrowScale + TensionPercent(offsetY, maxOffsetY)
  {
    var adjusted := AdjustedPercent(offsetY, maxOffsetY);
    var tension := TensionPercent(offsetY, maxOffsetY);
    var strokeStart := adjusted * 0.8;
    Slingshot(
      0.0,
      Min(strokeStart, MaxProgressArc),
      (-0.25 + 0.4 * adjusted + tension * 2.0) * 0.5,
      Min(1.0, adjusted))
  }

  /** At rest the arc is empty, the arrow hidden and the arc turned back an
      eighth of a turn. */
  lemma SlingshotAtRest(maxOffsetY: real)
    requires maxOffsetY > 0.0
    ensures UpdatedSlingshot(0.0, maxOffsetY) == Slingshot(0.0, 0.0, -0.125, 0.0)
  {
  }

  /** The arc only grows as the pull grows. */
  lemma EndTrimMonotone(y1: real, y2: real, maxOffsetY: real)
    requires maxOffsetY > 0.0
    requires y1 <= y2
    ensures UpdatedSlingshot(y1, maxOffsetY).endTrim <= UpdatedSlingshot(y2, maxOffsetY).endTrim
    ensures UpdatedSlingshot(y1, maxOffsetY).arrowScale <= UpdatedSlingshot(y2, maxOffsetY).arrowScale
  {
    AdjustedPercentMonotone(y1, y2, maxOffsetY);
  }

  /** The arc only turns forward as a downward pull grows. */
  lemma RotationMonotone(y1: real, y2: real, maxOffsetY: real)
    requires maxOffsetY > 0.0
    requires 0.0 <= y1 <= y2
    ensures UpdatedSlingshot(y1, maxOffsetY).rotation <= UpdatedSlingshot(y2, maxOffsetY).rotation
  {
    AdjustedPercentMonotone(y1, y2, maxOffsetY);
    TensionMonotone(y1, y2, maxOffsetY);
  }

  /** The tension's share of `maxOffsetY` lies within half of it, with both
      ends reached exactly. */
  lemma ExtraMoveBounds(maxOffsetY: real, tension: real)
    requires maxOffsetY > 0.0
    requires 0.0 <= tension <= 0.5
    ensures 0.0 <= maxOffsetY * tension <= 0.5 * maxOffsetY
    ensures tension == 0.0 ==> maxOffsetY * tension == 0.0
    ensures tension == 0.5 ==> maxOffsetY * tension == 0.5 * maxOffsetY
  {
    assert 0.5 * maxOffsetY - maxOffsetY * tension == maxOffsetY * (0.5 - tension);
  }

  /** Vertical placement of the indicator: it follows the pull exactly up to
      `maxOffsetY`, then moves on by the eased overshoot, never past one and a
      half times `maxOffsetY`. */
  function IndicatorOffset(pullOffsetY: real, maxOffsetY: real): (r: real)
    requires maxOffsetY > 0.0
    ensures 0.0 <= pullOffsetY <= maxOffsetY ==> r == pullOffsetY
    ensures r <= 1.5 * maxOffsetY
    ensures pullOffsetY >= 0.0 ==> r >= 0.0
    ensures pullOffsetY >= maxOffsetY ==>
              r == maxOffsetY + maxOffsetY * TensionPercent(pullOffsetY, maxOffsetY) >= maxOffsetY
    ensures pullOffsetY >= 3.0 * maxOffsetY ==> r == 1.5 * maxOffsetY
  {
    var offsetPercent := OffsetPercent(pullOffsetY, maxOffsetY);
    var tensionPercent := TensionPercent(pullOffsetY, maxOffsetY);
    var followed := maxOffsetY * offsetPercent;
    var extraMove := maxOffsetY * tensionPercent;
    assert followed == Min(pullOffsetY, maxOffsetY);
    ExtraMoveBounds(maxOffsetY, tensionPercent);
    followed + extraMove
  }

  /** The indicator only moves down as a downward pull grows. */
  lemma IndicatorOffsetMonotone(p1: real, p2: real, maxOffsetY: real)
    requires maxOffsetY > 0.0
    requires 0.0 <= p1 <= p2
    ensures IndicatorOffset(p1, maxOffsetY) <= IndicatorOffset(p2, maxOffsetY)
  {
    var r1, r2 := IndicatorOffset(p1, maxOffsetY), IndicatorOffset(p2, maxOffsetY);
    if maxOffsetY <= p1 {
      var t1, t2 := TensionPercent(p1, maxOffsetY), TensionPercent(p2, maxOffsetY);
      TensionMonotone(p1, p2, maxOffsetY);
      MulMonotone(maxOffsetY, t1, t2);
      assert r1 == maxOffsetY + maxOffsetY * t1;
      assert r2 == maxOffsetY + maxOffsetY * t2;
    } else if p2 <= maxOffsetY {
      assert r1 == p1 && r2 == p2;
    } else {
      assert r1 == p1 && r2 >= maxOffsetY;
    }
  }
}
