/** The rubber-band damping of a pull. The source computes the share of a drag
    that moves the indicator as `cos(progress * PI / 2)`, where `progress` is how
    far the pull already is towards its maximum. The model does not compute a
    cosine: the curve is a parameter `rate`, and every fact proved about the
    damping rests only on the three properties `IsDampingCurve` names. */
module Damping {
  import opened RealMath

  /** What the model assumes of `progress -> cos(progress * PI / 2)` on `[0, 1]`:
      the whole drag passes at rest, the share stays within `[0, 1]`, and the
      share never grows as the pull progresses. */
  ghost predicate IsDampingCurve(rate: real -> real) {
    && rate(0.0) == 1.0
    && (forall p :: 0.0 <= p <= 1.0 ==> 0.0 <= rate(p) <= 1.0)
    && (forall p, q :: 0.0 <= p <= q <= 1.0 ==> rate(q) <= rate(p))
  }

  /** `min(1, |cur| / maxOffset)`: how far the current offset is towards the maximum. */
  function DampingProgress(cur: real, maxOffset: real): (p: real)
    requires maxOffset > 0.0
    ensures 0.0 <= p <= 1.0
    ensures cur == 0.0 ==> p == 0.0
    ensures Abs(cur) >= maxOffset ==> p == 1.0
    ensures maxOffset * p == Min(Abs(cur), maxOffset)
  {
    var ratio := Abs(cur) / maxOffset;
    DivMulCancel(Abs(cur), maxOffset);
    DivMonotone(0.0, Abs(cur), maxOffset);
    DivMonotone(maxOffset, Abs(cur), maxOffset);
    DivCancel(1.0, maxOffset);
    DivCancel(0.0, maxOffset);
    Min(1.0, ratio)
  }

  /** Progress grows with the distance from rest. */
  lemma ProgressMonotone(cur1: real, cur2: real, maxOffset: real)
    requires maxOffset > 0.0
    requires Abs(cur1) <= Abs(cur2)
    ensures DampingProgress(cur1, maxOffset) <= DampingProgress(cur2, maxOffset)
  {
    DivMonotone(Abs(cur1), Abs(cur2), maxOffset);
  }

  /** `available * rate(progress)`: the share of a drag that passes. Given a
      rate in `[0, 1]` it has the sign of the drag and no larger magnitude, and
      all of it passes at rate 1. */
  function DampedShare(rate: real -> real, available: real, progress: real): (r: real)
    requires 0.0 <= rate(progress) <= 1.0
    ensures available >= 0.0 ==> 0.0 <= r <= available
    ensures available <= 0.0 ==> available <= r <= 0.0
    ensures rate(progress) == 1.0 ==> r == available
    ensures available != 0.0 ==> (r == available <==> rate(progress) == 1.0)
  {
    var k := rate(progress);
    var share := available * k;
    ScaleByFraction(available, k);
    if available != 0.0 then UnitFactorOnly(available, k); share else share
  }

  /** A lower rate passes a smaller share of a downward drag, strictly so for
      a strictly lower rate and a non-empty drag. */
  lemma LowerRateSmallerShare(rate: real -> real, available: real, p1: real, p2: real)
    requires 0.0 <= rate(p2) <= rate(p1) <= 1.0
    requires available >= 0.0
    ensures DampedShare(rate, available, p2) <= DampedShare(rate, available, p1)
    ensures available > 0.0 && rate(p2) < rate(p1) ==>
              DampedShare(rate, available, p2) < DampedShare(rate, available, p1)
  {
    var k1, k2 := rate(p1), rate(p2);
    MulMonotone(available, k2, k1);
    assert available * k1 - available * k2 == available * (k1 - k2);
    assert DampedShare(rate, available, p1) == available * k1;
    assert DampedShare(rate, available, p2) == available * k2;
  }

  /** A drag passes less the further the pull has progressed. */
  lemma DampedShareShrinks(rate: real -> real, available: real, p1: real, p2: real)
    requires IsDampingCurve(rate)
    requires 0.0 <= p1 <= p2 <= 1.0
    requires available >= 0.0
    ensures DampedShare(rate, available, p2) <= DampedShare(rate, available, p1)
    ensures available > 0.0 && rate(p2) < rate(p1) ==>
              DampedShare(rate, available, p2) < DampedShare(rate, available, p1)
  {
    LowerRateSmallerShare(rate, available, p1, p2);
  }

  /** A linear curve `1 - p`, used only to show that the assumptions about
      the damping curve can all hold at once. */
  function LinearCurve(): real -> real {
    p => if p <= 0.0 then 1.0 else if p >= 1.0 then 0.0 else 1.0 - p
  }

  lemma LinearCurveIsDampingCurve()
    ensures IsDampingCurve(LinearCurve())
  {
  }
}
