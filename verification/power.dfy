/** Lens power formulas: vergence, surface and nominal power, vertex-distance
    compensation and vertex powers.  Powers are dioptres; the unit of each length
    argument is given per function.  The two trigonometric meridian formulas are
    not part of this module. */
module Power {
  import opened Rounding

  /** Vergence of light diverging from a point `distance` centimetres away, in
      dioptres to three places: `-1 / (distance / 100)`. */
  function Vergence(distance: real): real
    requires distance != 0.0
  {
    RoundHalfEven(-1.0 / (distance / 100.0), 3)
  }

  /** Power of a lens with focal length `distance` metres, to three places. */
  function DioptricPower(distance: real): real
    requires distance != 0.0
  {
    RoundHalfEven(1.0 / distance, 3)
  }

  /** Focal length in metres of a lens of `diopter` power, to three places. */
  function FocalDistance(diopter: real): real
    requires diopter != 0.0
  {
    RoundHalfEven(1.0 / diopter, 3)
  }

  /** Power and focal length are reciprocal, so one rounded reciprocal serves both
      directions: the result is the thousandth nearest to `1/x`. */
  lemma ReciprocalRounding(x: real)
    requires x != 0.0
    ensures DioptricPower(x) == FocalDistance(x)
    ensures OnGrid(DioptricPower(x), 1000.0)
    ensures Abs(DioptricPower(x) - 1.0 / x) <= 0.0005
    ensures Abs(DioptricPower(x) - 1.0 / x) == 0.0005 ==> OnGrid(DioptricPower(x) / 2.0, 1000.0)
  {
    Pow10Values();
  }

  /** The two roundings do not make power and focal length inverse: the focal length
      of a 3 D lens is 0.333 m, and the power of that focal length is 3.003 D. */
  lemma FocalPowerRoundTripLoses()
    ensures FocalDistance(3.0) == 0.333 && DioptricPower(FocalDistance(3.0)) == 3.003
  {
    Pow10Values();
    RoundToMultipleUnique(1.0 / 3.0, 1000.0, 0.333);
    RoundToMultipleUnique(1.0 / 0.333, 1000.0, 3.003);
  }

  /** Beyond 2000 D the focal length rounds to 0 m, whose power is undefined. */
  lemma FocalDistanceVanishes(diopter: real)
    requires Abs(diopter) >= 2000.0
    ensures FocalDistance(diopter) == 0.0
  {
    Pow10Values();
    ReciprocalBelow(diopter);
    assert OnGrid(0.0, 1000.0);
    RoundToMultipleUnique(1.0 / diopter, 1000.0, 0.0);
  }

  lemma ReciprocalBelow(x: real)
    requires Abs(x) >= 2000.0
    ensures Abs(1.0 / x) <= 0.0005
  {
    assert (1.0 / x) * x == 1.0;
  }

  /** Vergence at `d` centimetres is the negated power of a lens whose focal length
      is `d / 100` metres; half-even rounding keeps the symmetry exact. */
  lemma VergenceIsNegatedPower(distance: real)
    requires distance != 0.0
    ensures Vergence(distance) == -DioptricPower(distance / 100.0)
  {
    assert -1.0 / (distance / 100.0) == -(1.0 / (distance / 100.0));
    RoundToMultipleNegate(1.0 / (distance / 100.0), Pow10(3));
  }

  /** Refracting power of a surface of the given index and radius in millimetres
      (not rounded). */
  function SurfacePower(index: real, radiusOfCurvature: real): real
    requires radiusOfCurvature != 0.0
  {
    ((index - 1.0) * 1000.0) / radiusOfCurvature
  }

  /** Radius in millimetres of a surface of `diopter` power, always given as a
      magnitude, to two places. */
  function RadiusOfCurvature(index: real, diopter: real): (r: real)
    requires diopter != 0.0
    ensures r >= 0.0
  {
    RoundToMultipleSign(Abs(((index - 1.0) * 1000.0) / diopter), Pow10(2));
    RoundHalfEven(Abs(((index - 1.0) * 1000.0) / diopter), 2)
  }

  /** Radius and surface power are inverse: the radius is recovered from its surface
      power to two places, as a magnitude. */
  lemma RadiusOfSurfacePower(index: real, radius: real)
    requires radius != 0.0 && index != 1.0
    ensures SurfacePower(index, radius) != 0.0
    ensures RadiusOfCurvature(index, SurfacePower(index, radius)) == RoundHalfEven(Abs(radius), 2)
  {
    var k := (index - 1.0) * 1000.0;
    assert k != 0.0;
    ReciprocalOfQuotient(k, radius);
  }

  lemma ReciprocalOfQuotient(k: real, x: real)
    requires k != 0.0 && x != 0.0
    ensures k / x != 0.0
    ensures k / (k / x) == x
  {
  }

  /** Nominal power of a lens: the sum of its surface powers, to two places. */
  function NominalPower(powerFront: real, powerBack: real): real
  {
    RoundHalfEven(powerFront + powerBack, 2)
  }

  /** The back-surface power that gives `totalPower` with the given front, to two places. */
  function NominalBacksidePower(powerFront: real, totalPower: real): real
  {
    RoundHalfEven(totalPower - powerFront, 2)
  }

  /** For powers in whole hundredths the two are exact inverses: the nominal power
      is the plain sum and the back surface is recovered from it. */
  lemma NominalRoundTrip(powerFront: real, powerBack: real)
    requires OnGrid(powerFront, 100.0) && OnGrid(powerBack, 100.0)
    ensures NominalPower(powerFront, powerBack) == powerFront + powerBack
    ensures NominalBacksidePower(powerFront, NominalPower(powerFront, powerBack)) == powerBack
  {
    Pow10Values();
    OnGridAdd(powerBack, powerFront, 100.0);
    RoundToMultipleOnGrid(powerFront + powerBack, 100.0);
    assert powerFront + powerBack - powerFront == powerBack;
    RoundToMultipleOnGrid(powerBack, 100.0);
  }

  /** For a front power in whole hundredths and any back power, the back surface
      comes back within half a hundredth.  It need not come back as
      `NominalPower(0, back)`: a tie may round the other way once shifted by an odd
      number of hundredths. */
  lemma NominalBacksideRecovers(powerFront: real, powerBack: real)
    requires OnGrid(powerFront, 100.0)
    ensures NominalBacksidePower(powerFront, NominalPower(powerFront, powerBack))
         == NominalPower(powerFront, powerBack) - powerFront
    ensures Abs(NominalBacksidePower(powerFront, NominalPower(powerFront, powerBack)) - powerBack) <= 0.005
  {
    Pow10Values();
    var total := NominalPower(powerFront, powerBack);
    OnGridAdd(total, powerFront, 100.0);
    RoundToMultipleOnGrid(total - powerFront, 100.0);
    assert (total - powerFront) - powerBack == total - (powerFront + powerBack);
  }

  /** Lens maker's equation for a thin lens, radii in centimetres, to two places. */
  function LensMakersEquation(index: real, radiusFront: real, radiusBack: real): real
    requires radiusFront != 0.0 && radiusBack != 0.0
  {
    RoundHalfEven((index - 1.0) / (radiusFront / 100.0) + (index - 1.0) / (radiusBack / 100.0), 2)
  }

  /** The lens maker's equation is the nominal power of the two surface powers, once
      the radii are converted from centimetres to millimetres. */
  lemma LensMakersIsNominalOfSurfaces(index: real, radiusFront: real, radiusBack: real)
    requires radiusFront != 0.0 && radiusBack != 0.0
    ensures LensMakersEquation(index, radiusFront, radiusBack)
         == NominalPower(SurfacePower(index, 10.0 * radiusFront), SurfacePower(index, 10.0 * radiusBack))
  {
    CentimetreSurface(index, radiusFront);
    CentimetreSurface(index, radiusBack);
  }

  lemma CentimetreSurface(index: real, radius: real)
    requires radius != 0.0
    ensures (index - 1.0) / (radius / 100.0) == SurfacePower(index, 10.0 * radius)
  {
  }

  /** Spherical equivalent: the mean of the two principal meridian powers `sphere`
      and `sphere + cylinder`. */
  function SphericalEquivalent(sphere: real, cylinder: real): (r: real)
    ensures r - sphere == (sphere + cylinder) - r
  {
    sphere + (cylinder / 2.0)
  }

  lemma SphericalEquivalentExamples()
    ensures SphericalEquivalent(1.0, 1.0) == 1.5
    ensures SphericalEquivalent(1.0, -0.25) == 0.875
    ensures SphericalEquivalent(0.25, -0.25) == 0.125
  {
  }

  /** Power a lens of power `power` has when moved a distance `d` metres towards the
      eye (away for negative `d`), before rounding. */
  function EffectiveExact(power: real, d: real): real
    requires 1.0 + d * power != 0.0
  {
    power / (1.0 + d * power)
  }

  /** Power needed at a new position to keep the effect of `power`, before rounding. */
  function CompensatedExact(power: real, d: real): real
    requires 1.0 - d * power != 0.0
  {
    power / (1.0 - d * power)
  }

  /** Compensating for a move undoes its effect: the compensated formula applied to
      the effective power returns the original power. */
  lemma CompensationUndoesEffect(power: real, d: real)
    requires 1.0 + d * power != 0.0
    ensures 1.0 - d * EffectiveExact(power, d) != 0.0
    ensures CompensatedExact(EffectiveExact(power, d), d) == power
  {
    var k := 1.0 + d * power;
    var e := power / k;
    assert 1.0 - d * e == 1.0 / k by {
      assert d * e == d * power / k;
      assert 1.0 - d * power / k == (k - d * power) / k;
    }
    assert e / (1.0 / k) == e * k;
  }

  /** A vertex change in millimetres, in metres. */
  function Metres(millimetres: real): real
  {
    millimetres / 1000.0
  }

  lemma MetresNegate(millimetres: real, power: real)
    ensures Metres(-millimetres) * power == -(Metres(millimetres) * power)
  {
  }

  /** Effective power after a vertex change of `vertexChange` millimetres, to two places. */
  function EffectivePower(originalPower: real, vertexChange: real): real
    requires 1.0 + Metres(vertexChange) * originalPower != 0.0
  {
    RoundHalfEven(EffectiveExact(originalPower, Metres(vertexChange)), 2)
  }

  /** Compensated power for a vertex change of `vertexChange` millimetres, to two places. */
  function CompensatedPower(originalPower: real, vertexChange: real): real
    requires 1.0 - Metres(vertexChange) * originalPower != 0.0
  {
    RoundHalfEven(CompensatedExact(originalPower, Metres(vertexChange)), 2)
  }

  /** Compensating for a move is the effect of the opposite move, and a plano lens
      stays plano either way. */
  lemma CompensatedIsOppositeEffect(originalPower: real, vertexChange: real)
    requires 1.0 - Metres(vertexChange) * originalPower != 0.0
    ensures 1.0 + Metres(-vertexChange) * originalPower != 0.0
    ensures 1.0 + Metres(-vertexChange) * originalPower != 0.0 ==>
              CompensatedPower(originalPower, vertexChange) == EffectivePower(originalPower, -vertexChange)
    ensures originalPower == 0.0 ==> CompensatedPower(originalPower, vertexChange) == 0.0
    ensures originalPower == 0.0 ==> EffectivePower(originalPower, vertexChange) == 0.0
  {
    MetresNegate(vertexChange, originalPower);
    var moved := Metres(vertexChange) * originalPower;
    assert 1.0 + Metres(-vertexChange) * originalPower == 1.0 - moved;
    if originalPower == 0.0 {
      PlanoStaysPlano(vertexChange);
    }
  }

  lemma PlanoStaysPlano(vertexChange: real)
    ensures EffectivePower(0.0, vertexChange) == 0.0
    ensures CompensatedPower(0.0, vertexChange) == 0.0
  {
    Pow10Values();
    assert EffectiveExact(0.0, Metres(vertexChange)) == 0.0;
    assert CompensatedExact(0.0, Metres(vertexChange)) == 0.0;
    assert OnGrid(0.0, 100.0);
    RoundToMultipleOnGrid(0.0, 100.0);
  }

  /** First-order estimate of the power change for a vertex change of
      `vertexChange` millimetres: `vertexChange * P^2 / 1000`, to two places. */
  function VertexPowerChangeApprox(originalPower: real, vertexChange: real): real
  {
    RoundHalfEven((vertexChange * (originalPower * originalPower)) / 1000.0, 2)
  }

  /** The estimate has the weak sign of the vertex change and vanishes for a plano lens. */
  lemma VertexPowerChangeSign(originalPower: real, vertexChange: real)
    ensures vertexChange >= 0.0 ==> VertexPowerChangeApprox(originalPower, vertexChange) >= 0.0
    ensures vertexChange <= 0.0 ==> VertexPowerChangeApprox(originalPower, vertexChange) <= 0.0
    ensures originalPower == 0.0 ==> VertexPowerChangeApprox(originalPower, vertexChange) == 0.0
  {
    var x := (vertexChange * (originalPower * originalPower)) / 1000.0;
    SquareScaleSign(vertexChange, originalPower);
    RoundToMultipleSign(x, Pow10(2));
  }

  lemma SquareScaleSign(a: real, p: real)
    ensures a >= 0.0 ==> (a * (p * p)) / 1000.0 >= 0.0
    ensures a <= 0.0 ==> (a * (p * p)) / 1000.0 <= 0.0
    ensures p == 0.0 ==> (a * (p * p)) / 1000.0 == 0.0
  {
    assert p * p >= 0.0;
  }

  /** Reduced thickness: thickness in millimetres converted to metres and divided by
      the index. */
  function ReducedThickness(thickness: real, index: real): real
    requires index != 0.0
  {
    (thickness / 1000.0) / index
  }

  /** Power of a thick lens measured from its back vertex, to two places. */
  function BackVertexPower(frontSurfacePower: real, backSurfacePower: real, thickness: real, index: real): real
    requires index != 0.0
    requires 1.0 - ReducedThickness(thickness, index) * frontSurfacePower != 0.0
  {
    RoundHalfEven(
      frontSurfacePower / (1.0 - ReducedThickness(thickness, index) * frontSurfacePower) + backSurfacePower, 2)
  }

  /** Power of a thick lens measured from its front vertex, to two places. */
  function FrontVertexPower(frontSurfacePower: real, backSurfacePower: real, thickness: real, index: real): real
    requires index != 0.0
    requires 1.0 - ReducedThickness(thickness, index) * backSurfacePower != 0.0
  {
    RoundHalfEven(
      backSurfacePower / (1.0 - ReducedThickness(thickness, index) * backSurfacePower) + frontSurfacePower, 2)
  }

  /** Front vertex power is back vertex power with the lens turned round, and with
      no thickness both reduce to the nominal power. */
  lemma VertexPowersMirror(frontSurfacePower: real, backSurfacePower: real, thickness: real, index: real)
    requires index != 0.0
    requires 1.0 - ReducedThickness(thickness, index) * backSurfacePower != 0.0
    ensures FrontVertexPower(frontSurfacePower, backSurfacePower, thickness, index)
         == BackVertexPower(backSurfacePower, frontSurfacePower, thickness, index)
  {
  }

  /** A lens of no thickness has back and front vertex power equal to its nominal power. */
  lemma ThinLensVertexPowers(frontSurfacePower: real, backSurfacePower: real, index: real)
    requires index != 0.0
    ensures BackVertexPower(frontSurfacePower, backSurfacePower, 0.0, index)
         == NominalPower(frontSurfacePower, backSurfacePower)
    ensures FrontVertexPower(frontSurfacePower, backSurfacePower, 0.0, index)
         == NominalPower(frontSurfacePower, backSurfacePower)
  {
    assert ReducedThickness(0.0, index) == 0.0;
    assert backSurfacePower + frontSurfacePower == frontSurfacePower + backSurfacePower;
  }

  lemma PowerExamples()
    ensures Vergence(55.0) == -1.818
    ensures DioptricPower(16.0) == 0.062
    ensures FocalDistance(8.0) == 0.125
    ensures SurfacePower(1.498, 49.8) == 10.0
    ensures RadiusOfCurvature(1.74, 1.75) == 422.86
    ensures NominalPower(2.25, -4.25) == -2.0
    ensures NominalBacksidePower(5.25, -2.25) == -7.5
  {
    Pow10Values();
    RoundToMultipleUnique(-1.0 / (55.0 / 100.0), 1000.0, -1.818);
    // 1/16 = 0.0625 lies half-way between 0.062 and 0.063; the even one wins
    RoundToMultipleUnique(1.0 / 16.0, 1000.0, 0.062);
    RoundToMultipleUnique(1.0 / 8.0, 1000.0, 0.125);
    RoundToMultipleUnique(Abs(((1.74 - 1.0) * 1000.0) / 1.75), 100.0, 422.86);
    RoundToMultipleUnique(2.25 + -4.25, 100.0, -2.0);
    RoundToMultipleUnique(-2.25 - 5.25, 100.0, -7.5);
  }

  lemma EffectivePowerExample()
    ensures EffectivePower(-6.0, -3.0) == -5.89
  {
    Pow10Values();
    assert Metres(-3.0) == -0.003;
    assert EffectiveExact(-6.0, Metres(-3.0)) == -6.0 / 1.018;
    RoundToMultipleUnique(-6.0 / 1.018, 100.0, -5.89);
  }

  lemma CompensatedPowerExample()
    ensures CompensatedPower(-6.0, -3.0) == -6.11
  {
    Pow10Values();
    assert Metres(-3.0) == -0.003;
    assert CompensatedExact(-6.0, Metres(-3.0)) == -6.0 / 0.982;
    RoundToMultipleUnique(-6.0 / 0.982, 100.0, -6.11);
  }

  lemma VertexChangeExamples()
    ensures VertexPowerChangeApprox(0.0, 3.0) == 0.0
    ensures VertexPowerChangeApprox(10.0, 3.0) == 0.30
  {
    Pow10Values();
    VertexPowerChangeSign(0.0, 3.0);
    RoundToMultipleUnique((3.0 * (10.0 * 10.0)) / 1000.0, 100.0, 0.30);
  }

  lemma VertexPowerExamples()
    ensures BackVertexPower(12.0, -3.0, 14.0, 1.498) == 10.52
    ensures FrontVertexPower(12.0, -3.0, 14.0, 1.498) == 9.08
  {
    Pow10Values();
    var t := ReducedThickness(14.0, 1.498);
    RoundToMultipleUnique(12.0 / (1.0 - t * 12.0) + -3.0, 100.0, 10.52);
    RoundToMultipleUnique(-3.0 / (1.0 - t * -3.0) + 12.0, 100.0, 9.08);
  }
}
