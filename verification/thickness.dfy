/** Lens thickness: edge and centre thickness from the two sags, the approximate
    sag formula, prism thickness and the thickness of prism lenses.  Lengths are
    millimetres, powers dioptres.  The exact (square-root) sag is not part of this
    module. */
module Thickness {
  import opened Rounding

  /** Edge thickness from the front and back sags and the centre thickness. */
  function EdgeThickness(sagFront: real, sagBack: real, centerThickness: real): real
  {
    (sagBack - sagFront) + centerThickness
  }

  /** Centre thickness from the front and back sags and the edge thickness. */
  function CenterThickness(sagFront: real, sagBack: real, edgeThickness: real): real
  {
    sagFront - sagBack + edgeThickness
  }

  /** Edge and centre thickness determine each other, given the sags. */
  lemma EdgeCenterRoundTrip(sagFront: real, sagBack: real, t: real)
    ensures CenterThickness(sagFront, sagBack, EdgeThickness(sagFront, sagBack, t)) == t
    ensures EdgeThickness(sagFront, sagBack, CenterThickness(sagFront, sagBack, t)) == t
  {
  }

  /** Square of the semi-diameter of a lens of the given diameter: positive unless
      the lens has no size. */
  function SemiDiameterSquared(lensDiameter: real): (r: real)
    ensures r >= 0.0
    ensures r == 0.0 <==> lensDiameter == 0.0
  {
    Product(lensDiameter / 2.0, lensDiameter / 2.0)
  }

  /** Approximate sag `y^2 * F / (2000 (n - 1))` of a surface of power F over a lens
      of semi-diameter y: zero exactly when the surface is plano or the lens has no
      size, and of the sign of the power in a material denser than air. */
  function ApproximateSagFormula(surfacePower: real, lensDiameter: real, index: real): (r: real)
    requires index != 1.0
    ensures r == 0.0 <==> surfacePower == 0.0 || lensDiameter == 0.0
    ensures index > 1.0 && lensDiameter != 0.0 ==>
              (r > 0.0 <==> surfacePower > 0.0) && (r < 0.0 <==> surfacePower < 0.0)
  {
    SagSign(SemiDiameterSquared(lensDiameter), surfacePower, 2000.0 * (index - 1.0));
    Product(SemiDiameterSquared(lensDiameter), surfacePower) / (2000.0 * (index - 1.0))
  }

  lemma SagSign(y2: real, power: real, k: real)
    requires y2 >= 0.0 && k != 0.0
    ensures Product(y2, power) / k == 0.0 <==> y2 == 0.0 || power == 0.0
    ensures y2 > 0.0 && k > 0.0 ==>
              (Product(y2, power) / k > 0.0 <==> power > 0.0)
              && (Product(y2, power) / k < 0.0 <==> power < 0.0)
  {
    if y2 != 0.0 && power != 0.0 {
      assert (Product(y2, power) / y2) / power == 1.0;
    }
  }

  /** The surface power whose approximate sag over a lens of the given (non-zero)
      diameter is `sag`. */
  function SurfacePowerForSag(sag: real, lensDiameter: real, index: real): real
    requires lensDiameter != 0.0
  {
    (sag * (2000.0 * (index - 1.0))) / SemiDiameterSquared(lensDiameter)
  }

  /** On a lens of non-zero size the approximate sag determines the surface power, and
      the sag is odd in the power. */
  lemma ApproximateSagInverse(surfacePower: real, lensDiameter: real, index: real)
    requires index != 1.0 && lensDiameter != 0.0
    ensures SurfacePowerForSag(ApproximateSagFormula(surfacePower, lensDiameter, index), lensDiameter, index)
         == surfacePower
    ensures ApproximateSagFormula(-surfacePower, lensDiameter, index)
         == -ApproximateSagFormula(surfacePower, lensDiameter, index)
  {
    var y2 := SemiDiameterSquared(lensDiameter);
    var k := 2000.0 * (index - 1.0);
    assert (Product(y2, surfacePower) / k) * k == y2 * surfacePower;
    assert (y2 * surfacePower) / y2 == surfacePower;
    assert Product(y2, -surfacePower) == -Product(y2, surfacePower);
  }

  /** Approximate thickness: the approximate sag plus the centre or edge thickness. */
  function ApproximateThickness(surfacePower: real, lensDiameter: real, index: real, thickness: real): real
    requires index != 1.0
  {
    Product(SemiDiameterSquared(lensDiameter), surfacePower) / (2000.0 * (index - 1.0)) + thickness
  }

  /** The approximate thickness adds the given thickness to the approximate sag, so
      a plano surface or a point-sized lens leaves the thickness as given. */
  lemma ApproximateThicknessIsSagPlus(surfacePower: real, lensDiameter: real, index: real, thickness: real)
    requires index != 1.0
    ensures ApproximateThickness(surfacePower, lensDiameter, index, thickness)
         == ApproximateSagFormula(surfacePower, lensDiameter, index) + thickness
    ensures surfacePower == 0.0 ==> ApproximateThickness(surfacePower, lensDiameter, index, thickness) == thickness
  {
  }

  /** Thickness difference across a lens of the given diameter for a prism of
      `prismPower` prism dioptres. */
  function PrismThickness(prismPower: real, lensDiameter: real, index: real): real
    requires index != 1.0
  {
    (lensDiameter * prismPower) / (100.0 * (index - 1.0))
  }

  /** Prism power from the thickness difference across a lens. */
  function PrismPowerFromThickness(thicknessDifference: real, lensDiameter: real, index: real): real
    requires lensDiameter != 0.0
  {
    (thicknessDifference * (100.0 * (index - 1.0))) / lensDiameter
  }

  /** Prism power and thickness difference determine each other for a lens of
      non-zero diameter. */
  lemma PrismThicknessRoundTrip(p: real, lensDiameter: real, index: real)
    requires index != 1.0 && lensDiameter != 0.0
    ensures PrismPowerFromThickness(PrismThickness(p, lensDiameter, index), lensDiameter, index) == p
    ensures PrismThickness(PrismPowerFromThickness(p, lensDiameter, index), lensDiameter, index) == p
  {
    var k := 100.0 * (index - 1.0);
    ScaleRoundTrip(p, lensDiameter, k);
  }

  lemma ScaleRoundTrip(p: real, d: real, k: real)
    requires d != 0.0 && k != 0.0
    ensures (((d * p) / k) * k) / d == p
    ensures (d * ((p * k) / d)) / k == p
  {
    assert ((d * p) / k) * k == d * p;
    assert d * ((p * k) / d) == p * k;
  }

  /** Thickest edge of a plus lens with prism: the prism base thickness on top of the
      minimum edge thickness. */
  function PlusPrismLensThickestEdge(prismBaseThickness: real, minimumEdgeThickness: real): real
  {
    prismBaseThickness + minimumEdgeThickness
  }

  /** Centre thickness of a plus lens with prism. */
  function PlusPrismLensCenterThickness(sagittalDepth: real, minimumEdgeThickness: real, prismBaseThickness: real): real
  {
    sagittalDepth + minimumEdgeThickness + (prismBaseThickness / 2.0)
  }

  /** Edge thickness of a minus lens with prism. */
  function MinusPrismLensEdgeThickness(sagittalDepth: real, minimumCenterThickness: real, prismBaseThickness: real): real
  {
    sagittalDepth + minimumCenterThickness + (prismBaseThickness / 2.0)
  }

  /** The prism adds half its base thickness at the optical centre: the plus lens's
      centre is its sag above the mean of its thinnest and thickest edges, and the
      minus lens's edge is the same expression in its minimum centre thickness. */
  lemma PrismLensThicknesses(sagittalDepth: real, minimum: real, prismBaseThickness: real)
    ensures PlusPrismLensCenterThickness(sagittalDepth, minimum, prismBaseThickness)
         == sagittalDepth + (minimum + PlusPrismLensThickestEdge(prismBaseThickness, minimum)) / 2.0
    ensures MinusPrismLensEdgeThickness(sagittalDepth, minimum, prismBaseThickness)
         == PlusPrismLensCenterThickness(sagittalDepth, minimum, prismBaseThickness)
    ensures prismBaseThickness == 0.0 ==>
              PlusPrismLensCenterThickness(sagittalDepth, minimum, prismBaseThickness) == sagittalDepth + minimum
  {
  }
}
