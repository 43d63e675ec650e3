/** Spectacle magnification: the product of a shape factor, set by the front curve
    and the reduced thickness, and a power factor, set by the lens power at the
    vertex distance plus a fixed 3 mm.  Thickness and vertex distance are given in
    millimetres. */
module Magnification {
  import opened Rounding
  import Power

  /** The fixed allowance, in metres, added to the vertex distance before the power
      factor is formed. */
  const VertexAllowance: real := 0.003

  /** Reduced thickness in metres times the front base curve. */
  function ThicknessFactor(frontBaseCurve: real, index: real, thickness: real): real
    requires index != 0.0
  {
    (Power.Metres(thickness) / index) * frontBaseCurve
  }

  /** The shape factor `1 / (1 - (t / n) F1)`. */
  function ShapeFactor(frontBaseCurve: real, index: real, thickness: real): real
    requires index != 0.0
    requires 1.0 - ThicknessFactor(frontBaseCurve, index, thickness) != 0.0
  {
    1.0 / (1.0 - ThicknessFactor(frontBaseCurve, index, thickness))
  }

  /** Distance in metres at which the power factor places the lens. */
  function AdjustedVertex(vertexDistance: real): real
  {
    Power.Metres(vertexDistance) + VertexAllowance
  }

  /** The power factor `1 / (1 - h P)`, with `h` the adjusted vertex distance. */
  function PowerFactor(actualLensPower: real, vertexDistance: real): real
    requires 1.0 - Product(AdjustedVertex(vertexDistance), actualLensPower) != 0.0
  {
    1.0 / (1.0 - Product(AdjustedVertex(vertexDistance), actualLensPower))
  }

  /** Spectacle magnification to three places. */
  function SpectacleMagnification(frontBaseCurve: real, actualLensPower: real, index: real,
                                  thickness: real, vertexDistance: real): (r: real)
    requires index != 0.0
    requires 1.0 - ThicknessFactor(frontBaseCurve, index, thickness) != 0.0
    requires 1.0 - Product(AdjustedVertex(vertexDistance), actualLensPower) != 0.0
    ensures OnGrid(r, 1000.0)
    ensures Abs(r - ShapeFactor(frontBaseCurve, index, thickness) * PowerFactor(actualLensPower, vertexDistance))
            * 1000.0 <= 0.5
    ensures Abs(r - ShapeFactor(frontBaseCurve, index, thickness) * PowerFactor(actualLensPower, vertexDistance)) * 1000.0 == 0.5
            ==> OnGrid(r / 2.0, 1000.0)
  {
    Pow10Values();
    RoundHalfEven(ShapeFactor(frontBaseCurve, index, thickness) * PowerFactor(actualLensPower, vertexDistance), 3)
  }

  /** The allowance is the same as seating the lens 3 mm farther away, and the power
      factor is the ratio of the vertex-compensated power to the lens power. */
  lemma PowerFactorIsCompensation(actualLensPower: real, vertexDistance: real)
    requires 1.0 - Product(AdjustedVertex(vertexDistance), actualLensPower) != 0.0
    ensures AdjustedVertex(vertexDistance) == Power.Metres(vertexDistance + 3.0)
    ensures 1.0 - AdjustedVertex(vertexDistance) * actualLensPower != 0.0
            && PowerFactor(actualLensPower, vertexDistance) * actualLensPower
               == Power.CompensatedExact(actualLensPower, AdjustedVertex(vertexDistance))
  {
  }

  /** A lens of no thickness has shape factor 1, a lens of no power has power factor
      1, and a plano lens of no thickness does not magnify. */
  lemma UnitFactors(frontBaseCurve: real, index: real, vertexDistance: real)
    requires index != 0.0
    ensures ShapeFactor(frontBaseCurve, index, 0.0) == 1.0
    ensures PowerFactor(0.0, vertexDistance) == 1.0
    ensures SpectacleMagnification(frontBaseCurve, 0.0, index, 0.0, vertexDistance) == 1.0
  {
    Pow10Values();
    assert ThicknessFactor(frontBaseCurve, index, 0.0) == 0.0;
    assert ShapeFactor(frontBaseCurve, index, 0.0) * PowerFactor(0.0, vertexDistance) == 1.0;
    assert OnGrid(1.0, 1000.0);
    RoundToMultipleOnGrid(1.0, 1000.0);
  }

  /** Magnification as a percentage, to two places. */
  function MagnificationPercent(spectacleMagnification: real): (r: real)
    ensures OnGrid(r, 100.0)
    ensures Abs(r - (spectacleMagnification - 1.0) * 100.0) * 100.0 <= 0.5
    ensures Abs(r - (spectacleMagnification - 1.0) * 100.0) * 100.0 == 0.5 ==> OnGrid(r / 2.0, 100.0)
  {
    Pow10Values();
    RoundHalfEven((spectacleMagnification - 1.0) * 100.0, 2)
  }

  /** A larger magnification never gives a smaller percentage, and unit magnification
      is zero per cent. */
  lemma MagnificationPercentMonotone(m1: real, m2: real)
    requires m1 <= m2
    ensures MagnificationPercent(m1) <= MagnificationPercent(m2)
    ensures MagnificationPercent(1.0) == 0.0
  {
    Pow10Values();
    RoundToMultipleMonotone((m1 - 1.0) * 100.0, (m2 - 1.0) * 100.0, 100.0);
    assert OnGrid(0.0, 100.0);
    RoundToMultipleOnGrid(0.0, 100.0);
  }

  /** A magnification stated in thousandths, as `SpectacleMagnification` returns it,
      converts to a percentage without loss: the percentage gives the magnification
      back. */
  lemma PercentOfMagnificationExact(m: real)
    requires OnGrid(m, 1000.0)
    ensures MagnificationPercent(m) == (m - 1.0) * 100.0
    ensures 1.0 + MagnificationPercent(m) / 100.0 == m
  {
    Pow10Values();
    PercentOnGrid(m);
    RoundToMultipleOnGrid((m - 1.0) * 100.0, 100.0);
  }

  /** Thousandths of a magnification are hundredths of a per cent. */
  lemma PercentOnGrid(m: real)
    requires OnGrid(m, 1000.0)
    ensures OnGrid((m - 1.0) * 100.0, 100.0)
  {
    var n := GridIndex(m, 1000.0);
    var k := (n - 1000) * 10;
    assert m * 1000.0 == n as real;
    assert ((m - 1.0) * 100.0) * 100.0 == 10.0 * (m * 1000.0) - 10000.0;
    assert ((m - 1.0) * 100.0) * 100.0 == k as real;
    assert (k as real).Floor == k;
  }

  /** The percentage of any computed spectacle magnification is exact. */
  lemma PercentOfSpectacleMagnification(frontBaseCurve: real, actualLensPower: real, index: real,
                                        thickness: real, vertexDistance: real)
    requires index != 0.0
    requires 1.0 - ThicknessFactor(frontBaseCurve, index, thickness) != 0.0
    requires 1.0 - Product(AdjustedVertex(vertexDistance), actualLensPower) != 0.0
    ensures MagnificationPercent(SpectacleMagnification(frontBaseCurve, actualLensPower, index, thickness, vertexDistance))
         == (SpectacleMagnification(frontBaseCurve, actualLensPower, index, thickness, vertexDistance) - 1.0) * 100.0
  {
    PercentOfMagnificationExact(SpectacleMagnification(frontBaseCurve, actualLensPower, index, thickness, vertexDistance));
  }

  lemma MagnificationExampleRight()
    ensures SpectacleMagnification(6.25, 1.50, 1.498, 3.0, 12.0) == 1.036
  {
    Pow10Values();
    assert ThicknessFactor(6.25, 1.498, 3.0) == 0.01875 / 1.498;
    assert Product(AdjustedVertex(12.0), 1.50) == 0.0225;
    assert ShapeFactor(6.25, 1.498, 3.0) == 1.0 / (1.0 - 0.01875 / 1.498);
    assert PowerFactor(1.50, 12.0) == 1.0 / (1.0 - 0.0225);
    var exact := (1.0 / (1.0 - 0.01875 / 1.498)) * (1.0 / (1.0 - 0.0225));
    RoundToMultipleUnique(exact, 1000.0, 1.036);
  }

  lemma MagnificationExampleLeft()
    ensures SpectacleMagnification(9.25, 4.50, 1.498, 5.0, 12.0) == 1.107
  {
    Pow10Values();
    assert ThicknessFactor(9.25, 1.498, 5.0) == 0.04625 / 1.498;
    assert Product(AdjustedVertex(12.0), 4.50) == 0.0675;
    assert ShapeFactor(9.25, 1.498, 5.0) == 1.0 / (1.0 - 0.04625 / 1.498);
    assert PowerFactor(4.50, 12.0) == 1.0 / (1.0 - 0.0675);
    var exact := (1.0 / (1.0 - 0.04625 / 1.498)) * (1.0 / (1.0 - 0.0675));
    RoundToMultipleUnique(exact, 1000.0, 1.107);
  }

  lemma PercentExamples()
    ensures MagnificationPercent(1.036) == 3.6
    ensures MagnificationPercent(1.107) == 10.7
  {
    assert OnGrid(1.036, 1000.0) && OnGrid(1.107, 1000.0);
    PercentOfMagnificationExact(1.036);
    PercentOfMagnificationExact(1.107);
  }
}
