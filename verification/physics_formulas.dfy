/** The wave relation `velocity = frequency * wavelength`, the inverse-square law of
    illumination and the index of refraction as a ratio of light speeds.  The wave
    formulas and the illumination round to three places; the two index formulas do
    not round. */
module PhysicsFormulas {
  import opened Rounding

  /** The library's speed-of-light constant, 2.9979e10. */
  const LightSpeed: real := 29979000000.0

  /** Velocity of a wave from its frequency and wavelength, to three places. */
  function WaveFormulaVelocity(frequency: real, wavelength: real): (r: real)
    ensures OnGrid(r, 1000.0)
    ensures Abs(r - Product(frequency, wavelength)) * 1000.0 <= 0.5
    ensures Abs(r - Product(frequency, wavelength)) * 1000.0 == 0.5 ==> OnGrid(r / 2.0, 1000.0)
  {
    Pow10Values();
    RoundHalfEven(Product(frequency, wavelength), 3)
  }

  /** Frequency of a wave from its velocity and wavelength, to three places. */
  function WaveFormulaFrequency(velocity: real, wavelength: real): (r: real)
    requires wavelength != 0.0
    ensures OnGrid(r, 1000.0)
    ensures Abs(r - velocity / wavelength) * 1000.0 <= 0.5
    ensures Abs(r - velocity / wavelength) * 1000.0 == 0.5 ==> OnGrid(r / 2.0, 1000.0)
  {
    Pow10Values();
    RoundHalfEven(velocity / wavelength, 3)
  }

  /** Wavelength of a wave from its velocity and frequency, to three places. */
  function WaveFormulaWavelength(velocity: real, frequency: real): (r: real)
    requires frequency != 0.0
    ensures OnGrid(r, 1000.0)
    ensures Abs(r - velocity / frequency) * 1000.0 <= 0.5
    ensures Abs(r - velocity / frequency) * 1000.0 == 0.5 ==> OnGrid(r / 2.0, 1000.0)
  {
    Pow10Values();
    RoundHalfEven(velocity / frequency, 3)
  }

  /** Frequency and wavelength are the same formula with the roles of the last two
      arguments swapped in name only. */
  lemma FrequencyIsWavelengthFormula(velocity: real, x: real)
    requires x != 0.0
    ensures WaveFormulaFrequency(velocity, x) == WaveFormulaWavelength(velocity, x)
  {
  }

  /** When the product of frequency and wavelength is a whole number of thousandths,
      the velocity is exact, and dividing it by the wavelength gives back a
      frequency stated in thousandths; likewise for the wavelength. */
  lemma WaveRoundTrip(frequency: real, wavelength: real)
    requires frequency != 0.0 && wavelength != 0.0
    requires OnGrid(frequency, 1000.0) && OnGrid(wavelength, 1000.0)
    requires OnGrid(Product(frequency, wavelength), 1000.0)
    ensures WaveFormulaVelocity(frequency, wavelength) == Product(frequency, wavelength)
    ensures WaveFormulaFrequency(WaveFormulaVelocity(frequency, wavelength), wavelength) == frequency
    ensures WaveFormulaWavelength(WaveFormulaVelocity(frequency, wavelength), frequency) == wavelength
  {
    ExactOnGrid(Product(frequency, wavelength));
    QuotientOfProduct(frequency, wavelength);
    ExactOnGrid(frequency);
    ExactOnGrid(wavelength);
  }

  lemma QuotientOfProduct(a: real, b: real)
    requires a != 0.0 && b != 0.0
    ensures Product(a, b) / b == a && Product(a, b) / a == b
  {
  }

  /** Rounding to three places keeps a value that has no more places. */
  lemma ExactOnGrid(x: real)
    requires OnGrid(x, 1000.0)
    ensures RoundHalfEven(x, 3) == x
  {
    Pow10Values();
    RoundToMultipleOnGrid(x, 1000.0);
  }

  /** Illumination `1 / d^2` at `distance` metres, unrounded. */
  function IlluminationExact(distance: real): (r: real)
    requires distance != 0.0
    ensures r > 0.0
  {
    1.0 / Product(distance, distance)
  }

  /** Illumination at `distance` metres, to three places: never negative. */
  function Illumination(distance: real): (r: real)
    requires distance != 0.0
    ensures r >= 0.0
    ensures OnGrid(r, 1000.0)
    ensures Abs(r - IlluminationExact(distance)) * 1000.0 <= 0.5
    ensures Abs(r - IlluminationExact(distance)) * 1000.0 == 0.5 ==> OnGrid(r / 2.0, 1000.0)
  {
    Pow10Values();
    RoundToMultipleSign(IlluminationExact(distance), 1000.0);
    RoundHalfEven(IlluminationExact(distance), 3)
  }

  /** The inverse-square law: twice the distance gives a quarter of the light, and the
      same distance on either side gives the same light. */
  lemma InverseSquare(distance: real)
    requires distance != 0.0
    ensures IlluminationExact(2.0 * distance) == IlluminationExact(distance) / 4.0
    ensures IlluminationExact(-distance) == IlluminationExact(distance)
    ensures Illumination(-distance) == Illumination(distance)
  {
    assert Product(2.0 * distance, 2.0 * distance) == 4.0 * Product(distance, distance);
    assert Product(-distance, -distance) == Product(distance, distance);
  }

  /** Moving farther from the source never makes the rounded illumination brighter. */
  lemma IlluminationFalls(near: real, far: real)
    requires 0.0 < near <= far
    ensures IlluminationExact(far) <= IlluminationExact(near)
    ensures Illumination(far) <= Illumination(near)
  {
    SquareMonotone(near, far);
    ReciprocalAntitone(Product(near, near), Product(far, far));
    RoundToMultipleMonotone(IlluminationExact(far), IlluminationExact(near), Pow10(3));
  }

  lemma SquareMonotone(a: real, b: real)
    requires 0.0 < a <= b
    ensures 0.0 < Product(a, a) <= Product(b, b)
  {
    assert a * a <= a * b;
    assert a * b <= b * b;
  }

  lemma ReciprocalAntitone(x: real, y: real)
    requires 0.0 < x <= y
    ensures 1.0 / y <= 1.0 / x
  {
    assert (1.0 / y) * y == 1.0;
    assert (1.0 / x) * x == 1.0;
    assert (1.0 / y) * x <= (1.0 / y) * y;
  }

  /** Index of refraction of a material in which light travels at `cInMaterial`. */
  function IndexOfRefraction(cInMaterial: real): real
    requires cInMaterial != 0.0
  {
    LightSpeed / cInMaterial
  }

  /** Speed of light in a material of index `index`. */
  function SpeedOfLightInMaterial(index: real): real
    requires index != 0.0
  {
    LightSpeed / index
  }

  /** The index and the speed in the material determine each other; in vacuum both
      are the speed of light. */
  lemma IndexSpeedRoundTrip(v: real)
    requires v != 0.0
    ensures IndexOfRefraction(v) != 0.0 && SpeedOfLightInMaterial(v) != 0.0
    ensures SpeedOfLightInMaterial(IndexOfRefraction(v)) == v
    ensures IndexOfRefraction(SpeedOfLightInMaterial(v)) == v
    ensures IndexOfRefraction(1.0) == LightSpeed && SpeedOfLightInMaterial(1.0) == LightSpeed
  {
    assert LightSpeed / (LightSpeed / v) == v;
  }

  lemma VelocityExample()
    ensures WaveFormulaVelocity(1.0, 1.0) == 1.0
  {
    Pow10Values();
    RoundToMultipleUnique(1.0, 1000.0, 1.0);
  }

  lemma FrequencyExample()
    ensures WaveFormulaFrequency(1.0, 3.0) == 0.333
  {
    Pow10Values();
    RoundToMultipleUnique(1.0 / 3.0, 1000.0, 0.333);
  }

  lemma WavelengthExample()
    ensures WaveFormulaWavelength(1.0, 8.0) == 0.125
  {
    Pow10Values();
    RoundToMultipleUnique(0.125, 1000.0, 0.125);
  }

  lemma IlluminationExample()
    ensures Illumination(16.0) == 0.004
  {
    Pow10Values();
    assert IlluminationExact(16.0) == 1.0 / 256.0;
    RoundToMultipleUnique(1.0 / 256.0, 1000.0, 0.004);
  }
}
