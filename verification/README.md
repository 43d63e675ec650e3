# Optician formulas in Dafny

A model of the OpticianMathLibrary: a C# catalogue of static formulas used in
ophthalmic optics. It covers lens power, vertex distance, transposition of
prescriptions, base curves, prism, lens thickness, surfacing tools, spectacle
magnification and a few wave relations. Every formula is a pure static
function. Most take and return `double`. The exceptions are:

- `Prism.EyeResolver`, which takes base-direction words and returns a label;
- `OpticianFormulas.MinimumBlankSize`, which takes a `bool` chip flag;
- `OpticianFormulas.AstigmatismEvaluator`, which returns a message;
- the two power-meridian functions, which take an `int` axis.

Most formulas round their result with .NET's `Math.Round`.

The model works in exact `real` arithmetic:

- `Math.Round(x, d)` is `Rounding.RoundHalfEven(x, d)`, the multiple of `10^-d`
  nearest to `x`. A tie goes to the even neighbour, which is .NET's default
  `MidpointRounding.ToEven`.
- `Math.Round(x * 4) / 4` is `NumberRounder.RoundToQuarter`.
- A division in the source becomes a `requires` that the divisor is not zero.
  Where the library would produce an infinity or NaN (for example
  `RadiusOfCurvature` of power 0, or `SurfacePower` of radius 0), the model has no
  value at all.
- Two results are modelled explicitly:
  - the resultant prism angle for no prism, a NaN in the library, is `Maybe.None`;
  - the resolver's empty string is kept as `""`.
- Prism base angles need `Math.Atan`. Its magnitude in degrees is a parameter
  `fa`, constrained by `Prism.ArctanMagnitude` to what the arctangent gives: 0 for
  purely horizontal prism, 90 for purely vertical prism, strictly between
  otherwise.

Modules follow the library's classes:

- `Rounding` (with `Maybe`)
- `Power`
- `OpticianFormulas`
- `Transposition`
- `BaseCurve`
- `NumberRounder`
- `Tools`
- `Prism`
- `Thickness`
- `Magnification`
- `PhysicsFormulas`

## Model

| member | source | states |
|---|---|---|
| Rounding.RoundToInt | OpticianMathLibrary/NumberRounder.cs:19-22 | `Math.Round(x)`: an integer within 1/2 of `x`; on a tie it is the even one |
| Rounding.RoundToIntUnique | OpticianMathLibrary/NumberRounder.cs:19-22 | any integer closer than 1/2, or at exactly 1/2 and even, is the rounded value |
| Rounding.RoundToMultiple | OpticianMathLibrary/NumberRounder.cs:19-22 | `Math.Round(x * per) / per` lies on the `1/per` grid within half a step of `x`; a tie lands on an even multiple |
| Rounding.RoundHalfEven | OpticianMathLibrary/Power.cs:15-19 | `Math.Round(x, d)`: on the `10^-d` grid within half a step of `x`, and the even neighbour at a tie |
| Rounding.RoundToMultipleUnique | OpticianMathLibrary/Power.cs:15-19 | a grid point nearer than half a step, or an even one at exactly half a step, is the rounded value |
| Rounding.RoundToMultipleOnGrid | OpticianMathLibrary/Power.cs:69-72 | rounding a value already on the grid returns it unchanged |
| Rounding.RoundToMultipleMonotone | OpticianMathLibrary/NumberRounder.cs:19-22 | rounding never reverses the order of two values |
| Rounding.RoundToMultipleNegate | OpticianMathLibrary/Power.cs:15-19 | half-even rounding commutes with negation |
| Rounding.RoundToMultipleShiftEven | OpticianMathLibrary/OpticianFormulas.cs:90-97 | adding an even number of grid steps before rounding adds them after |
| Rounding.RoundToMultipleSign | OpticianMathLibrary/Power.cs:58-61 | rounding keeps the weak sign of its argument |
| NumberRounder.RoundToQuarter | OpticianMathLibrary/NumberRounder.cs:19-22 | the result is a multiple of 1/4 within 1/8 of the input; at exactly 1/8 it is the even multiple (a multiple of 1/2) |
| NumberRounder.RoundToEighth | OpticianMathLibrary/NumberRounder.cs:29-32 | the result is a multiple of 1/8 within 1/16 of the input; at exactly 1/16 it is a multiple of 1/4 |
| NumberRounder.RoundToQuarterIdempotent | OpticianMathLibrary/NumberRounder.cs:19-22 | snapping to a quarter twice equals snapping once |
| NumberRounder.RoundToQuarterMonotone | OpticianMathLibrary/NumberRounder.cs:19-22 | quarter snapping is monotone |
| NumberRounder.EighthOfQuarter | OpticianMathLibrary/NumberRounder.cs:19-32 | every quarter is kept by eighth snapping |
| NumberRounder.QuarterTies | OpticianMathLibrary/NumberRounder.cs:19-22 | 0.125 goes to 0, 0.375 goes to 0.5 and -0.125 goes to 0 (ties to even) |
| Tools.ToolSelector | OpticianMathLibrary/Tools.cs:20-24 | the tool is a quarter dioptre within 1/8 of `0.53 / (n - 1)` times the surface power; a tie goes to the even quarter |
| Tools.RefractivePower | OpticianMathLibrary/Tools.cs:32-36 | the surface power is a quarter dioptre within 1/8 of `(n - 1) / 0.53` times the tool power; a tie goes to the even quarter |
| Tools.ReferenceIndexAndZero | OpticianMathLibrary/Tools.cs:20-36 | at index 1.53 both are plain quarter snapping; zero power maps to zero at every index |
| Tools.ToolRoundTrip | OpticianMathLibrary/Tools.cs:20-36 | for index at least 1.53, tool to power and back to tool lands within 1/4 D of the first tool |
| Power.ReciprocalRounding | OpticianMathLibrary/Power.cs:26-39 | dioptric power and focal distance are the same rounded reciprocal, on the 0.001 grid, within 0.0005 of `1/x`, the even thousandth at a tie |
| Power.FocalPowerRoundTripLoses | OpticianMathLibrary/Power.cs:26-39 | the focal distance of 3 D is 0.333 m, and the power of 0.333 m is 3.003 D, so the two rounded formulas are not inverse |
| Power.FocalDistanceVanishes | OpticianMathLibrary/Power.cs:36-39 | from 2000 D upwards in magnitude, the focal distance rounds to 0 m |
| Power.VergenceIsNegatedPower | OpticianMathLibrary/Power.cs:15-29 | vergence at `d` cm is minus the dioptric power for `d/100` m |
| Power.RadiusOfCurvature | OpticianMathLibrary/Power.cs:58-61 | the radius is never negative, because the source takes `Math.Abs` |
| Power.RadiusOfSurfacePower | OpticianMathLibrary/Power.cs:47-61 | the radius of the surface power of radius `r` is `|r|` to two places |
| Power.NominalRoundTrip | OpticianMathLibrary/Power.cs:69-83 | for powers in hundredths, the nominal power is the exact sum and the back surface is recovered from it |
| Power.NominalBacksideRecovers | OpticianMathLibrary/Power.cs:69-83 | for a front power in hundredths, the back surface comes back within 0.005 |
| Power.LensMakersIsNominalOfSurfaces | OpticianMathLibrary/Power.cs:96-105 | the lens maker's equation is the nominal power of the two surface powers, with radii converted from cm to mm |
| Power.SphericalEquivalent | OpticianMathLibrary/Power.cs:113-116 | the result is the midpoint of the meridians `sphere` and `sphere + cylinder` |
| Power.SphericalEquivalentExamples | OpticianMathLibraryTests/PowerFormulasTests.cs:157-189 | SE(1, 1) = 1.5, SE(1, -0.25) = 0.875, SE(0.25, -0.25) = 0.125 |
| Power.CompensationUndoesEffect | OpticianMathLibrary/Power.cs:159-179 | the compensated formula applied to the effective power gives back the original power |
| Power.CompensatedIsOppositeEffect | OpticianMathLibrary/Power.cs:159-179 | compensating for a move equals the effect of the opposite move; plano stays plano |
| Power.PlanoStaysPlano | OpticianMathLibrary/Power.cs:159-179 | effective and compensated power of a plano lens are 0 |
| Power.VertexPowerChangeSign | OpticianMathLibrary/Power.cs:191-196 | the estimated change has the weak sign of the vertex change and vanishes for plano |
| Power.VertexPowersMirror | OpticianMathLibrary/Power.cs:206-230 | front vertex power is back vertex power of the lens turned round |
| Power.ThinLensVertexPowers | OpticianMathLibrary/Power.cs:69-72 | with no thickness both vertex powers equal the nominal power |
| Power.PowerExamples | OpticianMathLibraryTests/PowerFormulasTests.cs:62-143 | vergence, dioptric power (a tie: 1/16 gives 0.062), focal distance, surface power, radius, nominal and backside values of the tests |
| Power.EffectivePowerExample | OpticianMathLibraryTests/PowerFormulasTests.cs:262-271 | EffectivePower(-6, -3) = -5.89 |
| Power.CompensatedPowerExample | OpticianMathLibraryTests/PowerFormulasTests.cs:286-295 | CompensatedPower(-6, -3) = -6.11 |
| Power.VertexChangeExamples | OpticianMathLibraryTests/PowerFormulasTests.cs:298-319 | VertexPowerChangeApprox gives 0 for plano and 0.30 for 10 D at 3 mm |
| Power.VertexPowerExamples | OpticianMathLibraryTests/PowerFormulasTests.cs:322-343 | back vertex power 10.52 and front vertex power 9.08 for (12, -3, 14, 1.498) |
| OpticianFormulas.Evaluate | OpticianMathLibrary/OpticianFormulas.cs:16-50 | the source's sequential overwrite of the result always yields the class of the two principal meridians `sphere` and `sphere + cylinder` |
| OpticianFormulas.AstigmatismEvaluator | OpticianMathLibrary/OpticianFormulas.cs:16-50 | the message is never empty and is the message of the meridian classification |
| OpticianFormulas.LaterGuardsPartition | OpticianMathLibrary/OpticianFormulas.cs:29-48 | with non-zero cylinder exactly one of the five later tests fires |
| OpticianFormulas.MessageInjective | OpticianMathLibrary/OpticianFormulas.cs:21-48 | distinct classes give distinct, non-empty messages |
| OpticianFormulas.ByMeridiansSymmetric | OpticianMathLibrary/OpticianFormulas.cs:29-48 | the classification does not depend on which meridian is called the sphere |
| OpticianFormulas.NegatedPrescription | OpticianMathLibrary/OpticianFormulas.cs:16-50 | negating sphere and cylinder swaps hyperopic and myopic and keeps mixed and the no-power classes |
| OpticianFormulas.AstigmatismEvaluatorExamples | OpticianMathLibraryTests/OpticianFormulasTests.cs:62-171 | the ten message cases of the tests |
| OpticianFormulas.MonocularIsHalfBinocular | OpticianMathLibrary/OpticianFormulas.cs:58-72 | when the frame PD minus the binocular PD is in tenths, the monocular decentration for half the PD is exactly half of it |
| OpticianFormulas.SegDropSign | OpticianMathLibrary/OpticianFormulas.cs:79-82 | the segment drop is non-negative when the segment is at or above half the B measure, and non-positive when at or below |
| OpticianFormulas.ChipFactorAddsTwo | OpticianMathLibrary/OpticianFormulas.cs:90-97 | the chip factor adds exactly 2 mm to the rounded blank size |
| OpticianFormulas.DecentrationExamples | OpticianMathLibraryTests/OpticianFormulasTests.cs:172-227 | decentrations 0 and 0, seg drop 5, blank sizes 40 and 42 |
| Transposition.TransposedSphere | OpticianMathLibrary/Transposition.cs:20-32 | agrees with the source for every non-zero cylinder and keeps the sphere when there is none |
| Transposition.TransposeSpherePowerDropsSphere | OpticianMathLibrary/Transposition.cs:20-32 | the source maps sphere 2 with no cylinder to 0, which changes the spherical equivalent |
| Transposition.TransposeAxis | OpticianMathLibrary/Transposition.cs:40-56 | a plus cylinder's axis moves by exactly 90 and stays in [0, 180); a minus cylinder's axis is kept; no cylinder gives 0 |
| Transposition.TransposeAxisTwice | OpticianMathLibrary/Transposition.cs:40-56 | rotating a plus-cylinder axis twice returns to the same meridian |
| Transposition.TransposedCylinderSign | OpticianMathLibrary/Transposition.cs:65-77 | the cylinder becomes `-|cyl|` |
| Transposition.TransposedCylinderSignIdempotent | OpticianMathLibrary/Transposition.cs:65-77 | transposing the cylinder sign twice equals once |
| Transposition.MinusCylinderFixed | OpticianMathLibrary/Transposition.cs:20-77 | a minus-cylinder prescription passes through all three functions unchanged |
| Transposition.TransposePreservesEquivalent | OpticianMathLibrary/Transposition.cs:20-77 | for a non-zero cylinder the source's functions keep the spherical equivalent |
| Transposition.Transpose | OpticianMathLibrary/Transposition.cs:20-77 | the transposed prescription has a non-positive cylinder, the same spherical equivalent and the same two meridians |
| Transposition.TransposeIdempotent | OpticianMathLibrary/Transposition.cs:20-77 | transposition is idempotent, and a minus-cylinder prescription is fixed |
| Transposition.TransposePreservesLens | OpticianMathLibrary/Transposition.cs:20-77 | transposition keeps the astigmatism message and both Vogel's-rule base curves |
| BaseCurve.BoddyFormulaDispatch | OpticianMathLibrary/BaseCurve.cs:68-79 | Boddy's formula is the plus variant for a positive sphere and the minus variant otherwise |
| BaseCurve.BaseCurvesOfSphericalEquivalent | OpticianMathLibrary/BaseCurve.cs:21-60 | each of the four rules is an affine function of the spherical equivalent |
| BaseCurve.SameEquivalentSameCurves | OpticianMathLibrary/BaseCurve.cs:21-60 | prescriptions with the same spherical equivalent get the same base curves |
| BaseCurve.SingleFormulasMonotone | OpticianMathLibrary/BaseCurve.cs:21-60 | each single formula is monotone in the sphere |
| BaseCurve.BoddyFormulaMonotoneOnEachSide | OpticianMathLibrary/BaseCurve.cs:68-79 | Boddy's formula is monotone on each side of sphere 0 |
| BaseCurve.BoddyFormulaNotMonotone | OpticianMathLibrary/BaseCurve.cs:68-79 | Boddy's formula drops from 4.25 at sphere 0 to 3.75 at sphere 0.25 |
| BaseCurve.BaseCurveExamples | OpticianMathLibraryTests/BaseCurveTests.cs:60-116 | literal base curves, including those of the tests |
| Prism.ApicalAngleOfDeviation | OpticianMathLibrary/Prism.cs:20-36 | for an apical angle and deviation in tenths, the apical angle of the deviation is the original angle |
| Prism.DisplacementRoundTrip | OpticianMathLibrary/Prism.cs:44-70 | the distance is recovered exactly from the displacement, and the prism dioptres to two places |
| Prism.PrenticeUnits | OpticianMathLibrary/Prism.cs:104-118 | the millimetre form of Prentice's rule at `10c` mm equals the centimetre form at `c` cm; the rule is odd in the decentration |
| Prism.ResultantPrismAngleRightEye | OpticianMathLibrary/Prism.cs:153-193 | the result is None exactly for no prism; the angle is in [0, 360), its arctangent is `fa`, and it lies in the quadrant set by the components' signs |
| Prism.ResultantPrismAngleLeftEye | OpticianMathLibrary/Prism.cs:201-243 | the same, with the horizontal axis mirrored |
| Prism.LeftEyeMirrorsRightEye | OpticianMathLibrary/Prism.cs:153-243 | the left-eye angle is the right-eye angle of the mirrored horizontal component |
| Prism.AxisAlignedPrism | OpticianMathLibrary/Prism.cs:153-243 | purely horizontal prism gives 0 on both charts; purely vertical prism gives 90 or 270 |
| Prism.VerticalWord | OpticianMathLibrary/Prism.cs:278-321 | the base words parse back to the base direction they name |
| Prism.HorizontalWord | OpticianMathLibrary/Prism.cs:278-321 | the base words parse back to the base direction they name |
| Prism.EyeResolverIsTable | OpticianMathLibrary/Prism.cs:278-321 | the chain of eight tests equals an independent table, read through the parsed base words |
| Prism.TableRow | OpticianMathLibrary/Prism.cs:278-321 | each table row, with its exact words, gives the label the resolver returns |
| Prism.LabelInjective | OpticianMathLibrary/Prism.cs:278-321 | the eight labels are non-empty and distinct |
| Prism.InOutMirror | OpticianMathLibrary/Prism.cs:278-321 | swapping base in and base out swaps the eye and keeps the quadrant |
| Prism.EyeResolverEmpty | OpticianMathLibrary/Prism.cs:278-321 | axis angles, angles of 360 and above, and unknown words give the empty string |
| Prism.NegativeAngleIsQuadrantI | OpticianMathLibrary/Prism.cs:278-321 | a negative angle with base up resolves to quadrant I, because that test has no lower bound |
| Prism.ResolverAgreesWithAngles | OpticianMathLibrary/Prism.cs:153-321 | the resolver reads the angle each eye's resolver computes back to that eye and the components' quadrant |
| Prism.EyeResolverExamples | OpticianMathLibrary/Prism.cs:278-321 | sample labels, and the empty string for base down at 45 degrees |
| Thickness.EdgeCenterRoundTrip | OpticianMathLibrary/Thickness.cs:53-70 | edge and centre thickness are inverse in both directions for given sags |
| Thickness.SemiDiameterSquared | OpticianMathLibrary/Thickness.cs:81-82 | the squared semi-diameter is non-negative and zero only for a lens of no size |
| Thickness.ApproximateSagFormula | OpticianMathLibrary/Thickness.cs:79-85 | the sag is 0 exactly when the power or the diameter is 0; for index above 1 it has the sign of the power |
| Thickness.ApproximateSagInverse | OpticianMathLibrary/Thickness.cs:79-85 | on a lens of non-zero size the sag determines the surface power, and the sag is odd in the power |
| Thickness.ApproximateThicknessIsSagPlus | OpticianMathLibrary/Thickness.cs:79-101 | the approximate thickness is the approximate sag plus the given thickness |
| Thickness.PrismThicknessRoundTrip | OpticianMathLibrary/Thickness.cs:112-127 | prism power and thickness difference determine each other for a non-zero diameter and index not 1 |
| Thickness.PrismLensThicknesses | OpticianMathLibrary/Thickness.cs:135-163 | the plus-lens centre is the sag above the mean of its thinnest and thickest edges; the minus-lens edge is the same expression |
| Magnification.SpectacleMagnification | OpticianMathLibrary/Magnification.cs:19-35 | the result is in thousandths, within half a thousandth of shape factor times power factor; a tie goes to the even thousandth |
| Magnification.PowerFactorIsCompensation | OpticianMathLibrary/Magnification.cs:31-32 | the fixed 0.003 m equals seating the lens 3 mm farther; the power factor times the power is the compensated power there |
| Magnification.UnitFactors | OpticianMathLibrary/Magnification.cs:26-34 | zero thickness gives shape factor 1, zero power gives power factor 1, and together magnification 1 |
| Magnification.MagnificationPercent | OpticianMathLibrary/Magnification.cs:43-46 | the result is in hundredths, within half a hundredth of `(m - 1) * 100`; a tie goes to the even hundredth |
| Magnification.MagnificationPercentMonotone | OpticianMathLibrary/Magnification.cs:43-46 | the percentage is monotone, and magnification 1 gives 0 |
| Magnification.PercentOfMagnificationExact | OpticianMathLibrary/Magnification.cs:43-46 | a magnification in thousandths converts to a percentage without loss and back |
| Magnification.PercentOfSpectacleMagnification | OpticianMathLibrary/Magnification.cs:19-46 | the percentage of any computed magnification is exact |
| Magnification.MagnificationExampleRight | OpticianMathLibraryTests/MagnifcationFormulaTests.cs:63-72 | SpectacleMagnification(6.25, 1.50, 1.498, 3, 12) = 1.036 |
| Magnification.MagnificationExampleLeft | OpticianMathLibraryTests/MagnifcationFormulaTests.cs:75-84 | SpectacleMagnification(9.25, 4.50, 1.498, 5, 12) = 1.107 |
| Magnification.PercentExamples | OpticianMathLibraryTests/MagnifcationFormulaTests.cs:87-107 | percentages 3.6 and 10.7 |
| PhysicsFormulas.WaveFormulaVelocity | OpticianMathLibrary/PhysicsFormulas.cs:25-28 | the velocity is in thousandths, within half a thousandth of frequency times wavelength; a tie goes to the even thousandth |
| PhysicsFormulas.WaveFormulaFrequency | OpticianMathLibrary/PhysicsFormulas.cs:36-39 | the frequency is in thousandths, within half a thousandth of velocity over wavelength; a tie goes to the even thousandth |
| PhysicsFormulas.WaveFormulaWavelength | OpticianMathLibrary/PhysicsFormulas.cs:47-50 | the wavelength is in thousandths, within half a thousandth of velocity over frequency; a tie goes to the even thousandth |
| PhysicsFormulas.FrequencyIsWavelengthFormula | OpticianMathLibrary/PhysicsFormulas.cs:36-50 | the frequency and wavelength formulas coincide |
| PhysicsFormulas.WaveRoundTrip | OpticianMathLibrary/PhysicsFormulas.cs:25-50 | for values in thousandths with a product in thousandths, velocity, frequency and wavelength recover one another exactly |
| PhysicsFormulas.Illumination | OpticianMathLibrary/PhysicsFormulas.cs:57-60 | the illumination is non-negative, in thousandths, within half a thousandth of `1/d^2`; a tie goes to the even thousandth |
| PhysicsFormulas.InverseSquare | OpticianMathLibrary/PhysicsFormulas.cs:57-60 | doubling the distance quarters the light; the sign of the distance does not matter |
| PhysicsFormulas.IlluminationFalls | OpticianMathLibrary/PhysicsFormulas.cs:57-60 | a farther point is never brighter, before or after rounding |
| PhysicsFormulas.IndexSpeedRoundTrip | OpticianMathLibrary/PhysicsFormulas.cs:17-81 | index and speed in the material determine each other; at 1 both are the speed of light 2.9979e10 |
| PhysicsFormulas.VelocityExample | OpticianMathLibraryTests/PhysicsFormulasTests.cs:63-72 | WaveFormulaVelocity(1, 1) = 1 |
| PhysicsFormulas.FrequencyExample | OpticianMathLibraryTests/PhysicsFormulasTests.cs:76-85 | WaveFormulaFrequency(1, 3) = 0.333 |
| PhysicsFormulas.WavelengthExample | OpticianMathLibraryTests/PhysicsFormulasTests.cs:88-97 | WaveFormulaWavelength(1, 8) = 0.125 |
| PhysicsFormulas.IlluminationExample | OpticianMathLibraryTests/PhysicsFormulasTests.cs:100-109 | Illumination(16) = 0.004 |

Notes on the model:

- The library spells the deviation function `PrimsDeviation`; here it is `Prism.PrismDeviation`.
- For a zero cylinder `TransposeAxis` returns axis 0. This is harmless, since a lens without cylinder has no axis. `TransposeSpherePower` also returns 0, which loses the sphere; see "## Findings".
- `BoddyFormula` switches from its minus to its plus variant above sphere 0. The result is monotone on each side of 0 but drops across it (`BaseCurve.BoddyFormulaNotMonotone`).
- In the two resultant-angle functions, a horizontal component greater than 0 is "Base In" for both eyes (`Prism.HorizontalOf`).

## Left out

- `Power.PowerMeridian180` and `Power.PowerMeridian90` need sine and cosine, which have no exact model.
- `Prism.PrismCentrad`, `Prism.PrismDiopterApproximation`, `Prism.EffectiveDecentration`, `Prism.ResolvingPrismHorizontal` and `Prism.ResolvingPrismVertical` also need trigonometric functions.
- `Tilt.cs` (pantoscopic tilt) also needs trigonometric functions.
- `Prism.ResultantPrism` and both `Thickness.SagittalDepth` overloads take a square root. The library yields NaN when the semi-diameter exceeds the radius of curvature.
- The arctangent in the two resultant-angle functions is a parameter `fa`, constrained by `Prism.ArctanMagnitude`. The model says nothing about its numeric value beyond that.
- `TextFormatter.cs` and the `TESTER` console program only format and print text.
- IEEE `double` behaviour is not modelled: binary representation error, overflow, infinities and NaN from division by zero. Two consequences:
  - The lens maker's test value 2.61 depends on `double` representation error, so no example asserts it.
  - Division by zero is excluded by `requires` rather than producing an infinity.
- Rounding.RoundToMultipleSign: states only the weak sign (a small positive value may round to 0).
- Tools.ToolRoundTrip: states the round trip only for index at least 1.53. For lower indices the conversion back enlarges the first rounding error.
- Prism.ApicalAngleOfDeviation: is stated only for angles and deviations in whole tenths of a degree, where neither rounding loses anything.
- OpticianFormulas.MonocularIsHalfBinocular: is stated only when the frame PD minus the binocular PD is in tenths. Otherwise the two roundings to different places can disagree.
- Power.ReciprocalRounding: promises no round trip between `DioptricPower` and `FocalDistance`. Rounding the reciprocal to three places loses too much, as `Power.FocalPowerRoundTripLoses` shows. From 2000 D the focal distance is 0 (`Power.FocalDistanceVanishes`), and the library's power of it is an infinity that the model excludes.
- PhysicsFormulas.LightSpeed is the library's constant 2.9979e10, whatever unit it is read in. The source's comments call it both a speed and a value in m/s.


## Findings

| source | as written | input that shows it | evidently intended | confidence | as-written member | corrected member |
|---|---|---|---|---|---|---|
| OpticianMathLibrary/Transposition.cs:20-32 | a zero cylinder gives sphere 0 | sphere 2, cylinder 0 gives 0, and the spherical equivalent changes from 2 to 0 | a spherical lens keeps its sphere | not executed | Transposition.TransposeSpherePowerDropsSphere | Transposition.Transpose |
