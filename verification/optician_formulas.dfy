/** General dispensing formulas: the astigmatism classifier, frame decentration,
    bifocal segment drop and minimum blank size.  Lengths are millimetres, powers
    dioptres. */
module OpticianFormulas {
  import opened Maybe
  import opened Rounding

  datatype Astigmatism =
    | NoPower
    | NoCylinder
    | SimpleHyperopic
    | SimpleMyopic
    | CompoundHyperopic
    | CompoundMyopic
    | Mixed

  /** The sentence the library returns for each classification. */
  function Message(a: Astigmatism): string
  {
    match a
    case NoPower => "The lens has no power."
    case NoCylinder => "There is no cylinder, therefore no astigmatism."
    case SimpleHyperopic => "Simple Hyperopic Astigmatism"
    case SimpleMyopic => "Simple Myopic Astigmatism"
    case CompoundHyperopic => "Compound Hyperopic Astigmatism"
    case CompoundMyopic => "Compound Myopic Astigmatism"
    case Mixed => "Mixed Astigmatism"
  }

  datatype Sign = Minus | Zero | Plus

  function SignOf(x: real): Sign
  {
    if x > 0.0 then Plus else if x < 0.0 then Minus else Zero
  }

  /** The textbook classification from the powers of the two principal meridians
      (for sphere S and cylinder C these are S and S + C): both in focus is no power,
      equal is no cylinder, one in focus is simple, same side is compound, opposite
      sides is mixed. */
  function ByMeridians(m1: real, m2: real): Astigmatism
  {
    if m1 == m2 && m1 != 0.0 then NoCylinder
    else
      match (SignOf(m1), SignOf(m2))
      case (Zero, Zero) => NoPower
      case (Zero, Plus) | (Plus, Zero) => SimpleHyperopic
      case (Zero, Minus) | (Minus, Zero) => SimpleMyopic
      case (Plus, Plus) => CompoundHyperopic
      case (Minus, Minus) => CompoundMyopic
      case (Plus, Minus) | (Minus, Plus) => Mixed
  }

  // The five guards the source evaluates in turn once the cylinder is non-zero.

  predicate SimpleHyperopicGuard(sphere: real, cylinder: real)
  {
    (sphere == 0.0 && cylinder > 0.0) || (sphere > 0.0 && sphere + cylinder == 0.0)
  }

  predicate SimpleMyopicGuard(sphere: real, cylinder: real)
  {
    (sphere == 0.0 && cylinder < 0.0) || (sphere < 0.0 && sphere + cylinder == 0.0)
  }

  predicate CompoundHyperopicGuard(sphere: real, cylinder: real)
  {
    sphere > 0.0 && sphere + cylinder > 0.0
  }

  predicate CompoundMyopicGuard(sphere: real, cylinder: real)
  {
    sphere < 0.0 && sphere + cylinder < 0.0
  }

  predicate MixedGuard(sphere: real, cylinder: real)
  {
    (sphere > 0.0 && sphere + cylinder < 0.0) || (sphere < 0.0 && sphere + cylinder > 0.0)
  }

  /** The five guards in source order, each overwriting `output` when it holds. */
  function LaterGuards(sphere: real, cylinder: real, output: Option<Astigmatism>): Option<Astigmatism>
  {
    var o1 := if SimpleHyperopicGuard(sphere, cylinder) then Some(SimpleHyperopic) else output;
    var o2 := if SimpleMyopicGuard(sphere, cylinder) then Some(SimpleMyopic) else o1;
    var o3 := if CompoundHyperopicGuard(sphere, cylinder) then Some(CompoundHyperopic) else o2;
    var o4 := if CompoundMyopicGuard(sphere, cylinder) then Some(CompoundMyopic) else o3;
    if MixedGuard(sphere, cylinder) then Some(Mixed) else o4
  }

  /** The classification as the source computes it.  The output starts empty (`None`);
      the no-power case is stored but not returned, so the later guards still run on
      it, while the no-cylinder case returns at once. */
  function Evaluate(sphere: real, cylinder: real): (r: Option<Astigmatism>)
    ensures r == Some(ByMeridians(sphere, sphere + cylinder))
  {
    if sphere == 0.0 && cylinder == 0.0 then
      LaterGuards(sphere, cylinder, Some(NoPower))
    else if cylinder == 0.0 then
      Some(NoCylinder)
    else
      LaterGuards(sphere, cylinder, None)
  }

  /** `AstigmatismEvaluator(sphere, cylinder)`: the message, or the empty string if no
      guard fired, which never happens. */
  function AstigmatismEvaluator(sphere: real, cylinder: real): (r: string)
    ensures r != ""
    ensures r == Message(ByMeridians(sphere, sphere + cylinder))
  {
    match Evaluate(sphere, cylinder)
    case None => ""
    case Some(a) => Message(a)
  }

  function GuardCount(sphere: real, cylinder: real): nat
  {
    (if SimpleHyperopicGuard(sphere, cylinder) then 1 else 0)
    + (if SimpleMyopicGuard(sphere, cylinder) then 1 else 0)
    + (if CompoundHyperopicGuard(sphere, cylinder) then 1 else 0)
    + (if CompoundMyopicGuard(sphere, cylinder) then 1 else 0)
    + (if MixedGuard(sphere, cylinder) then 1 else 0)
  }

  /** With a non-zero cylinder exactly one of the five later guards holds, so the order
      in which the source tests them does not matter and the output is never left empty. */
  lemma LaterGuardsPartition(sphere: real, cylinder: real)
    requires cylinder != 0.0
    ensures GuardCount(sphere, cylinder) == 1
  {
  }

  /** Distinct classifications produce distinct messages, and none is empty. */
  lemma MessageInjective(a: Astigmatism, b: Astigmatism)
    ensures Message(a) != ""
    ensures Message(a) == Message(b) ==> a == b
  {
  }

  /** Which lens sits in which principal meridian does not change the classification. */
  lemma ByMeridiansSymmetric(m1: real, m2: real)
    ensures ByMeridians(m1, m2) == ByMeridians(m2, m1)
  {
  }

  function Opposite(a: Astigmatism): Astigmatism
  {
    match a
    case SimpleHyperopic => SimpleMyopic
    case SimpleMyopic => SimpleHyperopic
    case CompoundHyperopic => CompoundMyopic
    case CompoundMyopic => CompoundHyperopic
    case _ => a
  }

  /** Negating the prescription swaps each hyperopic class with its myopic
      counterpart and keeps mixed, no-power and no-cylinder. */
  lemma NegatedPrescription(sphere: real, cylinder: real)
    ensures Evaluate(-sphere, -cylinder) == Some(Opposite(Evaluate(sphere, cylinder).value))
  {
    assert -sphere + -cylinder == -(sphere + cylinder);
  }

  lemma AstigmatismEvaluatorExamples()
    ensures AstigmatismEvaluator(0.0, 0.0) == "The lens has no power."
    ensures AstigmatismEvaluator(5.0, 0.0) == "There is no cylinder, therefore no astigmatism."
    ensures AstigmatismEvaluator(0.0, 5.0) == "Simple Hyperopic Astigmatism"
    ensures AstigmatismEvaluator(5.0, -5.0) == "Simple Hyperopic Astigmatism"
    ensures AstigmatismEvaluator(0.0, -5.0) == "Simple Myopic Astigmatism"
    ensures AstigmatismEvaluator(-5.0, 5.0) == "Simple Myopic Astigmatism"
    ensures AstigmatismEvaluator(5.0, -4.0) == "Compound Hyperopic Astigmatism"
    ensures AstigmatismEvaluator(-5.0, -6.0) == "Compound Myopic Astigmatism"
    ensures AstigmatismEvaluator(5.0, -6.0) == "Mixed Astigmatism"
    ensures AstigmatismEvaluator(-5.0, 6.0) == "Mixed Astigmatism"
  {
  }

  /** Distance between the geometric centres of the two lenses of a frame: the A
      measurement (eye size) plus the distance between lenses. */
  function FramePD(aMeasure: real, dblMeasure: real): real
  {
    aMeasure + dblMeasure
  }

  /** Total decentration of both lenses, to one decimal place. */
  function BinocularDecentration(aMeasure: real, dblMeasure: real, binocularPD: real): real
  {
    RoundHalfEven(FramePD(aMeasure, dblMeasure) - binocularPD, 1)
  }

  /** Decentration of one lens, to two decimal places. */
  function MonocularDecentration(aMeasure: real, dblMeasure: real, monoPD: real): real
  {
    RoundHalfEven(FramePD(aMeasure, dblMeasure) / 2.0 - monoPD, 2)
  }

  /** For a symmetric patient (each monocular PD half the binocular one) each lens is
      decentred by half the total.  Rounding to different precisions does not spoil
      this when the total is already a whole number of tenths of a millimetre. */
  lemma MonocularIsHalfBinocular(aMeasure: real, dblMeasure: real, binocularPD: real)
    requires OnGrid(FramePD(aMeasure, dblMeasure) - binocularPD, 10.0)
    ensures MonocularDecentration(aMeasure, dblMeasure, binocularPD / 2.0) * 2.0
         == BinocularDecentration(aMeasure, dblMeasure, binocularPD)
  {
    var total := FramePD(aMeasure, dblMeasure) - binocularPD;
    assert Pow10(1) == 10.0 && Pow10(2) == 100.0;
    RoundToMultipleOnGrid(total, 10.0);
    assert FramePD(aMeasure, dblMeasure) / 2.0 - binocularPD / 2.0 == total / 2.0;
    HalfOfTenthIsHundredth(total);
    RoundToMultipleOnGrid(total / 2.0, 100.0);
  }

  lemma HalfOfTenthIsHundredth(x: real)
    requires OnGrid(x, 10.0)
    ensures OnGrid(x / 2.0, 100.0)
  {
    var n := GridIndex(x, 10.0);
    assert x / 2.0 * 100.0 == (5 * n) as real;
  }

  /** Vertical distance of the segment top from the lens's horizontal midline, to two
      decimal places. */
  function SegDrop(segmentHeight: real, bMeasure: real): real
  {
    RoundHalfEven(segmentHeight - bMeasure / 2.0, 2)
  }

  /** A segment above the midline gives a non-negative value, one below it a
      non-positive value, and one on it zero. */
  lemma SegDropSign(segmentHeight: real, bMeasure: real)
    ensures segmentHeight >= bMeasure / 2.0 ==> SegDrop(segmentHeight, bMeasure) >= 0.0
    ensures segmentHeight <= bMeasure / 2.0 ==> SegDrop(segmentHeight, bMeasure) <= 0.0
  {
    RoundToMultipleSign(segmentHeight - bMeasure / 2.0, Pow10(2));
  }

  /** Effective diameter plus twice the decentration, plus 2 mm for chipping when asked,
      to two decimal places. */
  function MinimumBlankSize(effectiveDiameter: real, monoDecentration: real, chipFactor: bool): real
  {
    if chipFactor then
      RoundHalfEven(effectiveDiameter + 2.0 * monoDecentration + 2.0, 2)
    else
      RoundHalfEven(effectiveDiameter + 2.0 * monoDecentration, 2)
  }

  /** The chip factor adds exactly 2 mm to the rounded blank size. */
  lemma ChipFactorAddsTwo(effectiveDiameter: real, monoDecentration: real)
    ensures MinimumBlankSize(effectiveDiameter, monoDecentration, true)
         == MinimumBlankSize(effectiveDiameter, monoDecentration, false) + 2.0
  {
    assert Pow10(2) == 100.0;
    assert OnGrid(2.0 / 2.0, 100.0);
    RoundToMultipleShiftEven(effectiveDiameter + 2.0 * monoDecentration, 100.0, 2.0);
  }

  lemma DecentrationExamples()
    ensures BinocularDecentration(55.0, 15.0, 70.0) == 0.0
    ensures MonocularDecentration(55.0, 15.0, 35.0) == 0.0
    ensures SegDrop(30.0, 50.0) == 5.0
    ensures MinimumBlankSize(26.0, 7.0, false) == 40.0
    ensures MinimumBlankSize(26.0, 7.0, true) == 42.0
  {
  }
}
