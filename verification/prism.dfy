/** Ophthalmic prism: deviation and apical angle, prism dioptres and Prentice's rule,
    the base direction of a resultant prism from its vertical and horizontal
    components, and the eye/quadrant a base angle belongs to. */
module Prism {
  import opened Maybe
  import opened Rounding

  // ---------------------------------------------------------------- deviation

  /** Deviation of a thin prism in degrees before rounding. */
  function DeviationExact(apicalAngle: real, index: real): real
  {
    apicalAngle * (index - 1.0)
  }

  /** `PrimsDeviation` (sic) in the library: the deviation to one decimal place. */
  function PrismDeviation(apicalAngle: real, index: real): real
  {
    RoundHalfEven(DeviationExact(apicalAngle, index), 1)
  }

  /** The apical angle that produces `degreesDeviation`, to one decimal place. */
  function ApicalAngle(degreesDeviation: real, index: real): real
    requires index != 1.0
  {
    RoundHalfEven(degreesDeviation / (index - 1.0), 1)
  }

  /** Deviation and apical angle are inverse when the quantities involved are in
      whole tenths of a degree. */
  lemma ApicalAngleOfDeviation(apicalAngle: real, index: real)
    requires index != 1.0
    requires OnGrid(apicalAngle, 10.0)
    requires OnGrid(DeviationExact(apicalAngle, index), 10.0)
    ensures ApicalAngle(PrismDeviation(apicalAngle, index), index) == apicalAngle
  {
    Pow10Values();
    RoundToMultipleOnGrid(DeviationExact(apicalAngle, index), 10.0);
    DivideOutExcess(apicalAngle, index);
    RoundToMultipleOnGrid(apicalAngle, 10.0);
  }

  lemma DivideOutExcess(apicalAngle: real, index: real)
    requires index != 1.0
    ensures DeviationExact(apicalAngle, index) / (index - 1.0) == apicalAngle
  {
    var k := index - 1.0;
    assert DeviationExact(apicalAngle, index) == apicalAngle * k;
    CancelFactor(apicalAngle, k);
  }

  lemma CancelFactor(a: real, k: real)
    requires k != 0.0
    ensures (a * k) / k == a
  {
    var q := (a * k) / k;
    assert q * k == a * k;
  }

  // ------------------------------------------------------ prism dioptres

  /** Prism dioptres producing `displacement` centimetres at `distance` metres, to
      two places. */
  function PrismDiopter(displacement: real, distance: real): real
    requires distance != 0.0
  {
    RoundHalfEven(displacement / distance, 2)
  }

  /** Displacement in centimetres that `prismDiopters` produce at `distance` metres. */
  function PrismDisplacement(prismDiopters: real, distance: real): real
  {
    prismDiopters * distance
  }

  /** Distance in metres at which `prismDiopters` displace by `displacement` centimetres. */
  function PrismDistance(prismDiopters: real, displacement: real): real
    requires prismDiopters != 0.0
  {
    displacement / prismDiopters
  }

  /** Displacement and distance are inverse for a non-zero prism, and the prism is
      recovered from its displacement to two places. */
  lemma DisplacementRoundTrip(prismDiopters: real, distance: real)
    requires prismDiopters != 0.0 && distance != 0.0
    ensures PrismDistance(prismDiopters, PrismDisplacement(prismDiopters, distance)) == distance
    ensures PrismDiopter(PrismDisplacement(prismDiopters, distance), distance)
         == RoundHalfEven(prismDiopters, 2)
  {
    ProductQuotients(prismDiopters, distance);
  }

  lemma ProductQuotients(a: real, b: real)
    requires a != 0.0 && b != 0.0
    ensures (a * b) / a == b
    ensures (a * b) / b == a
  {
  }

  /** Prentice's rule: prism dioptres induced by decentring a lens of `lensPower`
      dioptres by `distance` centimetres. */
  function PrenticesLawCentimeters(lensPower: real, distance: real): real
  {
    distance * lensPower
  }

  /** Prentice's rule with the decentration in millimetres. */
  function PrenticesLawMillimeters(lensPower: real, distance: real): real
  {
    (distance * lensPower) / 10.0
  }

  /** The two forms of Prentice's rule agree once the decentration is converted,
      and decentring the other way induces the opposite prism. */
  lemma PrenticeUnits(lensPower: real, centimetres: real)
    ensures PrenticesLawMillimeters(lensPower, 10.0 * centimetres)
         == PrenticesLawCentimeters(lensPower, centimetres)
    ensures PrenticesLawCentimeters(lensPower, -centimetres)
         == -PrenticesLawCentimeters(lensPower, centimetres)
  {
    assert (10.0 * centimetres) * lensPower == 10.0 * (centimetres * lensPower);
    assert (-centimetres) * lensPower == -(centimetres * lensPower);
  }

  // ------------------------------------------------------ base direction

  datatype Eye = RightEye | LeftEye

  datatype Quadrant = QuadrantI | QuadrantII | QuadrantIII | QuadrantIV

  datatype EyeQuadrant = EyeQuadrant(eye: Eye, quadrant: Quadrant)

  /** Quadrant of the base of a prism with the given vertical and horizontal
      components, both non-zero; a positive vertical component is base up, and a
      positive horizontal one points towards 0 degrees on the right eye's chart. */
  function ComponentQuadrant(verticalComponent: real, horizontalComponent: real): Quadrant
  {
    if verticalComponent > 0.0 then
      (if horizontalComponent > 0.0 then QuadrantI else QuadrantII)
    else
      (if horizontalComponent < 0.0 then QuadrantIII else QuadrantIV)
  }

  /** The open angle range of each quadrant, in degrees. */
  predicate InQuadrant(angle: real, q: Quadrant)
  {
    match q
    case QuadrantI => 0.0 < angle < 90.0
    case QuadrantII => 90.0 < angle < 180.0
    case QuadrantIII => 180.0 < angle < 270.0
    case QuadrantIV => 270.0 < angle < 360.0
  }

  /** Angle in degrees between a direction in [0, 360) and the horizontal axis. */
  function FromHorizontal(angle: real): real
  {
    if angle <= 90.0 then angle
    else if angle <= 180.0 then 180.0 - angle
    else if angle <= 270.0 then angle - 180.0
    else 360.0 - angle
  }

  /** What the source's `|atan(vertical / horizontal)|` in degrees can be.  There is
      no arctangent here: the value is a parameter, constrained as the arctangent
      would constrain it.  Both components zero give NaN, which is not constrained. */
  predicate ArctanMagnitude(verticalComponent: real, horizontalComponent: real, fa: real)
  {
    if horizontalComponent == 0.0 then
      verticalComponent != 0.0 ==> fa == 90.0
    else if verticalComponent == 0.0 then
      fa == 0.0
    else
      0.0 < fa < 90.0
  }

  /** Base direction of the resultant prism for the right eye, in degrees, where the
      arctangent magnitude is `fa`; `None` for no prism at all, where the library
      returns NaN. */
  function ResultantPrismAngleRightEye(verticalComponent: real, horizontalComponent: real, fa: real): (r: Option<real>)
    requires ArctanMagnitude(verticalComponent, horizontalComponent, fa)
    ensures r.None? <==> verticalComponent == 0.0 && horizontalComponent == 0.0
    ensures r.Some? ==> 0.0 <= r.value < 360.0 && FromHorizontal(r.value) == fa
    ensures verticalComponent != 0.0 && horizontalComponent != 0.0 ==>
              r.Some? && InQuadrant(r.value, ComponentQuadrant(verticalComponent, horizontalComponent))
  {
    if verticalComponent == 0.0 && horizontalComponent == 0.0 then None
    else if horizontalComponent == 0.0 && verticalComponent > 0.0 then Some(90.0)
    else if horizontalComponent == 0.0 && verticalComponent < 0.0 then Some(270.0)
    else if horizontalComponent > 0.0 && verticalComponent > 0.0 then Some(fa)
    else if horizontalComponent < 0.0 && verticalComponent > 0.0 then Some(180.0 - fa)
    else if horizontalComponent < 0.0 && verticalComponent < 0.0 then Some(180.0 + fa)
    else if horizontalComponent > 0.0 && verticalComponent < 0.0 then Some(360.0 - fa)
    else Some(fa)
  }

  /** The same for the left eye, whose horizontal axis runs the other way (bi-nasal form). */
  function ResultantPrismAngleLeftEye(verticalComponent: real, horizontalComponent: real, fa: real): (r: Option<real>)
    requires ArctanMagnitude(verticalComponent, horizontalComponent, fa)
    ensures r.None? <==> verticalComponent == 0.0 && horizontalComponent == 0.0
    ensures r.Some? ==> 0.0 <= r.value < 360.0 && FromHorizontal(r.value) == fa
    ensures verticalComponent != 0.0 && horizontalComponent != 0.0 ==>
              r.Some? && InQuadrant(r.value, ComponentQuadrant(verticalComponent, -horizontalComponent))
  {
    if verticalComponent == 0.0 && horizontalComponent == 0.0 then None
    else if horizontalComponent == 0.0 && verticalComponent > 0.0 then Some(90.0)
    else if horizontalComponent == 0.0 && verticalComponent < 0.0 then Some(270.0)
    else if horizontalComponent < 0.0 && verticalComponent > 0.0 then Some(fa)
    else if horizontalComponent > 0.0 && verticalComponent > 0.0 then Some(180.0 - fa)
    else if horizontalComponent > 0.0 && verticalComponent < 0.0 then Some(180.0 + fa)
    else if horizontalComponent < 0.0 && verticalComponent < 0.0 then Some(360.0 - fa)
    else Some(fa)
  }

  /** The left eye is the right eye with the horizontal component mirrored; the
      arctangent magnitude is the same for both. */
  lemma LeftEyeMirrorsRightEye(verticalComponent: real, horizontalComponent: real, fa: real)
    requires ArctanMagnitude(verticalComponent, horizontalComponent, fa)
    ensures ArctanMagnitude(verticalComponent, -horizontalComponent, fa)
    ensures ResultantPrismAngleLeftEye(verticalComponent, horizontalComponent, fa)
         == ResultantPrismAngleRightEye(verticalComponent, -horizontalComponent, fa)
  {
  }

  /** Purely horizontal prism gives angle 0 on both charts whichever way it points,
      and purely vertical prism gives 90 or 270. */
  lemma AxisAlignedPrism(component: real)
    requires component != 0.0
    ensures ResultantPrismAngleRightEye(0.0, component, 0.0) == Some(0.0)
    ensures ResultantPrismAngleLeftEye(0.0, component, 0.0) == Some(0.0)
    ensures component > 0.0 ==> ResultantPrismAngleRightEye(component, 0.0, 90.0) == Some(90.0)
    ensures component < 0.0 ==> ResultantPrismAngleRightEye(component, 0.0, 90.0) == Some(270.0)
  {
  }

  // ------------------------------------------------------ eye resolver

  datatype VerticalBase = BaseUp | BaseDown

  datatype HorizontalBase = BaseIn | BaseOut

  function ParseVertical(s: string): Option<VerticalBase>
  {
    if s == "Base Up" then Some(BaseUp)
    else if s == "Base Down" then Some(BaseDown)
    else None
  }

  function ParseHorizontal(s: string): Option<HorizontalBase>
  {
    if s == "Base In" then Some(BaseIn)
    else if s == "Base Out" then Some(BaseOut)
    else None
  }

  function VerticalWord(v: VerticalBase): (s: string)
    ensures ParseVertical(s) == Some(v)
  {
    match v
    case BaseUp => "Base Up"
    case BaseDown => "Base Down"
  }

  function HorizontalWord(h: HorizontalBase): (s: string)
    ensures ParseHorizontal(s) == Some(h)
  {
    match h
    case BaseIn => "Base In"
    case BaseOut => "Base Out"
  }

  function Label(eq: EyeQuadrant): string
  {
    var eye := if eq.eye == RightEye then "Right Eye (OD)" else "Left Eye (OS)";
    var quadrant :=
      match eq.quadrant
      case QuadrantI => "I"
      case QuadrantII => "II"
      case QuadrantIII => "III"
      case QuadrantIV => "IV";
    eye + " Quadrant " + quadrant
  }

  /** The quadrant an eye-resolver angle falls in.  Quadrant I has no lower bound;
      the axes 90, 180 and 270 and anything from 360 up belong to none. */
  function AngleQuadrant(angle: real): Option<Quadrant>
  {
    if angle < 90.0 then Some(QuadrantI)
    else if 90.0 < angle < 180.0 then Some(QuadrantII)
    else if 180.0 < angle < 270.0 then Some(QuadrantIII)
    else if 270.0 < angle < 360.0 then Some(QuadrantIV)
    else None
  }

  /** The resolver's table stated by rule: the angle's quadrant must agree with the
      vertical base (up for I and II, down for III and IV), and the eye is the one
      for which the horizontal base points that way (base in lies towards 0 degrees
      on the right eye's chart and towards 180 on the left's). */
  function Resolve(angle: real, v: VerticalBase, h: HorizontalBase): Option<EyeQuadrant>
  {
    match AngleQuadrant(angle)
    case None => None
    case Some(q) =>
      var up := q == QuadrantI || q == QuadrantII;
      var towardZero := q == QuadrantI || q == QuadrantIV;
      if up != (v == BaseUp) then None
      else Some(EyeQuadrant(if towardZero == (h == BaseIn) then RightEye else LeftEye, q))
  }

  function ResolveWords(angle: real, verticalBaseDirection: string, horizontalBaseDirection: string): Option<EyeQuadrant>
  {
    match (ParseVertical(verticalBaseDirection), ParseHorizontal(horizontalBaseDirection))
    case (Some(v), Some(h)) => Resolve(angle, v, h)
    case _ => None
  }

  function Describe(r: Option<EyeQuadrant>): string
  {
    match r
    case None => ""
    case Some(eq) => Label(eq)
  }

  /** `EyeResolver`: eight guards tried in order, the empty string when none holds. */
  function EyeResolver(prismBaseAngle: real, verticalBaseDirection: string, horizontalBaseDirection: string): string
  {
    var v, h, a := verticalBaseDirection, horizontalBaseDirection, prismBaseAngle;
    if v == "Base Up" && h == "Base In" && a < 90.0 then "Right Eye (OD) Quadrant I"
    else if v == "Base Up" && h == "Base In" && a > 90.0 && a < 180.0 then "Left Eye (OS) Quadrant II"
    else if v == "Base Up" && h == "Base Out" && a < 180.0 && a > 90.0 then "Right Eye (OD) Quadrant II"
    else if v == "Base Up" && h == "Base Out" && a < 90.0 then "Left Eye (OS) Quadrant I"
    else if v == "Base Down" && h == "Base Out" && a < 270.0 && a > 180.0 then "Right Eye (OD) Quadrant III"
    else if v == "Base Down" && h == "Base Out" && a < 360.0 && a > 270.0 then "Left Eye (OS) Quadrant IV"
    else if v == "Base Down" && h == "Base In" && a < 360.0 && a > 270.0 then "Right Eye (OD) Quadrant IV"
    else if v == "Base Down" && h == "Base In" && a < 270.0 && a > 180.0 then "Left Eye (OS) Quadrant III"
    else ""
  }

  lemma LabelValues()
    ensures Label(EyeQuadrant(RightEye, QuadrantI)) == "Right Eye (OD) Quadrant I"
    ensures Label(EyeQuadrant(RightEye, QuadrantII)) == "Right Eye (OD) Quadrant II"
    ensures Label(EyeQuadrant(RightEye, QuadrantIII)) == "Right Eye (OD) Quadrant III"
    ensures Label(EyeQuadrant(RightEye, QuadrantIV)) == "Right Eye (OD) Quadrant IV"
    ensures Label(EyeQuadrant(LeftEye, QuadrantI)) == "Left Eye (OS) Quadrant I"
    ensures Label(EyeQuadrant(LeftEye, QuadrantII)) == "Left Eye (OS) Quadrant II"
    ensures Label(EyeQuadrant(LeftEye, QuadrantIII)) == "Left Eye (OS) Quadrant III"
    ensures Label(EyeQuadrant(LeftEye, QuadrantIV)) == "Left Eye (OS) Quadrant IV"
  {
  }

  /** The guard chain is the rule-based table: the library's string is the label of
      the eye and quadrant `Resolve` gives for the parsed words, or empty. */
  lemma EyeResolverIsTable(prismBaseAngle: real, verticalBaseDirection: string, horizontalBaseDirection: string)
    ensures EyeResolver(prismBaseAngle, verticalBaseDirection, horizontalBaseDirection)
         == Describe(ResolveWords(prismBaseAngle, verticalBaseDirection, horizontalBaseDirection))
  {
    LabelValues();
    var v := ParseVertical(verticalBaseDirection);
    var h := ParseHorizontal(horizontalBaseDirection);
    if v.Some? && h.Some? {
      WordsParsed(verticalBaseDirection, horizontalBaseDirection);
      TableRow(prismBaseAngle, v.value, h.value);
    }
  }

  lemma WordsParsed(verticalBaseDirection: string, horizontalBaseDirection: string)
    requires ParseVertical(verticalBaseDirection).Some? && ParseHorizontal(horizontalBaseDirection).Some?
    ensures verticalBaseDirection == VerticalWord(ParseVertical(verticalBaseDirection).value)
    ensures horizontalBaseDirection == HorizontalWord(ParseHorizontal(horizontalBaseDirection).value)
  {
  }

  /** One row of the table for known words. */
  lemma TableRow(angle: real, v: VerticalBase, h: HorizontalBase)
    ensures EyeResolver(angle, VerticalWord(v), HorizontalWord(h)) == Describe(Resolve(angle, v, h))
  {
    LabelValues();
  }

  /** The eight labels are distinct and none is empty, so the string identifies the
      eye and quadrant. */
  lemma LabelInjective(a: EyeQuadrant, b: EyeQuadrant)
    ensures Label(a) != ""
    ensures Label(a) == Label(b) ==> a == b
  {
    if Label(a) == Label(b) {
      assert Label(a)[0] == Label(b)[0];
      if a.eye == b.eye {
        var prefix := if a.eye == RightEye then |"Right Eye (OD) Quadrant "| else |"Left Eye (OS) Quadrant "|;
        assert Label(a)[prefix..] == Label(b)[prefix..];
      }
    }
  }

  function Other(e: Eye): Eye
  {
    if e == RightEye then LeftEye else RightEye
  }

  function OtherHorizontal(h: HorizontalBase): HorizontalBase
  {
    if h == BaseIn then BaseOut else BaseIn
  }

  /** Swapping base in and base out at the same angle and vertical base swaps the
      eye and keeps the quadrant. */
  lemma InOutMirror(angle: real, v: VerticalBase, h: HorizontalBase)
    ensures Resolve(angle, v, h).Some? <==> Resolve(angle, v, OtherHorizontal(h)).Some?
    ensures Resolve(angle, v, h).Some? ==>
              Resolve(angle, v, OtherHorizontal(h)).value
              == EyeQuadrant(Other(Resolve(angle, v, h).value.eye), Resolve(angle, v, h).value.quadrant)
  {
  }

  /** Angles on an axis or from 360 up, and any direction word other than the four
      exact ones, give the empty string. */
  lemma EyeResolverEmpty(angle: real, verticalBaseDirection: string, horizontalBaseDirection: string)
    requires angle == 90.0 || angle == 180.0 || angle == 270.0 || angle >= 360.0
          || ParseVertical(verticalBaseDirection).None?
          || ParseHorizontal(horizontalBaseDirection).None?
    ensures EyeResolver(angle, verticalBaseDirection, horizontalBaseDirection) == ""
  {
  }

  /** Quadrant I has no lower bound: a negative angle with base up and in is read as
      right eye, quadrant I. */
  lemma NegativeAngleIsQuadrantI(angle: real)
    requires angle < 0.0
    ensures EyeResolver(angle, "Base Up", "Base In") == "Right Eye (OD) Quadrant I"
    ensures EyeResolver(angle, "Base Up", "Base Out") == "Left Eye (OS) Quadrant I"
  {
  }

  function VerticalOf(verticalComponent: real): VerticalBase
  {
    if verticalComponent > 0.0 then BaseUp else BaseDown
  }

  /** A positive horizontal component is base in for either eye: towards 0 degrees
      on the right eye's chart and towards 180 on the left's. */
  function HorizontalOf(horizontalComponent: real): HorizontalBase
  {
    if horizontalComponent > 0.0 then BaseIn else BaseOut
  }

  /** The resolver agrees with the angle resolvers: the angle computed for a prism
      with both components non-zero, together with its base words, is resolved to
      that eye and to the quadrant the components' signs give. */
  lemma ResolverAgreesWithAngles(verticalComponent: real, horizontalComponent: real, fa: real)
    requires verticalComponent != 0.0 && horizontalComponent != 0.0
    requires ArctanMagnitude(verticalComponent, horizontalComponent, fa)
    ensures Resolve(ResultantPrismAngleRightEye(verticalComponent, horizontalComponent, fa).value,
                    VerticalOf(verticalComponent), HorizontalOf(horizontalComponent))
         == Some(EyeQuadrant(RightEye, ComponentQuadrant(verticalComponent, horizontalComponent)))
    ensures Resolve(ResultantPrismAngleLeftEye(verticalComponent, horizontalComponent, fa).value,
                    VerticalOf(verticalComponent), HorizontalOf(horizontalComponent))
         == Some(EyeQuadrant(LeftEye, ComponentQuadrant(verticalComponent, -horizontalComponent)))
  {
  }

  lemma EyeResolverExamples()
    ensures EyeResolver(45.0, "Base Up", "Base In") == "Right Eye (OD) Quadrant I"
    ensures EyeResolver(135.0, "Base Up", "Base In") == "Left Eye (OS) Quadrant II"
    ensures EyeResolver(225.0, "Base Down", "Base Out") == "Right Eye (OD) Quadrant III"
    ensures EyeResolver(315.0, "Base Down", "Base In") == "Right Eye (OD) Quadrant IV"
    ensures EyeResolver(45.0, "Base Down", "Base In") == ""
  {
  }
}
