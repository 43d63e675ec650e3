/** Transposition of a plus-cylinder prescription to minus-cylinder form.  Each of
    the three library functions splits on the sign of the cylinder: a plus cylinder is
    transposed, a minus cylinder passes through, and a zero cylinder yields 0. */
module Transposition {
  import opened Rounding
  import opened Power
  import BaseCurve
  import OpticianFormulas

  /** `TransposeSpherePower` as written: for a zero cylinder it returns 0, dropping
      the sphere. */
  function TransposeSpherePower(sphere: real, cylinder: real): real
  {
    if cylinder > 0.0 then sphere + cylinder
    else if cylinder < 0.0 then sphere
    else 0.0
  }

  /** The sphere of the transposed prescription: the same as `TransposeSpherePower`
      except that a sphere with no cylinder is kept. */
  function TransposedSphere(sphere: real, cylinder: real): (r: real)
    ensures cylinder != 0.0 ==> r == TransposeSpherePower(sphere, cylinder)
    ensures cylinder == 0.0 ==> r == sphere
  {
    if cylinder > 0.0 then sphere + cylinder else sphere
  }

  /** The two functions disagree for every non-zero sphere without cylinder: the
      sphere of a purely spherical lens is lost, and with it the spherical equivalent. */
  lemma TransposeSpherePowerDropsSphere()
    ensures TransposeSpherePower(2.0, 0.0) == 0.0
    ensures SphericalEquivalent(TransposeSpherePower(2.0, 0.0), TransposedCylinderSign(0.0))
         != SphericalEquivalent(2.0, 0.0)
    ensures TransposedSphere(2.0, 0.0) == 2.0
  {
  }

  /** The axis 90 degrees away for a plus cylinder (0 when a plus cylinder lies at
      exactly 90), the same axis for a minus cylinder, and 0 with no cylinder. */
  function TransposeAxis(cylinder: real, axis: real): (r: real)
    ensures cylinder > 0.0 ==> Abs(r - axis) == 90.0
    ensures cylinder > 0.0 && 0.0 <= axis <= 180.0 ==> 0.0 <= r < 180.0
    ensures cylinder < 0.0 ==> r == axis
    ensures cylinder == 0.0 ==> r == 0.0
  {
    if cylinder > 0.0 && axis < 90.0 then axis + 90.0
    else if cylinder > 0.0 && axis > 90.0 then axis - 90.0
    else if cylinder < 0.0 then axis
    else 0.0
  }

  /** Axes 0 and 180 name the same meridian. */
  predicate SameMeridian(a: real, b: real)
  {
    a == b || Abs(a - b) == 180.0
  }

  /** Rotating a plus-cylinder axis twice returns to the same meridian. */
  lemma TransposeAxisTwice(cylinder: real, axis: real)
    requires cylinder > 0.0
    requires 0.0 <= axis <= 180.0
    ensures SameMeridian(TransposeAxis(cylinder, TransposeAxis(cylinder, axis)), axis)
  {
    var once := TransposeAxis(cylinder, axis);
    var twice := TransposeAxis(cylinder, once);
    assert Abs(once - axis) == 90.0 && Abs(twice - once) == 90.0;
    assert 0.0 <= once < 180.0;
  }

  /** The cylinder in minus form: always `-|cylinder|`. */
  function TransposedCylinderSign(cylinder: real): (r: real)
    ensures r <= 0.0
    ensures Abs(r) == Abs(cylinder)
  {
    if cylinder > 0.0 then cylinder * -1.0
    else if cylinder < 0.0 then cylinder
    else 0.0
  }

  /** Transposing the cylinder sign a second time changes nothing. */
  lemma TransposedCylinderSignIdempotent(cylinder: real)
    ensures TransposedCylinderSign(TransposedCylinderSign(cylinder)) == TransposedCylinderSign(cylinder)
  {
  }

  /** A minus-cylinder prescription passes through all three functions unchanged. */
  lemma MinusCylinderFixed(sphere: real, cylinder: real, axis: real)
    requires cylinder < 0.0
    ensures TransposeSpherePower(sphere, cylinder) == sphere
    ensures TransposeAxis(cylinder, axis) == axis
    ensures TransposedCylinderSign(cylinder) == cylinder
  {
  }

  /** For a non-zero cylinder the library's three functions preserve the spherical
      equivalent. */
  lemma TransposePreservesEquivalent(sphere: real, cylinder: real)
    requires cylinder != 0.0
    ensures SphericalEquivalent(TransposeSpherePower(sphere, cylinder), TransposedCylinderSign(cylinder))
         == SphericalEquivalent(sphere, cylinder)
  {
  }

  /** A spectacle prescription: sphere and cylinder in dioptres, axis in degrees. */
  datatype Prescription = Prescription(sphere: real, cylinder: real, axis: real)

  /** The whole prescription in minus-cylinder form, with the sphere kept when there
      is no cylinder. */
  function Transpose(rx: Prescription): (t: Prescription)
    ensures t.cylinder <= 0.0
    ensures SphericalEquivalent(t.sphere, t.cylinder) == SphericalEquivalent(rx.sphere, rx.cylinder)
    ensures {t.sphere, t.sphere + t.cylinder} == {rx.sphere, rx.sphere + rx.cylinder}
  {
    Prescription(
      TransposedSphere(rx.sphere, rx.cylinder),
      TransposedCylinderSign(rx.cylinder),
      TransposeAxis(rx.cylinder, rx.axis))
  }

  /** Transposition is idempotent, and a minus-cylinder prescription is already in
      its transposed form. */
  lemma TransposeIdempotent(rx: Prescription)
    ensures Transpose(Transpose(rx)) == Transpose(rx)
    ensures rx.cylinder < 0.0 ==> Transpose(rx) == rx
  {
  }

  /** Transposition only renames the lens: its astigmatism class and the base curves
      Vogel's rule suggests are unchanged. */
  lemma TransposePreservesLens(rx: Prescription)
    ensures OpticianFormulas.AstigmatismEvaluator(Transpose(rx).sphere, Transpose(rx).cylinder)
         == OpticianFormulas.AstigmatismEvaluator(rx.sphere, rx.cylinder)
    ensures BaseCurve.VogelsRulePlus(Transpose(rx).sphere, Transpose(rx).cylinder)
         == BaseCurve.VogelsRulePlus(rx.sphere, rx.cylinder)
    ensures BaseCurve.VogelsRuleMinus(Transpose(rx).sphere, Transpose(rx).cylinder)
         == BaseCurve.VogelsRuleMinus(rx.sphere, rx.cylinder)
  {
    var t := Transpose(rx);
    BaseCurve.SameEquivalentSameCurves(t.sphere, t.cylinder, rx.sphere, rx.cylinder, 0.0);
    if rx.cylinder > 0.0 {
      OpticianFormulas.ByMeridiansSymmetric(rx.sphere, rx.sphere + rx.cylinder);
      assert t.sphere + t.cylinder == rx.sphere;
    }
  }
}
