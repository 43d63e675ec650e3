/** Front base-curve selection for single-vision lenses (Vogel's rule) and for
    progressive lenses (Boddy's formula).  All powers are dioptres and none of the
    results is rounded. */
module BaseCurve {
  import opened Power

  /** Vogel's rule for plus lenses: spherical equivalent plus six. */
  function VogelsRulePlus(sphere: real, cylinder: real): real
  {
    (sphere + (cylinder / 2.0)) + 6.0
  }

  /** Vogel's rule for minus lenses: half the spherical equivalent plus six. */
  function VogelsRuleMinus(sphere: real, cylinder: real): real
  {
    ((sphere + (cylinder / 2.0)) / 2.0) + 6.0
  }

  /** Boddy's formula for plus progressive lenses. */
  function BoddyFormulaPlus(sphere: real, cylinder: real, addPower: real): real
  {
    ((addPower / 2.0) + (sphere + (cylinder / 2.0))) + 3.50
  }

  /** Boddy's formula for minus progressive lenses. */
  function BoddyFormulaMinus(sphere: real, cylinder: real, addPower: real): real
  {
    (((sphere + (cylinder / 2.0)) + addPower) / 2.0) + 4.25
  }

  /** Boddy's formula with the branch chosen by the sign of the sphere; the source
      repeats both formulas inline rather than calling them. */
  function BoddyFormula(sphere: real, cylinder: real, addPower: real): real
  {
    if sphere > 0.0 then
      ((addPower / 2.0) + (sphere + (cylinder / 2.0))) + 3.50
    else
      (((sphere + (cylinder / 2.0)) + addPower) / 2.0) + 4.25
  }

  /** The dispatching formula agrees with the plus formula for a plus sphere and with
      the minus formula otherwise, a plano sphere included. */
  lemma BoddyFormulaDispatch(sphere: real, cylinder: real, addPower: real)
    ensures sphere > 0.0 ==> BoddyFormula(sphere, cylinder, addPower) == BoddyFormulaPlus(sphere, cylinder, addPower)
    ensures sphere <= 0.0 ==> BoddyFormula(sphere, cylinder, addPower) == BoddyFormulaMinus(sphere, cylinder, addPower)
  {
  }

  /** All four single formulas see the prescription only through its spherical
      equivalent, as affine functions of it. */
  lemma BaseCurvesOfSphericalEquivalent(sphere: real, cylinder: real, addPower: real)
    ensures VogelsRulePlus(sphere, cylinder) == SphericalEquivalent(sphere, cylinder) + 6.0
    ensures VogelsRuleMinus(sphere, cylinder) == SphericalEquivalent(sphere, cylinder) / 2.0 + 6.0
    ensures BoddyFormulaPlus(sphere, cylinder, addPower)
         == SphericalEquivalent(sphere, cylinder) + addPower / 2.0 + 3.5
    ensures BoddyFormulaMinus(sphere, cylinder, addPower)
         == (SphericalEquivalent(sphere, cylinder) + addPower) / 2.0 + 4.25
  {
  }

  /** Consequently two prescriptions with the same spherical equivalent get the same
      base curves from each single formula. */
  lemma SameEquivalentSameCurves(s1: real, c1: real, s2: real, c2: real, addPower: real)
    requires SphericalEquivalent(s1, c1) == SphericalEquivalent(s2, c2)
    ensures VogelsRulePlus(s1, c1) == VogelsRulePlus(s2, c2)
    ensures VogelsRuleMinus(s1, c1) == VogelsRuleMinus(s2, c2)
    ensures BoddyFormulaPlus(s1, c1, addPower) == BoddyFormulaPlus(s2, c2, addPower)
    ensures BoddyFormulaMinus(s1, c1, addPower) == BoddyFormulaMinus(s2, c2, addPower)
  {
    BaseCurvesOfSphericalEquivalent(s1, c1, addPower);
    BaseCurvesOfSphericalEquivalent(s2, c2, addPower);
  }

  /** Each single formula is non-decreasing in the sphere. */
  lemma SingleFormulasMonotone(s1: real, s2: real, cylinder: real, addPower: real)
    requires s1 <= s2
    ensures VogelsRulePlus(s1, cylinder) <= VogelsRulePlus(s2, cylinder)
    ensures VogelsRuleMinus(s1, cylinder) <= VogelsRuleMinus(s2, cylinder)
    ensures BoddyFormulaPlus(s1, cylinder, addPower) <= BoddyFormulaPlus(s2, cylinder, addPower)
    ensures BoddyFormulaMinus(s1, cylinder, addPower) <= BoddyFormulaMinus(s2, cylinder, addPower)
  {
  }

  /** The dispatching formula is non-decreasing on each side of the switch... */
  lemma BoddyFormulaMonotoneOnEachSide(s1: real, s2: real, cylinder: real, addPower: real)
    requires s1 <= s2
    requires s2 <= 0.0 || s1 > 0.0
    ensures BoddyFormula(s1, cylinder, addPower) <= BoddyFormula(s2, cylinder, addPower)
  {
  }

  /** ...but not across it: at sphere 0 the minus branch gives 4.25 while a quarter
      dioptre more gives 3.75 from the plus branch. */
  lemma BoddyFormulaNotMonotone()
    ensures BoddyFormula(0.0, 0.0, 0.0) == 4.25
    ensures BoddyFormula(0.25, 0.0, 0.0) == 3.75
  {
  }

  lemma BaseCurveExamples()
    ensures VogelsRulePlus(6.0, 0.0) == 12.0
    ensures VogelsRuleMinus(6.0, 0.0) == 9.0
    ensures BoddyFormulaPlus(0.0, 0.0, 0.0) == 3.5
    ensures BoddyFormulaMinus(0.0, 0.0, 0.0) == 4.25
    ensures BoddyFormula(-1.0, 0.0, 0.0) == 3.75
    ensures VogelsRulePlus(2.0, -1.0) == 7.5
    ensures VogelsRuleMinus(-3.0, -1.0) == 4.25
    ensures BoddyFormulaPlus(4.0, -1.0, 1.5) == 7.75
    ensures BoddyFormulaMinus(-2.0, -2.0, 2.0) == 3.75
    ensures BoddyFormula(-2.0, -2.0, 2.0) == 3.75
    ensures BoddyFormula(4.0, -1.0, 1.5) == 7.75
  {
  }
}
