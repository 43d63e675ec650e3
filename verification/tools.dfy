/** Surfacing tools are marked in dioptres for a reference index of 1.53.  These
    functions convert between the power a surface needs in a material of another
    index and the tool that cuts it, snapping both to quarter dioptres. */
module Tools {
  import opened Rounding
  import opened NumberRounder

  /** Reference index the tools are calibrated for, less one. */
  const ToolIndexExcess: real := 0.53

  /** Tool power for a surface power in a material of index `index`, before snapping. */
  function ToolPowerFor(refractivePower: real, index: real): real
    requires index != 1.0
  {
    (ToolIndexExcess / (index - 1.0)) * refractivePower
  }

  /** Surface power a tool cuts in a material of index `index`, before snapping. */
  function PowerCutBy(toolPower: real, index: real): real
  {
    ((index - 1.0) / ToolIndexExcess) * toolPower
  }

  /** Tool power that cuts `refractivePower` in a material of index `index`, to the
      nearest quarter dioptre. */
  function ToolSelector(refractivePower: real, index: real): (r: real)
    requires index != 1.0
    ensures OnGrid(r, 4.0)
    ensures Abs(r - ToolPowerFor(refractivePower, index)) <= 0.125
    ensures Abs(r - ToolPowerFor(refractivePower, index)) == 0.125 ==> OnGrid(r / 2.0, 4.0)
  {
    RoundToQuarter(ToolPowerFor(refractivePower, index))
  }

  /** Power a tool of `toolPower` cuts in a material of index `index`, to the nearest
      quarter dioptre. */
  function RefractivePower(toolPower: real, index: real): (r: real)
    ensures OnGrid(r, 4.0)
    ensures Abs(r - PowerCutBy(toolPower, index)) <= 0.125
    ensures Abs(r - PowerCutBy(toolPower, index)) == 0.125 ==> OnGrid(r / 2.0, 4.0)
  {
    RoundToQuarter(PowerCutBy(toolPower, index))
  }

  /** At the reference index both conversions are plain quarter snapping, and zero
      power stays zero at every index. */
  lemma ReferenceIndexAndZero(power: real, index: real)
    requires index != 1.0
    ensures ToolSelector(power, 1.53) == RoundToQuarter(power)
    ensures RefractivePower(power, 1.53) == RoundToQuarter(power)
    ensures ToolSelector(0.0, index) == 0.0
    ensures RefractivePower(0.0, index) == 0.0
  {
    assert ToolPowerFor(power, 1.53) == power;
    assert PowerCutBy(power, 1.53) == power;
    assert ToolPowerFor(0.0, index) == 0.0;
    assert PowerCutBy(0.0, index) == 0.0;
    assert OnGrid(0.0, 4.0);
    RoundToMultipleOnGrid(0.0, 4.0);
  }

  /** For materials of index at least the reference one, choosing a tool for the
      power another tool cuts gives back a tool within a quarter dioptre. */
  lemma ToolRoundTrip(toolPower: real, index: real)
    requires index >= 1.53
    ensures Abs(ToolSelector(RefractivePower(toolPower, index), index) - toolPower) <= 0.25
  {
    ShrinkError(RefractivePower(toolPower, index), toolPower, index);
  }

  /** Converting back divides by a factor of at least one, which does not enlarge the
      error the first snapping made. */
  lemma ShrinkError(p: real, t: real, index: real)
    requires index >= 1.53
    requires Abs(p - PowerCutBy(t, index)) <= 0.125
    ensures Abs(ToolPowerFor(p, index) - t) <= 0.125
  {
    var e := p - PowerCutBy(t, index);
    var j := ToolIndexExcess / (index - 1.0);
    assert 0.0 < j <= 1.0;
    assert j * ((index - 1.0) / ToolIndexExcess) == 1.0;
    assert ToolPowerFor(p, index) - t == j * e;
    assert -0.125 <= e <= 0.125;
    assert -0.125 <= j * e <= 0.125;
  }
}
