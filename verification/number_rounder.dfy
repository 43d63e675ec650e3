/** Snapping to the quarter- and eighth-dioptre steps lenses are made in:
    `Math.Round(value * 4) / 4` and `Math.Round(value * 8) / 8`, ties to even. */
module NumberRounder {
  import opened Rounding

  /** The nearest multiple of 1/4. */
  function RoundToQuarter(value: real): (r: real)
    ensures OnGrid(r, 4.0)
    ensures Abs(r - value) <= 0.125
    ensures Abs(r - value) == 0.125 ==> OnGrid(r / 2.0, 4.0)
  {
    RoundToMultiple(value, 4.0)
  }

  /** The nearest multiple of 1/8. */
  function RoundToEighth(value: real): (r: real)
    ensures OnGrid(r, 8.0)
    ensures Abs(r - value) <= 0.0625
    ensures Abs(r - value) == 0.0625 ==> OnGrid(r / 2.0, 8.0)
  {
    RoundToMultiple(value, 8.0)
  }

  /** Snapping a value already on the quarter grid changes nothing. */
  lemma RoundToQuarterIdempotent(value: real)
    ensures RoundToQuarter(RoundToQuarter(value)) == RoundToQuarter(value)
  {
    RoundToMultipleOnGrid(RoundToQuarter(value), 4.0);
  }

  lemma RoundToQuarterMonotone(x: real, y: real)
    requires x <= y
    ensures RoundToQuarter(x) <= RoundToQuarter(y)
  {
    RoundToMultipleMonotone(x, y, 4.0);
  }

  /** Every quarter is an eighth, so snapping a quarter to eighths keeps it. */
  lemma EighthOfQuarter(value: real)
    ensures RoundToEighth(RoundToQuarter(value)) == RoundToQuarter(value)
  {
    OnGridRefine(RoundToQuarter(value), 4.0, 2);
    RoundToMultipleOnGrid(RoundToQuarter(value), 8.0);
  }

  /** A value half-way between two quarters goes to the one that is a multiple of
      one half. */
  lemma QuarterTies()
    ensures RoundToQuarter(0.125) == 0.0
    ensures RoundToQuarter(0.375) == 0.5
    ensures RoundToQuarter(-0.125) == 0.0
  {
    RoundToMultipleUnique(0.125, 4.0, 0.0);
    RoundToMultipleUnique(0.375, 4.0, 0.5);
    RoundToMultipleUnique(-0.125, 4.0, 0.0);
  }
}
