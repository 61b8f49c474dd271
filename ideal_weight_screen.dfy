/**
 * The ideal-weight step (app/onboarding/idealWeight.tsx): a weight in pounds
 * or kilograms and a unit toggle WITHOUT the guard the weight step has, so
 * pressing the unit already shown still converts the number.  Nothing is
 * stored; the forward action always advances.
 */
module IdealWeightStep {
  import opened Units

  class IdealWeightScreen {
    var unit: WeightUnit
    var weight: int

    constructor ()
      ensures unit == Lbs && weight == 150
    {
      unit, weight := Lbs, 150;
    }

    /** The slider's `onValueChange`: the slider only offers values in the current unit's range. */
    method Slide(value: int)
      requires WeightSliderMin(unit) <= value <= WeightSliderMax(unit)
      modifies this
      ensures weight == value && unit == old(unit)
    {
      weight := value;
    }

    /**
     * `handleUnitSwitch`: whatever unit is pressed, the number is converted
     * out of the current unit and the pressed unit becomes current.
     */
    method HandleUnitSwitch(newUnit: WeightUnit)
      modifies this
      ensures unit == newUnit
      ensures weight == ConvertFrom(old(unit), old(weight))
    {
      var conversion := ConvertFrom(unit, weight);
      unit := newUnit;
      weight := conversion;
    }

    /** `handleNext`: always calls `onNext`. */
    method HandleNext() returns (callsOnNext: bool)
      ensures callsOnNext
    {
      callsOnNext := true;
    }
  }

  /**
   * Pressing lbs while lbs is shown turns 150 into 68 under the same label,
   * and a second press into 31.
   */
  lemma RepressingLbsRescales()
    ensures ConvertFrom(Lbs, 150) == 68 && ConvertFrom(Lbs, 68) == 31
  {
  }

  /** Each press of the lbs button while lbs is shown shrinks any positive weight. */
  lemma RepressingLbsShrinks(w: int)
    requires w > 0
    ensures 0 <= ConvertFrom(Lbs, w) < w
  {
  }

  /** Pressing kg while kg is shown grows any positive weight. */
  lemma RepressingKgGrows(w: int)
    requires w > 0
    ensures ConvertFrom(Kg, w) > w
  {
  }
}
