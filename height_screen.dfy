/**
 * The height step (app/onboarding/height.tsx): a height kept both in
 * centimetres and in inches, a unit toggle that re-derives the number of the
 * unit switched to, a slider over that unit's range, and a feet-and-inches
 * display.  Nothing is stored; the forward action always advances.
 */
module HeightStep {
  import opened Units

  /** What `renderFormattedHeight` shows: `160 cm`, or `5'3"`. */
  datatype HeightDisplay = CmText(cm: int) | FeetInchesText(feet: int, inches: int)

  class HeightScreen {
    var unit: HeightUnit
    var heightCm: int
    var heightInches: int

    ghost predicate Valid()
      reads this
    {
      heightCm >= 0 && heightInches >= 0
    }

    constructor ()
      ensures Valid()
      ensures unit == Ft && heightCm == 160 && heightInches == 63
    {
      unit, heightCm, heightInches := Ft, 160, 63;
    }

    /** The slider's `onValueChange`: the slider only offers values in the current unit's range. */
    method Slide(value: int)
      requires Valid()
      requires HeightSliderMin(unit) <= value <= HeightSliderMax(unit)
      modifies this
      ensures Valid() && unit == old(unit)
      ensures unit == Cm ==> heightCm == value && heightInches == old(heightInches)
      ensures unit == Ft ==> heightInches == value && heightCm == old(heightCm)
    {
      if unit == Cm {
        heightCm := value;
      } else {
        heightInches := value;
      }
    }

    /**
     * `handleUnitSwitch`: pressing the current unit does nothing; switching to
     * cm recomputes the centimetres from the inches, switching to ft the
     * inches from the centimetres, and the other number is left as it was.
     */
    method HandleUnitSwitch(newUnit: HeightUnit)
      requires Valid()
      modifies this
      ensures Valid() && unit == newUnit
      ensures newUnit == old(unit) ==> heightCm == old(heightCm) && heightInches == old(heightInches)
      ensures newUnit != old(unit) && newUnit == Cm ==>
                heightCm == CmFromInches(old(heightInches)) && heightInches == old(heightInches)
      ensures newUnit != old(unit) && newUnit == Ft ==>
                heightInches == InchesFromCm(old(heightCm)) && heightCm == old(heightCm)
    {
      if newUnit == unit {
        return;
      }
      if newUnit == Cm {
        heightCm := CmFromInches(heightInches);
      } else {
        heightInches := InchesFromCm(heightCm);
      }
      unit := newUnit;
    }

    /**
     * `renderFormattedHeight`: centimetres as they are, or the inches split
     * into `Math.floor(h / 12)` feet and `h % 12` inches, which together give
     * back h with 0 <= inches < 12.
     */
    function FormattedHeight(): (d: HeightDisplay)
      reads this
      requires Valid()
      ensures unit == Cm ==> d == CmText(heightCm)
      ensures unit == Ft ==> d.FeetInchesText? && d.feet * 12 + d.inches == heightInches
      ensures unit == Ft ==> 0 <= d.inches < 12 && d.feet >= 0
    {
      if unit == Cm then CmText(heightCm)
      else FeetInchesText(heightInches / 12, JsRem(heightInches, 12))
    }

    /** `handleNext`: always calls `onNext`. */
    method HandleNext() returns (callsOnNext: bool)
      ensures callsOnNext
    {
      callsOnNext := true;
    }
  }

  /**
   * Toggling to ft and back to cm moves the centimetres by at most one, and
   * toggling to cm and back to ft restores the inches exactly.
   */
  lemma ToggleTwiceDrift(cm: int, inches: int)
    ensures -1 <= CmFromInches(InchesFromCm(cm)) - cm <= 1
    ensures InchesFromCm(CmFromInches(inches)) == inches
  {
    CmRoundTripDrift(cm);
    InchesRoundTrip(inches);
  }

  /** The converted number need not lie in the new unit's slider range: 120 cm is 47 inches. */
  lemma SwitchCanLeaveSliderRange()
    ensures HeightSliderMin(Cm) <= 120 <= HeightSliderMax(Cm)
    ensures InchesFromCm(120) == 47 && InchesFromCm(120) < HeightSliderMin(Ft)
  {
  }
}
