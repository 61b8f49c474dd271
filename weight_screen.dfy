/**
 * The weight step (app/onboarding/weight.tsx): a weight in pounds or
 * kilograms, a guarded unit toggle that converts the number, and a forward
 * action that stores the weight in kilograms in the `weight` column and calls
 * `onNext` only when that write succeeds.
 */
module WeightStep {
  import opened Outcomes
  import opened Units

  /** `weightKg`: the weight as stored, always in kilograms. */
  function WeightKg(unit: WeightUnit, weight: int): (kg: int)
    ensures unit == Kg ==> kg == weight
    ensures unit == Lbs ==> 4410 * kg - 2205 <= 2000 * weight < 4410 * kg + 2205
  {
    if unit == Kg then weight else KgFromLbs(weight)
  }

  /** The kilograms stored do not depend on whether the unit was toggled before saving. */
  lemma SavedKgIgnoresToggle(unit: WeightUnit, weight: int)
    ensures WeightKg(if unit == Kg then Lbs else Kg, ConvertFrom(unit, weight)) == WeightKg(unit, weight)
  {
    if unit == Kg {
      KgRoundTrip(weight);
    }
  }

  /** The conversion is not clamped: 30 kg (the kg minimum) becomes 66 lbs, under the lbs minimum 70. */
  lemma SwitchCanLeaveSliderRange()
    ensures ConvertFrom(Kg, WeightSliderMin(Kg)) == 66 < WeightSliderMin(Lbs)
  {
  }

  class WeightScreen {
    var unit: WeightUnit
    var weight: int
    var loading: bool

    constructor ()
      ensures unit == Lbs && weight == 150 && !loading
    {
      unit, weight, loading := Lbs, 150, false;
    }

    /** The slider's `onValueChange`: the slider only offers values in the current unit's range. */
    method Slide(value: int)
      requires WeightSliderMin(unit) <= value <= WeightSliderMax(unit)
      modifies this
      ensures weight == value && unit == old(unit) && loading == old(loading)
    {
      weight := value;
    }

    /**
     * `handleUnitSwitch`: pressing the current unit does nothing; otherwise
     * the number is converted out of the old unit and the unit changes.
     */
    method HandleUnitSwitch(newUnit: WeightUnit)
      modifies this
      ensures unit == newUnit && loading == old(loading)
      ensures newUnit == old(unit) ==> weight == old(weight)
      ensures newUnit != old(unit) ==> weight == ConvertFrom(old(unit), old(weight))
    {
      if newUnit == unit {
        return;
      }
      var converted := ConvertFrom(unit, weight);
      unit := newUnit;
      weight := converted;
    }

    /**
     * `handleNext`: look the user up; if that fails nothing is written;
     * else the weight in kilograms is written, and `onNext` is called only
     * if the write succeeded.  `loading` ends false on every way out.
     */
    method HandleNext(auth: AuthOutcome, write: WriteOutcome)
      returns (callsOnNext: bool, sent: Option<Update<int>>)
      modifies this
      ensures unit == old(unit) && weight == old(weight) && !loading
      ensures sent == Sent(auth, "weight", WeightKg(unit, weight))
      ensures callsOnNext <==> Saved(auth, write)
    {
      loading := true;
      var weightKg := WeightKg(unit, weight);
      callsOnNext, sent := false, None;
      if auth.AuthFailed? {
        loading := false;
        return;
      }
      sent := Some(Update(auth.user, "weight", weightKg));
      if write.WriteOk? {
        callsOnNext := true;
      }
      loading := false;
    }
  }
}
