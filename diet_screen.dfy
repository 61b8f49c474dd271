/**
 * The diet step (app/onboarding/diet.tsx): four options, the last one pressed
 * is selected, and the forward button works once one is.  The selection is
 * neither stored nor passed on.  This screen is not in the layout's step list.
 */
module DietStep {
  import opened Outcomes

  datatype DietOption = Clean | Mediterranean | Keto | LowCarb

  class DietScreen {
    var selectedDiet: Option<DietOption>

    constructor ()
      ensures selectedDiet.None?
    {
      selectedDiet := None;
    }

    /** Pressing an option replaces any earlier selection. */
    method Select(d: DietOption)
      modifies this
      ensures selectedDiet == Some(d)
    {
      selectedDiet := Some(d);
    }

    /** The forward button's `disabled` flag. */
    function ForwardDisabled(): (disabled: bool)
      reads this
      ensures !disabled <==> selectedDiet.Some?
    {
      selectedDiet.None?
    }

    /** `handleNext`: calls `onNext` exactly when a diet is selected. */
    method HandleNext() returns (callsOnNext: bool)
      ensures callsOnNext <==> selectedDiet.Some?
      ensures callsOnNext <==> !ForwardDisabled()
    {
      callsOnNext := false;
      if selectedDiet.Some? {
        callsOnNext := true;
      }
    }
  }
}
