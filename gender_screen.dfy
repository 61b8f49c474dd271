/**
 * The gender step (app/onboarding/gender.tsx): three options, the last one
 * pressed is selected, and the forward button works once one is.  The
 * selection is neither stored nor passed on.
 */
module GenderStep {
  import opened Outcomes

  datatype GenderOption = Female | Male | Other

  class GenderScreen {
    var selectedGender: Option<GenderOption>

    constructor ()
      ensures selectedGender.None?
    {
      selectedGender := None;
    }

    /** Pressing an option replaces any earlier selection. */
    method Select(g: GenderOption)
      modifies this
      ensures selectedGender == Some(g)
    {
      selectedGender := Some(g);
    }

    /** The forward button's `disabled` flag. */
    function ForwardDisabled(): (disabled: bool)
      reads this
      ensures !disabled <==> selectedGender.Some?
    {
      selectedGender.None?
    }

    /** `handleNext`: calls `onNext` exactly when a gender is selected. */
    method HandleNext() returns (callsOnNext: bool)
      ensures callsOnNext <==> selectedGender.Some?
      ensures callsOnNext <==> !ForwardDisabled()
    {
      callsOnNext := false;
      if selectedGender.Some? {
        callsOnNext := true;
      }
    }
  }
}
