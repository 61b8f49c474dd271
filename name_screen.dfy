/**
 * The name step (app/onboarding/name.tsx): a text field and a forward button
 * that works once the field is non-empty.  The name is neither stored nor
 * passed on, and the screen has no back action.
 */
module NameStep {

  class NameScreen {
    var name: string

    constructor ()
      ensures name == ""
    {
      name := "";
    }

    /** The text field's `onChangeText`. */
    method OnChangeText(text: string)
      modifies this
      ensures name == text
    {
      name := text;
    }

    /** The forward button's `disabled` flag. */
    function ForwardDisabled(): (disabled: bool)
      reads this
      ensures disabled <==> |name| == 0
    {
      name == ""
    }

    /**
     * `handleNext`: calls `onNext` exactly when the name is non-empty; there
     * is no trimming, so a name of spaces passes.
     */
    method HandleNext() returns (callsOnNext: bool)
      ensures callsOnNext <==> |name| > 0
      ensures callsOnNext <==> !ForwardDisabled()
    {
      if name == "" {
        return false;
      }
      callsOnNext := true;
    }
  }
}
