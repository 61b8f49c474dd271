/**
 * The age step (app/onboarding/age.tsx): a free text field and a forward
 * button that works once the text is non-empty.  Nothing checks that the
 * text is a number; the age is neither stored nor passed on, and the screen
 * has no back action.
 */
module AgeStep {

  class AgeScreen {
    var age: string

    constructor ()
      ensures age == ""
    {
      age := "";
    }

    /** The text field's `onChangeText`. */
    method OnChangeText(text: string)
      modifies this
      ensures age == text
    {
      age := text;
    }

    /** The forward button's `disabled` flag. */
    function ForwardDisabled(): (disabled: bool)
      reads this
      ensures disabled <==> |age| == 0
    {
      age == ""
    }

    /** `handleNext`: calls `onNext` exactly when the text is non-empty, whatever it says. */
    method HandleNext() returns (callsOnNext: bool)
      ensures callsOnNext <==> |age| > 0
      ensures callsOnNext <==> !ForwardDisabled()
    {
      if age == "" {
        return false;
      }
      callsOnNext := true;
    }
  }
}
