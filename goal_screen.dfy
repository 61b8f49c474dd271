/**
 * The goal step (app/onboarding/goal.tsx): three options, and a forward
 * action that writes the selection to the `food_goal` column of the signed-in
 * user's profile and calls `onNext` only when that write succeeds.  A
 * `loading` flag is raised while the calls are pending and lowered on every
 * way out.
 */
module GoalStep {
  import opened Outcomes

  datatype GoalOption = Lose | Healthy | Gain

  class GoalScreen {
    var selectedGoal: Option<GoalOption>
    var loading: bool

    constructor ()
      ensures selectedGoal.None? && !loading
    {
      selectedGoal := None;
      loading := false;
    }

    /** Pressing an option replaces any earlier selection. */
    method Select(g: GoalOption)
      modifies this
      ensures selectedGoal == Some(g) && loading == old(loading)
    {
      selectedGoal := Some(g);
    }

    /** The forward button's `disabled` flag. */
    function ForwardDisabled(): (disabled: bool)
      reads this
      ensures !disabled <==> selectedGoal.Some? && !loading
    {
      selectedGoal.None? || loading
    }

    /**
     * `handleNext`: without a selection, nothing happens.  Otherwise the user
     * is looked up; if that fails nothing is written; else the selection is
     * written, and `onNext` is called only if the write succeeded.  Either way
     * `loading` ends false.
     */
    method HandleNext(auth: AuthOutcome, write: WriteOutcome)
      returns (callsOnNext: bool, sent: Option<Update<GoalOption>>)
      modifies this
      ensures selectedGoal == old(selectedGoal)
      ensures old(selectedGoal).None? ==> !callsOnNext && sent.None? && loading == old(loading)
      ensures old(selectedGoal).Some? ==> !loading && sent == Sent(auth, "food_goal", old(selectedGoal).value)
      ensures callsOnNext <==> old(selectedGoal).Some? && Saved(auth, write)
    {
      callsOnNext, sent := false, None;
      if selectedGoal.None? {
        return;
      }
      loading := true;
      if auth.AuthFailed? {
        loading := false;
        return;
      }
      sent := Some(Update(auth.user, "food_goal", selectedGoal.value));
      if write.WriteOk? {
        callsOnNext := true;
      }
      loading := false;
    }
  }
}
