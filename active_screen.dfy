/**
 * The activity-level step (app/onboarding/active.tsx): three levels, and a
 * forward action that writes the selection to the `activity_level` column of
 * the signed-in user's profile and calls `onNext` only when that write
 * succeeds.  A `loading` flag is raised while the calls are pending and
 * lowered on every way out.
 */
module ActiveStep {
  import opened Outcomes

  datatype ActivityLevel = Low | Moderate | High

  class ActiveScreen {
    var selectedLevel: Option<ActivityLevel>
    var loading: bool

    constructor ()
      ensures selectedLevel.None? && !loading
    {
      selectedLevel := None;
      loading := false;
    }

    /** Pressing a card replaces any earlier selection. */
    method Select(level: ActivityLevel)
      modifies this
      ensures selectedLevel == Some(level) && loading == old(loading)
    {
      selectedLevel := Some(level);
    }

    /** The forward button's `disabled` flag. */
    function ForwardDisabled(): (disabled: bool)
      reads this
      ensures !disabled <==> selectedLevel.Some? && !loading
    {
      selectedLevel.None? || loading
    }

    /**
     * `handleNext`: without a selection, nothing happens.  Otherwise the user
     * is looked up; if that fails nothing is written; else the level is
     * written, and `onNext` is called only if the write succeeded.  Either way
     * `loading` ends false.
     */
    method HandleNext(auth: AuthOutcome, write: WriteOutcome)
      returns (callsOnNext: bool, sent: Option<Update<ActivityLevel>>)
      modifies this
      ensures selectedLevel == old(selectedLevel)
      ensures old(selectedLevel).None? ==> !callsOnNext && sent.None? && loading == old(loading)
      ensures old(selectedLevel).Some? ==> !loading && sent == Sent(auth, "activity_level", old(selectedLevel).value)
      ensures callsOnNext <==> old(selectedLevel).Some? && Saved(auth, write)
    {
      callsOnNext, sent := false, None;
      if selectedLevel.None? {
        return;
      }
      loading := true;
      if auth.AuthFailed? {
        loading := false;
        return;
      }
      sent := Some(Update(auth.user, "activity_level", selectedLevel.value));
      if write.WriteOk? {
        callsOnNext := true;
      }
      loading := false;
    }
  }
}
