/**
 * The water-goal step (app/onboarding/water.tsx): a counter of glasses kept
 * between 1 and 20, and a submit action that writes it to the `water_goal`
 * column and, on success, schedules navigation to the prediction screen.
 * This screen is not in the layout's step list and never calls `onNext`.
 */
module WaterStep {
  import opened Outcomes
  import WaterTrack

  class WaterScreen {
    var glasses: int
    var isCalculating: bool

    ghost predicate Valid()
      reads this
    {
      1 <= glasses <= 20
    }

    constructor ()
      ensures Valid() && glasses == 10 && !isCalculating
    {
      glasses, isCalculating := 10, false;
    }

    /** `increment`: one more glass, but never above 20. */
    method Increment()
      requires Valid()
      modifies this
      ensures Valid() && isCalculating == old(isCalculating)
      ensures old(glasses) < 20 ==> glasses == old(glasses) + 1
      ensures old(glasses) == 20 ==> glasses == 20
    {
      if glasses < 20 {
        glasses := glasses + 1;
      }
    }

    /** `decrement`: one glass fewer, but never below 1. */
    method Decrement()
      requires Valid()
      modifies this
      ensures Valid() && isCalculating == old(isCalculating)
      ensures old(glasses) > 1 ==> glasses == old(glasses) - 1
      ensures old(glasses) == 1 ==> glasses == 1
    {
      if glasses > 1 {
        glasses := glasses - 1;
      }
    }

    /**
     * `handleSubmit`: the "calculating" view is raised; a failed user lookup
     * or write lowers it again and stays; a successful write keeps it up and
     * schedules navigation to /prediction.  What it writes is always a goal
     * the tracker would accept.
     */
    method HandleSubmit(auth: AuthOutcome, write: WriteOutcome)
      returns (navigatesToPrediction: bool, sent: Option<Update<int>>)
      requires Valid()
      modifies this
      ensures Valid() && glasses == old(glasses)
      ensures sent == Sent(auth, "water_goal", glasses)
      ensures navigatesToPrediction <==> Saved(auth, write)
      ensures isCalculating <==> navigatesToPrediction
      ensures sent.Some? ==> WaterTrack.InGoalRange(sent.value.value)
    {
      isCalculating := true;
      navigatesToPrediction, sent := false, None;
      if auth.AuthFailed? {
        isCalculating := false;
        return;
      }
      sent := Some(Update(auth.user, "water_goal", glasses));
      if write.WriteFailed? {
        isCalculating := false;
        return;
      }
      navigatesToPrediction := true;
    }
  }
}
