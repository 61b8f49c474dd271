/**
 * The daily water tracker (app/home/watertrack.tsx): a count of glasses drunk
 * today against a daily goal, one tappable glass per unit of the goal, and a
 * dialog that stores a new goal between 1 and 20.
 */
module WaterTrack {
  import opened Outcomes

  /** The goals `handleGoalUpdate` accepts. */
  predicate InGoalRange(goal: int)
  {
    1 <= goal <= 20
  }

  /** The row fetched on mount: failed (no user or a query error), or its `water_goal` (None when null). */
  datatype GoalFetch = FetchFailed | Fetched(waterGoal: Option<int>)

  /** `water_goal || 10`: a missing or zero goal falls back to 10. */
  function GoalOrDefault(fetched: Option<int>): (goal: int)
    ensures goal != 0
    ensures fetched.None? ==> goal == 10
    ensures fetched.Some? ==> goal == (if fetched.value == 0 then 10 else fetched.value)
  {
    match fetched
    case None => 10
    case Some(g) => if g == 0 then 10 else g
  }

  datatype GoalUpdateResult = Rejected | WriteRefused | GoalSaved

  class WaterTrackScreen {
    var waterGoal: int
    var glassesDrank: int
    var showModal: bool

    ghost predicate Valid()
      reads this
    {
      0 <= glassesDrank <= waterGoal
    }

    constructor ()
      ensures Valid()
      ensures waterGoal == 10 && glassesDrank == 0 && !showModal
    {
      waterGoal, glassesDrank, showModal := 10, 0, false;
    }

    /**
     * `fetchWaterData`: on a failed fetch nothing changes; otherwise the goal
     * becomes the fetched one, or 10.  The invariant survives whenever the
     * new goal is not below the glasses already drunk.
     */
    method FetchWaterData(fetch: GoalFetch)
      requires Valid()
      modifies this
      ensures glassesDrank == old(glassesDrank) && showModal == old(showModal)
      ensures fetch.FetchFailed? ==> waterGoal == old(waterGoal)
      ensures fetch.Fetched? ==> waterGoal == GoalOrDefault(fetch.waterGoal)
      ensures glassesDrank <= waterGoal ==> Valid()
    {
      if fetch.Fetched? {
        waterGoal := GoalOrDefault(fetch.waterGoal);
      }
    }

    /** `handleAddGlass`: one more glass, unless the goal is reached. */
    method HandleAddGlass()
      requires Valid()
      modifies this
      ensures Valid() && waterGoal == old(waterGoal) && showModal == old(showModal)
      ensures old(glassesDrank) < waterGoal ==> glassesDrank == old(glassesDrank) + 1
      ensures old(glassesDrank) == waterGoal ==> glassesDrank == old(glassesDrank)
    {
      if glassesDrank < waterGoal {
        glassesDrank := glassesDrank + 1;
      }
    }

    /** `handleRemoveGlass`: one glass fewer, unless none is drunk. */
    method HandleRemoveGlass()
      requires Valid()
      modifies this
      ensures Valid() && waterGoal == old(waterGoal) && showModal == old(showModal)
      ensures old(glassesDrank) > 0 ==> glassesDrank == old(glassesDrank) - 1
      ensures old(glassesDrank) == 0 ==> glassesDrank == 0
    {
      if glassesDrank > 0 {
        glassesDrank := glassesDrank - 1;
      }
    }

    /**
     * Tapping glass `i` (one is drawn for each unit of the goal): a filled
     * glass (i < glassesDrank) removes one, an empty one adds one.  Either
     * way the count moves by exactly one.
     */
    method TapGlass(i: int)
      requires Valid()
      requires 0 <= i < waterGoal
      modifies this
      ensures Valid() && waterGoal == old(waterGoal) && showModal == old(showModal)
      ensures i < old(glassesDrank) ==> glassesDrank == old(glassesDrank) - 1
      ensures i >= old(glassesDrank) ==> glassesDrank == old(glassesDrank) + 1
    {
      if i < glassesDrank {
        HandleRemoveGlass();
      } else {
        HandleAddGlass();
      }
    }

    /** "Change daily goal" opens the dialog. */
    method OpenGoalModal()
      modifies this
      ensures showModal && waterGoal == old(waterGoal) && glassesDrank == old(glassesDrank)
    {
      showModal := true;
    }

    /** "Cancel" (or a request to close) shuts the dialog. */
    method CloseGoalModal()
      modifies this
      ensures !showModal && waterGoal == old(waterGoal) && glassesDrank == old(glassesDrank)
    {
      showModal := false;
    }

    /**
     * `handleGoalUpdate`, given the signed-in user and `parseInt` of the
     * dialog's text (None for NaN): a missing user or a goal outside 1..20 is
     * rejected and changes nothing; otherwise the goal is written, and only a
     * successful write sets the goal, empties the count and shuts the dialog.
     */
    method HandleGoalUpdate(auth: AuthOutcome, parsed: Option<int>, write: WriteOutcome)
      returns (result: GoalUpdateResult, sent: Option<Update<int>>)
      requires Valid()
      modifies this
      ensures Valid()
      ensures result == Rejected <==> auth.AuthFailed? || parsed.None? || !InGoalRange(parsed.value)
      ensures result == Rejected ==> sent.None?
      ensures result != Rejected ==> sent == Some(Update(auth.user, "water_goal", parsed.value))
      ensures result == GoalSaved <==> result != Rejected && write.WriteOk?
      ensures result == GoalSaved ==> waterGoal == parsed.value && glassesDrank == 0 && !showModal
      ensures result != GoalSaved ==>
                waterGoal == old(waterGoal) && glassesDrank == old(glassesDrank) && showModal == old(showModal)
    {
      if auth.AuthFailed? || parsed.None? || parsed.value < 1 || parsed.value > 20 {
        return Rejected, None;
      }
      sent := Some(Update(auth.user, "water_goal", parsed.value));
      if write.WriteFailed? {
        return WriteRefused, sent;
      }
      waterGoal := parsed.value;
      glassesDrank := 0;
      showModal := false;
      result := GoalSaved;
    }

    /** The "N left to go" figure: never negative, never above the goal. */
    function Remaining(): (left: int)
      reads this
      requires Valid()
      ensures 0 <= left <= waterGoal
      ensures glassesDrank + left == waterGoal
    {
      waterGoal - glassesDrank
    }
  }
}
