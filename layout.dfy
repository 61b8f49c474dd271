/**
 * The onboarding wizard's layout (app/onboarding/_layout.tsx): a fixed list
 * of steps and the index of the step on screen, moved by the `onNext` and
 * `onBack` callbacks every step receives.
 */
module Layout {

  /** Every onboarding screen the app has; the layout shows only some of them. */
  datatype ScreenId = Name | Goal | Gender | Age | Height | Weight | IdealWeight | Active | Diet | Water

  /** ONBOARDING_SCREENS, in the order the wizard shows them. */
  function OnboardingScreens(): (screens: seq<ScreenId>)
    ensures |screens| == 8
    ensures screens[0] == Name && screens[|screens| - 1] == Active
    ensures Diet !in screens && Water !in screens
    ensures forall i, j :: 0 <= i < j < |screens| ==> screens[i] != screens[j]
  {
    [Name, Goal, Gender, Age, Height, Weight, IdealWeight, Active]
  }

  const LastIndex := |OnboardingScreens()| - 1

  /** The index after `handleNext`: one step on, except at the last step. */
  function NextIndex(i: int): (j: int)
    ensures 0 <= i <= LastIndex ==> 0 <= j <= LastIndex
    ensures j == i || j == i + 1
    ensures j == i <==> i >= LastIndex
  {
    if i < LastIndex then i + 1 else i
  }

  /** The index after `handleBack`: one step back, except at the first step. */
  function BackIndex(i: int): (j: int)
    ensures 0 <= i <= LastIndex ==> 0 <= j <= LastIndex
    ensures j == i || j == i - 1
    ensures j == i <==> i <= 0
  {
    if i > 0 then i - 1 else i
  }

  /** Both handlers keep the index a valid position in the step list. */
  lemma HandlersStayInBounds(i: int)
    requires 0 <= i < |OnboardingScreens()|
    ensures 0 <= NextIndex(i) < |OnboardingScreens()|
    ensures 0 <= BackIndex(i) < |OnboardingScreens()|
  {
  }

  /** `handleNext` then `handleBack` undoes the move from any step but the last. */
  lemma NextThenBack(i: int)
    requires 0 <= i < LastIndex
    ensures NextIndex(i) == i + 1 && BackIndex(NextIndex(i)) == i
  {
  }

  /** `handleBack` then `handleNext` undoes the move from any step but the first. */
  lemma BackThenNext(i: int)
    requires 0 < i <= LastIndex
    ensures BackIndex(i) == i - 1 && NextIndex(BackIndex(i)) == i
  {
  }

  /** The index after pressing next `k` times from index `i`. */
  function NextTimes(i: int, k: nat): int
    decreases k
  {
    if k == 0 then i else NextTimes(NextIndex(i), k - 1)
  }

  /** From any step, `k` presses of next reach step min(i + k, 7) and stay there. */
  lemma {:induction false} NextTimesSaturates(i: int, k: nat)
    requires 0 <= i <= LastIndex
    ensures NextTimes(i, k) == if i + k < LastIndex then i + k else LastIndex
    decreases k
  {
    if k > 0 {
      NextTimesSaturates(NextIndex(i), k - 1);
    }
  }

  class OnboardingLayout {
    var currentScreenIndex: int

    ghost predicate Valid()
      reads this
    {
      0 <= currentScreenIndex < |OnboardingScreens()|
    }

    constructor ()
      ensures Valid() && currentScreenIndex == 0
    {
      currentScreenIndex := 0;
    }

    /** The step on screen; the lookup is in bounds under the invariant. */
    function CurrentScreen(): (id: ScreenId)
      reads this
      requires Valid()
      ensures id in OnboardingScreens()
      ensures id != Diet && id != Water
    {
      OnboardingScreens()[currentScreenIndex]
    }

    /**
     * `handleNext`: move one step on, or, at the last step, call
     * `completeOnboarding` (which only logs) and stay on that step.
     */
    method HandleNext() returns (callsComplete: bool)
      requires Valid()
      modifies this
      ensures Valid()
      ensures currentScreenIndex == NextIndex(old(currentScreenIndex))
      ensures old(currentScreenIndex) < LastIndex ==> currentScreenIndex == old(currentScreenIndex) + 1
      ensures callsComplete <==> old(currentScreenIndex) == LastIndex
    {
      if currentScreenIndex < LastIndex {
        currentScreenIndex := currentScreenIndex + 1;
        callsComplete := false;
      } else {
        callsComplete := true;
      }
    }

    /** `handleBack`: move one step back, or do nothing on the first step. */
    method HandleBack()
      requires Valid()
      modifies this
      ensures Valid()
      ensures currentScreenIndex == BackIndex(old(currentScreenIndex))
      ensures old(currentScreenIndex) == 0 ==> currentScreenIndex == 0
    {
      if currentScreenIndex > 0 {
        currentScreenIndex := currentScreenIndex - 1;
      }
    }
  }
}
