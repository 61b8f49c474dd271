/**
 * The `useOnboarding` hook (hooks/useOnboarding.ts): a record of the answers
 * collected so far and a screen index, changed only by whole-record updates.
 * Each update is a function from the previous record to the next one.
 */
module OnboardingHook {
  import opened Outcomes

  datatype Gender = Male | Female | Other
  datatype Goal = Lose | Healthy | Gain

  datatype OnboardingState = OnboardingState(
    name: string,
    gender: Option<Gender>,
    goal: Option<Goal>,
    currentScreenIndex: int)

  /** The record the hook starts from. */
  function InitialState(): (s: OnboardingState)
    ensures s.name == "" && s.gender.None? && s.goal.None?
    ensures s.currentScreenIndex == 0
  {
    OnboardingState("", None, None, 0)
  }

  function SetName(s: OnboardingState, name: string): (r: OnboardingState)
    ensures r.name == name
    ensures r.gender == s.gender && r.goal == s.goal && r.currentScreenIndex == s.currentScreenIndex
  {
    s.(name := name)
  }

  function SetGender(s: OnboardingState, gender: Option<Gender>): (r: OnboardingState)
    ensures r.gender == gender
    ensures r.name == s.name && r.goal == s.goal && r.currentScreenIndex == s.currentScreenIndex
  {
    s.(gender := gender)
  }

  function SetGoal(s: OnboardingState, goal: Option<Goal>): (r: OnboardingState)
    ensures r.goal == goal
    ensures r.name == s.name && r.gender == s.gender && r.currentScreenIndex == s.currentScreenIndex
  {
    s.(goal := goal)
  }

  /** `nextScreen`: one screen on, with no upper bound. */
  function NextScreen(s: OnboardingState): (r: OnboardingState)
    ensures r.currentScreenIndex == s.currentScreenIndex + 1
    ensures r.name == s.name && r.gender == s.gender && r.goal == s.goal
  {
    s.(currentScreenIndex := s.currentScreenIndex + 1)
  }

  /** `prevScreen`: one screen back, never below 0 (`Math.max(i - 1, 0)`). */
  function PrevScreen(s: OnboardingState): (r: OnboardingState)
    ensures r.currentScreenIndex >= 0
    ensures s.currentScreenIndex >= 1 ==> r.currentScreenIndex == s.currentScreenIndex - 1
    ensures s.currentScreenIndex <= 1 ==> r.currentScreenIndex == 0
    ensures r.name == s.name && r.gender == s.gender && r.goal == s.goal
  {
    s.(currentScreenIndex := if s.currentScreenIndex - 1 > 0 then s.currentScreenIndex - 1 else 0)
  }

  /** `resetOnboarding`: back to the initial record, whatever the state. */
  function ResetOnboarding(s: OnboardingState): (r: OnboardingState)
    ensures r == InitialState()
    ensures r.name == "" && r.gender.None? && r.goal.None? && r.currentScreenIndex == 0
  {
    OnboardingState("", None, None, 0)
  }

  /** `prevScreen` after `nextScreen` gives back the same record. */
  lemma PrevAfterNext(s: OnboardingState)
    requires s.currentScreenIndex >= 0
    ensures PrevScreen(NextScreen(s)) == s
  {
  }

  /** `nextScreen` after `prevScreen` gives back the same record away from screen 0. */
  lemma NextAfterPrev(s: OnboardingState)
    requires s.currentScreenIndex >= 1
    ensures NextScreen(PrevScreen(s)) == s
  {
  }

  /** Screen 0 is a fixed point of `prevScreen`. */
  lemma PrevAtZero(s: OnboardingState)
    requires s.currentScreenIndex == 0
    ensures PrevScreen(s) == s
  {
  }

  /** Resetting twice is resetting once. */
  lemma ResetIdempotent(s: OnboardingState)
    ensures ResetOnboarding(ResetOnboarding(s)) == ResetOnboarding(s)
  {
  }

  /** Setting the same field twice keeps the last value; setters of different fields commute. */
  lemma SettersOverwriteAndCommute(s: OnboardingState, n1: string, n2: string, g: Option<Gender>, o: Option<Goal>)
    ensures SetName(SetName(s, n1), n2) == SetName(s, n2)
    ensures SetName(SetGender(s, g), n1) == SetGender(SetName(s, n1), g)
    ensures SetGender(SetGoal(s, o), g) == SetGoal(SetGender(s, g), o)
    ensures SetName(SetGoal(s, o), n1) == SetGoal(SetName(s, n1), o)
  {
  }

  /** One call of the hook's updaters. */
  datatype Action =
    | SetNameAction(name: string)
    | SetGenderAction(gender: Option<Gender>)
    | SetGoalAction(goal: Option<Goal>)
    | NextAction
    | PrevAction
    | ResetAction

  function Apply(s: OnboardingState, a: Action): OnboardingState
  {
    match a
    case SetNameAction(n) => SetName(s, n)
    case SetGenderAction(g) => SetGender(s, g)
    case SetGoalAction(o) => SetGoal(s, o)
    case NextAction => NextScreen(s)
    case PrevAction => PrevScreen(s)
    case ResetAction => ResetOnboarding(s)
  }

  /** The record after a sequence of updater calls, in order. */
  function Run(s: OnboardingState, actions: seq<Action>): OnboardingState
    decreases |actions|
  {
    if actions == [] then s else Run(Apply(s, actions[0]), actions[1..])
  }

  /** From the initial record, no sequence of updates makes the index negative. */
  lemma {:induction false} RunKeepsIndexNonNegative(s: OnboardingState, actions: seq<Action>)
    requires s.currentScreenIndex >= 0
    ensures Run(s, actions).currentScreenIndex >= 0
    decreases |actions|
  {
    if actions != [] {
      RunKeepsIndexNonNegative(Apply(s, actions[0]), actions[1..]);
    }
  }

  /** `n` calls of `nextScreen` add exactly `n` to the index (there is no upper bound) and keep the answers. */
  lemma {:induction false} RunOnlyNextMoves(s: OnboardingState, n: nat)
    ensures Run(s, seq(n, _ => NextAction)).currentScreenIndex == s.currentScreenIndex + n
    ensures Run(s, seq(n, _ => NextAction)).name == s.name
    ensures Run(s, seq(n, _ => NextAction)).gender == s.gender && Run(s, seq(n, _ => NextAction)).goal == s.goal
    decreases n
  {
    if n > 0 {
      var acts := seq(n, _ => NextAction);
      assert acts[1..] == seq(n - 1, _ => NextAction);
      RunOnlyNextMoves(NextScreen(s), n - 1);
    }
  }
}
