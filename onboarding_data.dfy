/**
 * The onboarding data context (hooks/useOnboardingData.tsx): a dictionary of
 * answers, merged by `updateData` with an object spread, and a hook that
 * refuses to run outside its provider.
 */
module OnboardingData {
  import opened Outcomes

  /** `updateData(newData)`: `{ ...prev, ...newData }`, the right-biased union. */
  function UpdateData<V>(prev: map<string, V>, newData: map<string, V>): (next: map<string, V>)
    ensures next.Keys == prev.Keys + newData.Keys
    ensures forall k :: k in newData ==> next[k] == newData[k]
    ensures forall k :: k in prev && k !in newData ==> next[k] == prev[k]
  {
    prev + newData
  }

  /** Merging nothing changes nothing. */
  lemma UpdateWithNothing<V>(d: map<string, V>)
    ensures UpdateData(d, map[]) == d
  {
  }

  /** Merging the same answers twice is merging them once. */
  lemma UpdateIdempotent<V>(d: map<string, V>, n: map<string, V>)
    ensures UpdateData(UpdateData(d, n), n) == UpdateData(d, n)
  {
  }

  /** Two merges in a row are one merge of the second over the first. */
  lemma UpdateTwice<V>(d: map<string, V>, a: map<string, V>, b: map<string, V>)
    ensures UpdateData(UpdateData(d, a), b) == UpdateData(d, UpdateData(a, b))
  {
  }

  /** The provider's data after the given `updateData` calls, starting from `{}`. */
  function DataAfter<V>(updates: seq<map<string, V>>): map<string, V>
    decreases |updates|
  {
    if updates == [] then map[] else UpdateData(DataAfter(updates[..|updates| - 1]), updates[|updates| - 1])
  }

  /**
   * After any sequence of updates from the empty map, a key is present exactly
   * when some update carried it, and it holds the value of the LAST update
   * that carried it.
   */
  lemma {:induction false} LastUpdateWins<V>(updates: seq<map<string, V>>, key: string, j: nat)
    requires j < |updates| && key in updates[j]
    requires forall l :: j < l < |updates| ==> key !in updates[l]
    ensures key in DataAfter(updates) && DataAfter(updates)[key] == updates[j][key]
    decreases |updates|
  {
    var last := |updates| - 1;
    if j < last {
      LastUpdateWins(updates[..last], key, j);
    }
  }

  /** A key the updates never carried is absent from the data. */
  lemma {:induction false} UntouchedKeyAbsent<V>(updates: seq<map<string, V>>, key: string)
    requires forall l :: 0 <= l < |updates| ==> key !in updates[l]
    ensures key !in DataAfter(updates)
    decreases |updates|
  {
    if updates != [] {
      UntouchedKeyAbsent(updates[..|updates| - 1], key);
    }
  }

  /** What the provider hands to its children. */
  datatype Context<V> = Context(data: map<string, V>)

  const MissingProviderError := "useOnboardingData must be used within OnboardingDataProvider"

  /** `useOnboardingData`: the context when a provider is present, else the thrown error. */
  function UseOnboardingData<V>(context: Option<Context<V>>): (r: Result<Context<V>, string>)
    ensures r.Failure? <==> context.None?
    ensures context.Some? ==> r == Success(context.value)
    ensures r.Failure? ==> r.error == MissingProviderError
  {
    match context
    case None => Failure(MissingProviderError)
    case Some(c) => Success(c)
  }
}
