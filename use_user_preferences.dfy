/** The `useUserPreferences` hook's religion: a state that starts as "hinduism" and takes the loaded
    preferences' primary religion once they arrive. */
module PreferencesHook {
  import opened Wrappers
  import opened Schema

  /** The religion every page reading the hook starts from, before (or without) preferences. */
  const InitialReligion := "hinduism"

  /** `primaryReligion` as the hook returns it: the loaded row's religion, or the initial state while
      nothing has loaded (no user, a pending or failed request). */
  function PrimaryReligion(loaded: Option<UserPreferences>): (r: string)
    ensures loaded.None? ==> r == InitialReligion
    ensures loaded.Some? ==> r == loaded.value.primaryReligion
  {
    if loaded.Some? then loaded.value.primaryReligion else InitialReligion
  }
}
