/** The preferences page: the profile form, the preferences form with its two check-box lists, and
    the body it puts to the preferences route. */
module PreferencesPage {
  import opened Wrappers
  import opened Schema
  import opened MembershipToggle
  import opened Routes

  /** The values of the preferences form (the nine columns the form schema picks). */
  datatype PreferenceValues = PreferenceValues(
    primaryReligion: string,
    secondaryInterests: Option<seq<string>>,
    languages: Option<seq<string>>,
    festivalReminderDays: Option<int>,
    notifyFestivals: Option<bool>,
    notifyDailyContent: Option<bool>,
    notifyNewContent: Option<bool>,
    notifyCommunityUpdates: Option<bool>,
    notifyEmails: Option<bool>)

  /** The form's defaults before any preferences load. */
  function DefaultValues(): (v: PreferenceValues)
    ensures v.primaryReligion == "hinduism" && v.secondaryInterests == Some([]) && v.languages == Some(["english"])
    ensures v.festivalReminderDays == Some(3)
    ensures v.notifyFestivals == Some(true) && v.notifyDailyContent == Some(true) && v.notifyNewContent == Some(true)
    ensures v.notifyCommunityUpdates == Some(false) && v.notifyEmails == Some(true)
  {
    PreferenceValues("hinduism", Some([]), Some(["english"]), Some(3), Some(true), Some(true), Some(true), Some(false), Some(true))
  }

  /** The form values once the user's stored preferences arrive: each column copied, with the two
      lists falling back to none and to English. */
  function LoadedValues(p: UserPreferences): (v: PreferenceValues)
    ensures v.primaryReligion == p.primaryReligion
    ensures v.secondaryInterests == Some(p.secondaryInterests.GetOr([]))
    ensures v.languages == Some(p.languages.GetOr(["english"]))
    ensures v.festivalReminderDays == p.festivalReminderDays
    ensures v.notifyFestivals == p.notifyFestivals && v.notifyDailyContent == p.notifyDailyContent
    ensures v.notifyNewContent == p.notifyNewContent
    ensures v.notifyCommunityUpdates == p.notifyCommunityUpdates && v.notifyEmails == p.notifyEmails
  {
    PreferenceValues(p.primaryReligion, Some(p.secondaryInterests.GetOr([])), Some(p.languages.GetOr(["english"])),
      p.festivalReminderDays, p.notifyFestivals, p.notifyDailyContent, p.notifyNewContent,
      p.notifyCommunityUpdates, p.notifyEmails)
  }

  /** What submitting the preferences form puts to the route: the form's values, with both lists
      replaced by the check-box selections; `null` columns are sent as `null`. */
  function PreferencesPayload(v: PreferenceValues, interests: seq<string>, languages: seq<string>): (b: PreferencesBody)
    ensures b.primaryReligion == Some(v.primaryReligion)
    ensures b.secondaryInterests == Some(Some(interests)) && b.languages == Some(Some(languages))
    ensures b.festivalReminderDays == Some(v.festivalReminderDays)
    ensures b.notifyFestivals == Some(v.notifyFestivals) && b.notifyDailyContent == Some(v.notifyDailyContent)
    ensures b.notifyNewContent == Some(v.notifyNewContent)
    ensures b.notifyCommunityUpdates == Some(v.notifyCommunityUpdates) && b.notifyEmails == Some(v.notifyEmails)
  {
    PreferencesBody(Some(v.primaryReligion), Some(Some(interests)), Some(Some(languages)),
      Some(v.festivalReminderDays), Some(v.notifyFestivals), Some(v.notifyDailyContent),
      Some(v.notifyNewContent), Some(v.notifyCommunityUpdates), Some(v.notifyEmails))
  }

  /** The server always accepts the page's body, and what it stores for the two lists is exactly the
      selections, whether it creates the row or updates it. */
  lemma PayloadStoresSelections(v: PreferenceValues, interests: seq<string>, languages: seq<string>, userId: int)
    ensures ParsePreferences(PreferencesPayload(v, interests, languages)).Some?
    ensures var form := ParsePreferences(PreferencesPayload(v, interests, languages)).value;
      && FormInsert(userId, form).secondaryInterests == Some(interests)
      && FormInsert(userId, form).languages == Some(languages)
      && FormPatch(form).secondaryInterests == Some(Some(interests))
      && FormPatch(form).languages == Some(Some(languages))
  {
  }

  /** Saving the form unchanged right after loading a row whose lists are both set writes that row back
      as it was, apart from its update time. */
  lemma LoadThenSaveKeepsRow(p: UserPreferences, now: Timestamp)
    requires p.secondaryInterests.Some? && p.languages.Some?
    ensures var body := PreferencesPayload(LoadedValues(p), p.secondaryInterests.value, p.languages.value);
      && ParsePreferences(body).Some?
      && PatchPreferencesAt(p, FormPatch(ParsePreferences(body).value), now) == p.(updatedAt := now)
  {
  }

  /** Loading a row with no languages and saving at once stores English, lower case, as its language. */
  lemma LoadThenSaveFillsLanguage(p: UserPreferences, now: Timestamp)
    requires p.languages.None?
    ensures var v := LoadedValues(p);
      var body := PreferencesPayload(v, v.secondaryInterests.value, v.languages.value);
      PatchPreferencesAt(p, FormPatch(ParsePreferences(body).value), now).languages == Some(["english"])
  {
  }

  /** The profile form's initial names: the user's, or empty. */
  function ProfileDefaults(user: User): (names: (string, string))
    ensures names.0 == user.firstName.GetOr("") && names.1 == user.lastName.GetOr("")
  {
    (user.firstName.GetOr(""), user.lastName.GetOr(""))
  }

  /** The profile form schema: both names are required. */
  function ValidateProfile(firstName: string, lastName: string): (r: Option<(string, string)>)
    ensures r.Some? <==> |firstName| >= 1 && |lastName| >= 1
    ensures r.Some? ==> r.value == (firstName, lastName)
  {
    if |firstName| >= 1 && |lastName| >= 1 then Some((firstName, lastName)) else None
  }

  /** The page's own state: the form values and the two selections the check boxes edit. */
  class PreferencesEditor {
    var values: PreferenceValues
    var selectedInterests: seq<string>
    var selectedLanguages: seq<string>

    /** Both selections start empty (they are not the form's defaults until preferences load). */
    constructor()
      ensures values == DefaultValues()
      ensures selectedInterests == [] && selectedLanguages == []
    {
      values := DefaultValues();
      selectedInterests := [];
      selectedLanguages := [];
    }

    /** The effect that runs when the stored preferences arrive. */
    method Load(p: UserPreferences)
      modifies this
      ensures values == LoadedValues(p)
      ensures selectedInterests == p.secondaryInterests.GetOr([])
      ensures selectedLanguages == p.languages.GetOr(["english"])
    {
      values := LoadedValues(p);
      selectedInterests := p.secondaryInterests.GetOr([]);
      selectedLanguages := p.languages.GetOr(["english"]);
    }

    /** Checking or unchecking one interest. */
    method ToggleInterest(interest: string)
      modifies this`selectedInterests
      ensures selectedInterests == Toggle(old(selectedInterests), interest)
      ensures interest in selectedInterests <==> interest !in old(selectedInterests)
      ensures NoDuplicates(old(selectedInterests)) ==> NoDuplicates(selectedInterests)
    {
      ToggleFlips(selectedInterests, interest);
      if NoDuplicates(selectedInterests) {
        ToggleKeepsNoDuplicates(selectedInterests, interest);
      }
      selectedInterests := Toggle(selectedInterests, interest);
    }

    /** Checking or unchecking one language. */
    method ToggleLanguage(language: string)
      modifies this`selectedLanguages
      ensures selectedLanguages == Toggle(old(selectedLanguages), language)
      ensures language in selectedLanguages <==> language !in old(selectedLanguages)
      ensures NoDuplicates(old(selectedLanguages)) ==> NoDuplicates(selectedLanguages)
    {
      ToggleFlips(selectedLanguages, language);
      if NoDuplicates(selectedLanguages) {
        ToggleKeepsNoDuplicates(selectedLanguages, language);
      }
      selectedLanguages := Toggle(selectedLanguages, language);
    }

    /** The body the submit handler puts to the preferences route. */
    method Submit() returns (b: PreferencesBody)
      ensures b == PreferencesPayload(values, selectedInterests, selectedLanguages)
      ensures b.secondaryInterests == Some(Some(selectedInterests)) && b.languages == Some(Some(selectedLanguages))
    {
      b := PreferencesPayload(values, selectedInterests, selectedLanguages);
    }
  }
}
