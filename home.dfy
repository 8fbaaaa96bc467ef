/** The home page's choice of the festival to feature today. */
module HomePage {
  import opened Wrappers
  import opened Seqs
  import opened Text
  import opened Schema

  /** `preferences?.primaryReligion?.toLowerCase() === festival.religion.toLowerCase()`. */
  function OfUserReligion(primaryReligion: Option<string>): Festival -> bool
  {
    (f: Festival) => primaryReligion.Some? && Lower(primaryReligion.value) == Lower(f.religion)
  }

  /** The first of today's festivals of the user's religion, else the first of today's festivals,
      else none. */
  function FeaturedFestival(today: Option<seq<Festival>>, primaryReligion: Option<string>): (r: Option<Festival>)
    ensures r.None? <==> today.None? || today.value == []
    ensures r.Some? ==> r.value in today.value
    ensures today.Some? && Find(today.value, OfUserReligion(primaryReligion)).Some? ==>
      r == Find(today.value, OfUserReligion(primaryReligion))
    ensures today.Some? && today.value != [] && Find(today.value, OfUserReligion(primaryReligion)).None? ==>
      r == Some(today.value[0])
  {
    if today.None? then None
    else
      var userFestival := Find(today.value, OfUserReligion(primaryReligion));
      if userFestival.Some? then
        FindSound(today.value, OfUserReligion(primaryReligion));
        userFestival
      else if |today.value| > 0 then Some(today.value[0])
      else None
  }

  /** The featured festival is of the user's religion whenever any of today's festivals is, and no
      festival of that religion comes before it in the list. */
  lemma FeaturedPrefersReligion(today: seq<Festival>, primaryReligion: string, i: int)
    requires 0 <= i < |today| && EqualsIgnoringCase(today[i].religion, primaryReligion)
    ensures var r := FeaturedFestival(Some(today), Some(primaryReligion));
      r.Some? && EqualsIgnoringCase(r.value.religion, primaryReligion)
      && (exists k :: 0 <= k <= i && today[k] == r.value
            && forall j :: 0 <= j < k ==> !EqualsIgnoringCase(today[j].religion, primaryReligion))
  {
    var p := OfUserReligion(Some(primaryReligion));
    assert p(today[i]);
    var r := Find(today, p);
    var k :| IsFirstIndex(today, p, k) && today[k] == r.value;
  }

  /** Before the preferences load, the first of today's festivals is featured. */
  lemma WithoutPreferencesFirstIsFeatured(today: seq<Festival>)
    requires today != []
    ensures FeaturedFestival(Some(today), None) == Some(today[0])
  {
  }

  /** `Namaste, {user?.firstName || "Friend"}`. */
  function Greeting(firstName: Option<string>): (g: string)
    ensures firstName.Some? && firstName.value != "" ==> g == "Namaste, " + firstName.value
    ensures firstName.None? || firstName.value == "" ==> g == "Namaste, Friend"
  {
    "Namaste, " + (if firstName.Some? && firstName.value != "" then firstName.value else "Friend")
  }
}
