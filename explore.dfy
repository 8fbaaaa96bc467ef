/** The explore page: festivals and bhajans narrowed by a search query, by the user's religion and
    by the selected content type. */
module ExplorePage {
  import opened Wrappers
  import opened Seqs
  import opened Text
  import opened Schema
  import opened PreferencesHook

  /** `x.religion.toLowerCase() === primaryReligion?.toLowerCase()`. The page takes `primaryReligion`
      from `useUserPreferences`, which always holds a string: "hinduism" until the preferences load. */
  predicate ReligionMatches(religion: string, primaryReligion: string)
  {
    Lower(religion) == Lower(primaryReligion)
  }

  /** The query (already lowered) is empty, or one of the lowered texts contains it. */
  predicate FestivalMatchesQuery(f: Festival, query: string)
  {
    query == "" || Contains(Lower(f.name), query) || Contains(Lower(f.description), query)
  }

  predicate BhajanMatchesQuery(b: Bhajan, query: string)
  {
    query == "" || Contains(Lower(b.title), query)
  }

  function KeepFestival(query: string, primaryReligion: string): Festival -> bool
  {
    (f: Festival) => FestivalMatchesQuery(f, query) && ReligionMatches(f.religion, primaryReligion)
  }

  function KeepBhajan(query: string, primaryReligion: string): Bhajan -> bool
  {
    (b: Bhajan) => BhajanMatchesQuery(b, query) && ReligionMatches(b.religion, primaryReligion)
  }

  datatype ExploreContent = ExploreContent(festivals: seq<Festival>, bhajans: seq<Bhajan>)

  /** `filteredContent()`: the search text is lowered once; missing data gives empty lists; the
      "bhajans" type hides the festivals. */
  function FilteredContent(searchQuery: string, selectedType: string, primaryReligion: string,
                           allFestivals: Option<seq<Festival>>, bhajans: Option<seq<Bhajan>>): (r: ExploreContent)
    ensures allFestivals.None? || selectedType == "bhajans" ==> r.festivals == []
    ensures bhajans.None? ==> r.bhajans == []
    ensures allFestivals.Some? ==> IsSubsequence(r.festivals, allFestivals.value)
    ensures bhajans.Some? ==> IsSubsequence(r.bhajans, bhajans.value)
    ensures forall f :: f in r.festivals <==>
      selectedType != "bhajans" && allFestivals.Some? && f in allFestivals.value
      && FestivalMatchesQuery(f, Lower(searchQuery)) && ReligionMatches(f.religion, primaryReligion)
    ensures forall b :: b in r.bhajans <==>
      bhajans.Some? && b in bhajans.value && BhajanMatchesQuery(b, Lower(searchQuery)) && ReligionMatches(b.religion, primaryReligion)
  {
    var query := Lower(searchQuery);
    var festivalList := if allFestivals.Some? then Filter(allFestivals.value, KeepFestival(query, primaryReligion)) else [];
    var bhajanList := if bhajans.Some? then Filter(bhajans.value, KeepBhajan(query, primaryReligion)) else [];
    ExploreContent(if selectedType == "bhajans" then [] else festivalList, bhajanList)
  }

  /** A query in capitals finds what the same query in small letters finds. */
  lemma QueryIgnoresCase(a: string, b: string, selectedType: string, primaryReligion: string,
                         allFestivals: Option<seq<Festival>>, bhajans: Option<seq<Bhajan>>)
    requires Lower(a) == Lower(b)
    ensures FilteredContent(a, selectedType, primaryReligion, allFestivals, bhajans)
         == FilteredContent(b, selectedType, primaryReligion, allFestivals, bhajans)
  {
  }

  /** The type selection never narrows the bhajans. */
  lemma TypeKeepsBhajans(searchQuery: string, t1: string, t2: string, primaryReligion: string,
                         allFestivals: Option<seq<Festival>>, bhajans: Option<seq<Bhajan>>)
    ensures FilteredContent(searchQuery, t1, primaryReligion, allFestivals, bhajans).bhajans
         == FilteredContent(searchQuery, t2, primaryReligion, allFestivals, bhajans).bhajans
  {
  }

  /** An empty query keeps every festival of the user's religion. */
  lemma EmptyQueryKeepsReligion(allFestivals: seq<Festival>, primaryReligion: string, selectedType: string)
    requires selectedType != "bhajans"
    ensures FilteredContent("", selectedType, primaryReligion, Some(allFestivals), None).festivals
         == Filter(allFestivals, (f: Festival) => EqualsIgnoringCase(f.religion, primaryReligion))
  {
    FilterExt(allFestivals, KeepFestival("", primaryReligion), (f: Festival) => EqualsIgnoringCase(f.religion, primaryReligion));
  }

  /** Before the preferences load, and for a user without preferences, the page lists the Hindu
      festivals matching the query. */
  lemma BeforeLoadShowsHindu(allFestivals: seq<Festival>, selectedType: string)
    requires selectedType != "bhajans"
    ensures FilteredContent("", selectedType, PrimaryReligion(None), Some(allFestivals), None).festivals
         == Filter(allFestivals, (f: Festival) => EqualsIgnoringCase(f.religion, "hinduism"))
  {
    EmptyQueryKeepsReligion(allFestivals, PrimaryReligion(None), selectedType);
  }

  /** What the story button does: stop while audio plays, otherwise speak the text. */
  datatype StoryAction = StopPlayback | PlayText(text: string)

  function PlayStory(isPlaying: bool, text: string): (a: StoryAction)
    ensures a.StopPlayback? <==> isPlaying
    ensures a.PlayText? ==> a.text == text
  {
    if isPlaying then StopPlayback else PlayText(text)
  }
}
