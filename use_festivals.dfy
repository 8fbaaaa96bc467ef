/** The festival lookups the client offers over the list of all festivals (empty until it loads). */
module FestivalLookups {
  import opened Wrappers
  import opened Seqs
  import opened Text
  import opened Schema
  import opened Storage

  function WithId(id: int): Festival -> bool
  {
    (f: Festival) => f.id == id
  }

  /** `getFestivalById`: the first festival with that id, or none (also before the list loads). */
  function GetFestivalById(allFestivals: Option<seq<Festival>>, id: int): (r: Option<Festival>)
    ensures r.Some? ==> allFestivals.Some? && r.value.id == id && r.value in allFestivals.value
    ensures r.None? <==> allFestivals.None? || forall i :: 0 <= i < |allFestivals.value| ==> allFestivals.value[i].id != id
    ensures r.Some? ==> allFestivals.Some? && exists i :: IsFirstIndex(allFestivals.value, WithId(id), i) && allFestivals.value[i] == r.value
  {
    var all := allFestivals.GetOr([]);
    var r := Find(all, WithId(id));
    if r.Some? then
      FindSound(all, WithId(id));
      r
    else r
  }

  /** `getFestivalsByReligion`: the festivals of that religion ignoring letter case, in order. */
  function GetFestivalsByReligion(allFestivals: Option<seq<Festival>>, religion: string): (r: seq<Festival>)
    ensures allFestivals.None? ==> r == []
    ensures allFestivals.Some? ==> IsSubsequence(r, allFestivals.value)
    ensures forall f :: f in r <==> allFestivals.Some? && f in allFestivals.value && EqualsIgnoringCase(f.religion, religion)
  {
    Filter(allFestivals.GetOr([]), FestivalOfReligion(religion))
  }

  /** Religions differing only in letter case give the same festivals. */
  lemma ReligionLookupIgnoresCase(allFestivals: Option<seq<Festival>>, a: string, b: string)
    requires EqualsIgnoringCase(a, b)
    ensures GetFestivalsByReligion(allFestivals, a) == GetFestivalsByReligion(allFestivals, b)
  {
    FilterExt(allFestivals.GetOr([]), FestivalOfReligion(a), FestivalOfReligion(b));
  }

  /** Over the list the server keeps, the client's religion lookup agrees with the server's own. */
  lemma ReligionLookupAgreesWithServer(m: MemStorage, religion: string)
    requires m.Valid()
    ensures GetFestivalsByReligion(Some(m.GetAllFestivals()), religion) == m.GetFestivalsByReligion(religion)
  {
  }
}
