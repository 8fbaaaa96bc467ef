/** The calendar page: the religion filter, the highlighted dates, the festivals of the selected day,
    and the selection a `festivalId` query parameter makes. Days are UTC day numbers, the day an
    ISO timestamp's `YYYY-MM-DD` part names. */
module CalendarPage {
  import opened Wrappers
  import opened Seqs
  import opened Text
  import opened Schema
  import opened UpcomingFestivalsCard

  // ---------------------------------------------------------------------------------------------
  // The festivalId query parameter

  /** The value of the first `key=value` pair (or bare `key`) among `&`-separated pairs. */
  function ParamIn(pairs: seq<string>, key: string): (r: Option<string>)
    ensures r.Some? ==> exists i :: 0 <= i < |pairs| && (pairs[i] == key || pairs[i] == key + "=" + r.value)
  {
    if pairs == [] then None
    else if key + "=" <= pairs[0] then
      assert pairs[0] == key + "=" + pairs[0][|key| + 1..];
      Some(pairs[0][|key| + 1..])
    else if pairs[0] == key then Some("")
    else
      var r := ParamIn(pairs[1..], key);
      if r.Some? then
        var i :| 0 <= i < |pairs[1..]| && (pairs[1..][i] == key || pairs[1..][i] == key + "=" + r.value);
        assert pairs[i + 1] == pairs[1..][i];
        r
      else None
  }

  /** `new URLSearchParams(location.split("?")[1]).get(key)`: nothing when there is no query. */
  function QueryParam(location: string, key: string): (r: Option<string>)
    ensures '?' !in location ==> r.None?
  {
    var parts := Split(location, '?');
    if |parts| < 2 then None else ParamIn(Split(parts[1], '&'), key)
  }

  function FestivalParam(location: string): Option<string>
  {
    QueryParam(location, "festivalId")
  }

  /** JavaScript truthiness of a string that may be `null`: present and not empty. */
  predicate Truthy(s: Option<string>)
  {
    s.Some? && s.value != ""
  }

  /** A card's link carries that card's id, and `parseInt` reads it back, when the whole link
      reaches the parameter's parsing (see `IntendedLocation`). */
  lemma CardLinkParam(festivalId: int)
    ensures FestivalParam(CardLink(festivalId)) == Some(IntToString(festivalId))
    ensures Truthy(FestivalParam(CardLink(festivalId)))
    ensures ParseInt(FestivalParam(CardLink(festivalId)).value) == Some(festivalId)
  {
    var n := IntToString(festivalId);
    var b := "festivalId=" + n;
    CardLinkQuery(festivalId);
    assert b == "festivalId" + "=" + n;
    ParamInFirst([b], "festivalId", n);
    assert FestivalParam(CardLink(festivalId)) == ParamIn([b], "festivalId");
    ParseIntOfIntToString(festivalId);
  }

  /** A first pair `key=value` gives `value`. */
  lemma ParamInFirst(pairs: seq<string>, key: string, value: string)
    requires pairs != [] && pairs[0] == key + "=" + value
    ensures ParamIn(pairs, key) == Some(value)
  {
    assert key + "=" <= pairs[0];
    assert pairs[0][|key| + 1..] == value;
  }

  /** A card's link has one query, made of the single pair `festivalId=<id>`. */
  lemma CardLinkQuery(festivalId: int)
    ensures Split(CardLink(festivalId), '?') == ["/calendar", "festivalId=" + IntToString(festivalId)]
    ensures Split("festivalId=" + IntToString(festivalId), '&') == ["festivalId=" + IntToString(festivalId)]
  {
    var n := IntToString(festivalId);
    var b := "festivalId=" + n;
    IdHasNoQuerySeparators(festivalId);
    assert CardLink(festivalId) == "/calendar" + ['?'] + b;
    SplitAroundSeparator("/calendar", b, '?');
    SplitWithoutSeparator(b, '&');
  }

  lemma IdHasNoQuerySeparators(festivalId: int)
    ensures var b := "festivalId=" + IntToString(festivalId); '?' !in b && '&' !in b
  {
    var n := IntToString(festivalId);
    var b := "festivalId=" + n;
    IntToStringChars(festivalId);
    forall i | 0 <= i < |b| ensures b[i] != '?' && b[i] != '&' {
      if i >= 11 {
        assert b[i] == n[i - 11];
      }
    }
  }

  // ---------------------------------------------------------------------------------------------
  // The location the parameter is read from

  /** wouter's `useLocation()[0]`: the path of the current URL, without its query. */
  function RouterLocation(url: string): (path: string)
    ensures '?' !in path
  {
    Split(url, '?')[0]
  }

  /** `window.location.search`: the URL from its first '?' on, or "" when it has none. */
  function SearchOf(url: string): (search: string)
    ensures search == [] || search[0] == '?'
    ensures |search| <= |url|
  {
    if url == [] then [] else if url[0] == '?' then url else SearchOf(url[1..])
  }

  /** As written, the page reads `festivalId` from the router's location, which never holds a
      query: the parameter is missing whatever URL was opened. */
  lemma PageParamAlwaysMissing(url: string)
    ensures FestivalParam(RouterLocation(url)).None?
  {
  }

  /** So, as written, following a card's link selects no festival, whichever festivals exist. */
  lemma CardLinkSelectsNothing(all: seq<Festival>, festivalId: int)
    ensures RouterLocation(CardLink(festivalId)) == "/calendar"
    ensures Selected(FestivalParam(RouterLocation(CardLink(festivalId))), Some(all)).None?
  {
    CardLinkQuery(festivalId);
    PageParamAlwaysMissing(CardLink(festivalId));
  }

  /** The location the page evidently means to split: the path followed by the search string
      (`location + window.location.search`). */
  function IntendedLocation(url: string): string
  {
    RouterLocation(url) + SearchOf(url)
  }

  /** The path and the search string together are the whole URL. */
  lemma {:induction false} IntendedLocationIsUrl(url: string)
    ensures IntendedLocation(url) == url
    decreases |url|
  {
    if url != [] {
      var c, rest := url[0], url[1..];
      assert url == [c] + rest;
      SplitHead(c, rest, '?');
      if c != '?' {
        IntendedLocationIsUrl(rest);
      }
    }
  }

  // ---------------------------------------------------------------------------------------------
  // Filters

  /** The religion filter: "all" and "" pass everything, any other selection requires the same
      religion ignoring letter case. */
  predicate PassesReligion(selected: string, f: Festival)
  {
    selected == "all" || selected == "" || Lower(f.religion) == Lower(selected)
  }

  function ReligionFilter(selected: string): Festival -> bool
  {
    (f: Festival) => PassesReligion(selected, f)
  }

  function OnUtcDayOf(date: Timestamp, selected: string): Festival -> bool
  {
    (f: Festival) => DayOf(f.date) == DayOf(date) && PassesReligion(selected, f)
  }

  function Dates(fs: seq<Festival>): (r: seq<Timestamp>)
    ensures |r| == |fs|
    ensures forall i :: 0 <= i < |fs| ==> r[i] == fs[i].date
  {
    if fs == [] then [] else [fs[0].date] + Dates(fs[1..])
  }

  /** The dates the calendar highlights: those of the festivals that pass the religion filter. */
  function FestivalDates(all: Option<seq<Festival>>, selected: string): (r: seq<Timestamp>)
    ensures all.None? ==> r == []
    ensures all.Some? ==> r == Dates(Filter(all.value, ReligionFilter(selected)))
  {
    if all.None? then [] else Dates(Filter(all.value, ReligionFilter(selected)))
  }

  /** `getFestivalsForDate`. */
  function FestivalsForDate(all: Option<seq<Festival>>, date: Timestamp, selected: string): (r: seq<Festival>)
    ensures all.None? ==> r == []
    ensures all.Some? ==> IsSubsequence(r, all.value)
  {
    if all.None? then [] else Filter(all.value, OnUtcDayOf(date, selected))
  }

  /** A festival is listed for a date exactly when it falls on that UTC day and passes the filter. */
  lemma FestivalsForDateExact(all: Option<seq<Festival>>, date: Timestamp, selected: string, f: Festival)
    ensures f in FestivalsForDate(all, date, selected) <==>
      all.Some? && f in all.value && DayOf(f.date) == DayOf(date) && PassesReligion(selected, f)
  {
  }

  /** The selections "all" and "" keep every festival of the day. */
  lemma AllReligionsKeepsDay(all: seq<Festival>, date: Timestamp, selected: string, f: Festival)
    requires selected == "all" || selected == ""
    ensures f in FestivalsForDate(Some(all), date, selected) <==> f in all && DayOf(f.date) == DayOf(date)
  {
  }

  /** Every festival listed for a day is also highlighted on the calendar. */
  lemma ListedFestivalsAreHighlighted(all: Option<seq<Festival>>, date: Timestamp, selected: string, f: Festival)
    requires f in FestivalsForDate(all, date, selected)
    ensures f.date in FestivalDates(all, selected)
  {
    var kept := Filter(all.value, ReligionFilter(selected));
    assert f in kept;
    var i :| 0 <= i < |kept| && kept[i] == f;
    assert Dates(kept)[i] == f.date;
  }

  /** A festival is listed on its own day once the filter is set to its lowered religion. */
  lemma SelectedFestivalListed(all: seq<Festival>, f: Festival)
    requires f in all
    ensures f in FestivalsForDate(Some(all), f.date, Lower(f.religion))
  {
    LowerIdempotent(f.religion);
  }

  /** `f.id === parseInt(param)`: `NaN` equals no id. */
  function IdMatches(n: Option<int>): Festival -> bool
  {
    (f: Festival) => n.Some? && f.id == n.value
  }

  /** The festival a `festivalId` parameter picks: the first one whose id `parseInt` reads from it,
      provided the parameter is truthy and the festivals have loaded. */
  function Selected(festivalParam: Option<string>, all: Option<seq<Festival>>): Option<Festival>
  {
    if Truthy(festivalParam) && all.Some? then Find(all.value, IdMatches(ParseInt(festivalParam.value))) else None
  }

  /** A "0x" parameter names the festival whose id is its hexadecimal value, as `parseInt` without a
      radix reads it. */
  lemma HexParamSelects(s: string, all: seq<Festival>)
    requires s != [] && AllHexDigits(s)
    ensures Selected(Some("0x" + s), Some(all)) == Find(all, IdMatches(Some(ParseHex(s) as int)))
  {
    ParseIntOfHex(s);
  }

  // ---------------------------------------------------------------------------------------------
  // The page's state and its effects

  class CalendarState {
    var selectedDate: Option<Timestamp>
    var selectedReligion: string
    var selectedFestival: Option<Festival>
    var dateFestivals: seq<Festival>

    /** Today selected, every religion shown, no festival selected. */
    constructor(now: Timestamp)
      ensures selectedDate == Some(now) && selectedReligion == "all"
      ensures selectedFestival.None? && dateFestivals == []
    {
      selectedDate := Some(now);
      selectedReligion := "all";
      selectedFestival := None;
      dateFestivals := [];
    }

    /** The preset from `useUserPreferences`, whose religion is "hinduism" until the preferences load
        (`PreferencesHook.PrimaryReligion`); a link to a festival takes precedence over it. */
    method PresetReligion(primaryReligion: string, festivalParam: Option<string>)
      modifies this`selectedReligion
      ensures primaryReligion != "" && !Truthy(festivalParam) ==> selectedReligion == Lower(primaryReligion)
      ensures !(primaryReligion != "" && !Truthy(festivalParam)) ==> selectedReligion == old(selectedReligion)
    {
      if primaryReligion != "" && !Truthy(festivalParam) {
        selectedReligion := Lower(primaryReligion);
      }
    }

    /** The effect that recomputes the selected day's festivals. */
    method RefreshDateFestivals(all: Option<seq<Festival>>)
      modifies this`dateFestivals
      ensures selectedDate.Some? ==> dateFestivals == FestivalsForDate(all, selectedDate.value, selectedReligion)
      ensures selectedDate.None? ==> dateFestivals == old(dateFestivals)
    {
      if selectedDate.Some? {
        dateFestivals := FestivalsForDate(all, selectedDate.value, selectedReligion);
      }
    }

    /** The effect of a `festivalId` parameter: the first festival with that id is selected, with its
        date and its lowered religion; an unknown or unreadable id changes nothing. */
    method SelectFromParam(festivalParam: Option<string>, all: Option<seq<Festival>>)
      modifies this`selectedFestival, this`selectedDate, this`selectedReligion
      ensures var found := Selected(festivalParam, all);
        found.None? ==> selectedFestival == old(selectedFestival) && selectedDate == old(selectedDate) && selectedReligion == old(selectedReligion)
      ensures var found := Selected(festivalParam, all);
        found.Some? ==> selectedFestival == found && selectedDate == Some(found.value.date) && selectedReligion == Lower(found.value.religion)
    {
      if Truthy(festivalParam) && all.Some? {
        var festival := Find(all.value, IdMatches(ParseInt(festivalParam.value)));
        if festival.Some? {
          selectedFestival := festival;
          selectedDate := Some(festival.value.date);
          selectedReligion := Lower(festival.value.religion);
        }
      }
    }
  }

  /** With the parameter read from the intended location, following a card's link selects the first
      festival with that card's id, when there is one, and then lists it on its day. */
  lemma CardLinkSelects(all: seq<Festival>, festivalId: int)
    ensures var param := FestivalParam(IntendedLocation(CardLink(festivalId)));
      Truthy(param) && (Selected(param, Some(all)).None? <==> forall i :: 0 <= i < |all| ==> all[i].id != festivalId)
    ensures var found := Selected(FestivalParam(IntendedLocation(CardLink(festivalId))), Some(all));
      found.Some? ==> found.value.id == festivalId && found.value in FestivalsForDate(Some(all), found.value.date, Lower(found.value.religion))
  {
    IntendedLocationIsUrl(CardLink(festivalId));
    CardLinkParam(festivalId);
    var found := Find(all, IdMatches(Some(festivalId)));
    if found.Some? {
      FindSound(all, IdMatches(Some(festivalId)));
      SelectedFestivalListed(all, found.value);
    }
  }
}
