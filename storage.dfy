/** The in-memory table store: six insertion-ordered maps from id to row, each with its own id counter,
    and the create, get, update and filter operations over them. */
module Storage {
  import opened Wrappers
  import opened Seqs
  import opened Text
  import opened Schema
  import opened OrderedMaps

  // ---------------------------------------------------------------------------------------------
  // Dates in the server's time zone

  /** `d.setHours(0, 0, 0, 0)` in a time zone `offset` milliseconds ahead of UTC: the first instant of
      the local day `t` falls on. */
  function LocalMidnight(t: Timestamp, offset: int): (r: Timestamp)
    ensures r <= t < r + MillisPerDay
    ensures (r + offset) % MillisPerDay == 0
  {
    DayOf(t + offset) * MillisPerDay - offset
  }

  /** Comparing local midnights is comparing local day numbers. */
  lemma LocalMidnightOrder(a: Timestamp, b: Timestamp, offset: int)
    ensures LocalMidnight(a, offset) == LocalMidnight(b, offset) <==> DayOf(a + offset) == DayOf(b + offset)
    ensures LocalMidnight(a, offset) >= LocalMidnight(b, offset) <==> DayOf(a + offset) >= DayOf(b + offset)
  {
  }

  // ---------------------------------------------------------------------------------------------
  // The selection predicates of the filters

  function UserWithEmail(email: string): User -> bool
  {
    (u: User) => u.email == email
  }

  function UserWithGoogleId(googleId: string): User -> bool
  {
    (u: User) => u.googleId == googleId
  }

  function PreferencesOfUser(userId: int): UserPreferences -> bool
  {
    (p: UserPreferences) => p.userId == userId
  }

  /** The festival falls on the same local day as `target`. */
  function OnLocalDay(target: Timestamp, offset: int): Festival -> bool
  {
    (f: Festival) => LocalMidnight(f.date, offset) == LocalMidnight(target, offset)
  }

  function FestivalOfReligion(religion: string): Festival -> bool
  {
    (f: Festival) => Lower(f.religion) == Lower(religion)
  }

  /** Of the given religion and dated on the local day of `now` or later. */
  function IsUpcoming(religion: string, now: Timestamp, offset: int): Festival -> bool
  {
    (f: Festival) => LocalMidnight(f.date, offset) >= LocalMidnight(now, offset) && Lower(f.religion) == Lower(religion)
  }

  function RitualOfFestival(festivalId: int): Ritual -> bool
  {
    (r: Ritual) => r.festivalId == Some(festivalId)
  }

  function RitualOfReligion(religion: string): Ritual -> bool
  {
    (r: Ritual) => Lower(r.religion) == Lower(religion)
  }

  function BhajanOfFestival(festivalId: int): Bhajan -> bool
  {
    (b: Bhajan) => b.festivalId == Some(festivalId)
  }

  function ContributionOfUser(userId: int): Contribution -> bool
  {
    (c: Contribution) => c.userId == userId
  }

  // ---------------------------------------------------------------------------------------------
  // Stable sort by date (`sort((a, b) => a.date - b.date)`, which is stable)

  ghost predicate SortedByDate(s: seq<Festival>)
  {
    forall i, j :: 0 <= i < j < |s| ==> s[i].date <= s[j].date
  }

  /** Puts `x` before the first element of `t` dated at or after it. */
  function InsertByDate(x: Festival, t: seq<Festival>): (r: seq<Festival>)
    ensures multiset(r) == multiset(t) + multiset{x}
  {
    if t == [] || x.date <= t[0].date then
      [x] + t
    else
      assert t == [t[0]] + t[1..];
      [t[0]] + InsertByDate(x, t[1..])
  }

  /** A festival dated no later than every element of a sorted list can go in front of it. */
  lemma ConsSorted(y: Festival, rest: seq<Festival>)
    requires SortedByDate(rest)
    requires forall z :: z in rest ==> y.date <= z.date
    ensures SortedByDate([y] + rest)
  {
    var r := [y] + rest;
    forall i, j | 0 <= i < j < |r| ensures r[i].date <= r[j].date {
      assert r[j] == rest[j - 1];
      if i == 0 {
        assert rest[j - 1] in rest;
      } else {
        assert r[i] == rest[i - 1];
      }
    }
  }

  /** The head of a sorted list is dated no later than every element of its tail. */
  lemma HeadOfSorted(t: seq<Festival>)
    requires t != [] && SortedByDate(t)
    ensures forall z :: z in t[1..] ==> t[0].date <= z.date
  {
    forall z | z in t[1..] ensures t[0].date <= z.date {
      var k :| 0 <= k < |t[1..]| && t[1..][k] == z;
      assert t[k + 1] == z;
    }
  }

  /** Inserting into a sorted list keeps it sorted. */
  lemma {:induction false} InsertByDateSorted(x: Festival, t: seq<Festival>)
    requires SortedByDate(t)
    ensures SortedByDate(InsertByDate(x, t))
  {
    if t == [] || x.date <= t[0].date {
      if t != [] {
        HeadOfSorted(t);
        assert t == [t[0]] + t[1..];
      }
      ConsSorted(x, t);
    } else {
      var rest := InsertByDate(x, t[1..]);
      InsertByDateSorted(x, t[1..]);
      HeadOfSorted(t);
      forall z | z in rest ensures t[0].date <= z.date {
        assert z in multiset(rest);
        assert z == x || z in multiset(t[1..]);
      }
      ConsSorted(t[0], rest);
    }
  }

  /** Insertion sort: each element is inserted, in turn from the back, into the sorted rest. */
  function SortByDate(s: seq<Festival>): (r: seq<Festival>)
    ensures |r| == |s|
    ensures multiset(r) == multiset(s)
    ensures SortedByDate(r)
  {
    if s == [] then []
    else
      assert s == [s[0]] + s[1..];
      var rest := SortByDate(s[1..]);
      var r := InsertByDate(s[0], rest);
      InsertByDateSorted(s[0], rest);
      assert |r| == |multiset(r)|;
      r
  }

  function OnDate(d: Timestamp): Festival -> bool
  {
    (f: Festival) => f.date == d
  }

  /** Inserting `x` into a sorted list lands it before every element with the same date. */
  lemma {:induction false} InsertByDateOnDate(x: Festival, t: seq<Festival>, d: Timestamp)
    requires SortedByDate(t)
    ensures Filter(InsertByDate(x, t), OnDate(d))
         == if x.date == d then [x] + Filter(t, OnDate(d)) else Filter(t, OnDate(d))
  {
    var r := InsertByDate(x, t);
    if t == [] || x.date <= t[0].date {
      assert r[1..] == t;
    } else {
      var rest := InsertByDate(x, t[1..]);
      assert r[1..] == rest;
      InsertByDateOnDate(x, t[1..], d);
    }
  }

  /** The sort is stable: the festivals sharing a date keep their relative order. */
  lemma {:induction false} SortByDateStable(s: seq<Festival>, d: Timestamp)
    ensures Filter(SortByDate(s), OnDate(d)) == Filter(s, OnDate(d))
  {
    if s != [] {
      SortByDateStable(s[1..], d);
      InsertByDateOnDate(s[0], SortByDate(s[1..]), d);
    }
  }

  /** Sorting an already sorted list changes nothing. */
  lemma {:induction false} SortByDateOfSorted(s: seq<Festival>)
    requires SortedByDate(s)
    ensures SortByDate(s) == s
  {
    if s != [] {
      SortByDateOfSorted(s[1..]);
      var t := s[1..];
      if t != [] {
        assert s[0].date <= t[0].date;
      }
      assert s == [s[0]] + t;
    }
  }

  /** A prefix of a sorted list is sorted and drawn from the list. */
  lemma PrefixOfSorted(r: seq<Festival>, s: seq<Festival>)
    requires r <= s && SortedByDate(s)
    ensures SortedByDate(r)
    ensures forall f :: f in r ==> f in s
  {
    forall f | f in r ensures f in s {
      var i :| 0 <= i < |r| && r[i] == f;
      assert s[i] == f;
    }
  }

  /** Sorting neither adds nor drops festivals. */
  lemma SortByDateMembers(s: seq<Festival>)
    ensures forall f :: f in SortByDate(s) <==> f in s
  {
    var t := SortByDate(s);
    forall f ensures f in t <==> f in s {
      assert f in t <==> f in multiset(t);
      assert f in s <==> f in multiset(s);
    }
  }

  /** Every festival the upcoming filter keeps is of the religion and on or after the local day of `now`. */
  lemma UpcomingMatches(all: seq<Festival>, religion: string, now: Timestamp, offset: int)
    ensures forall f :: f in Filter(all, IsUpcoming(religion, now, offset)) ==>
              f in all && EqualsIgnoringCase(f.religion, religion) && DayOf(f.date + offset) >= DayOf(now + offset)
  {
    forall f | f in Filter(all, IsUpcoming(religion, now, offset))
      ensures f in all && EqualsIgnoringCase(f.religion, religion) && DayOf(f.date + offset) >= DayOf(now + offset)
    {
      assert IsUpcoming(religion, now, offset)(f);
      LocalMidnightOrder(f.date, now, offset);
    }
  }

  /** `festivals.filter(upcoming).sort(byDate).slice(0, limit)`. */
  function Upcoming(all: seq<Festival>, religion: string, limit: int, now: Timestamp, offset: int): (r: seq<Festival>)
    ensures r <= SortByDate(Filter(all, IsUpcoming(religion, now, offset)))
    ensures SortedByDate(r)
    ensures forall f :: f in r ==> f in all && EqualsIgnoringCase(f.religion, religion)
                                    && DayOf(f.date + offset) >= DayOf(now + offset)
    ensures var n := |Filter(all, IsUpcoming(religion, now, offset))|;
              limit >= 0 ==> |r| == if limit <= n then limit else n
    ensures var n := |Filter(all, IsUpcoming(religion, now, offset))|;
              limit < 0 ==> |r| == if n + limit >= 0 then n + limit else 0
    ensures limit >= |all| ==> multiset(r) == multiset(Filter(all, IsUpcoming(religion, now, offset)))
  {
    var r := SliceFromStart(SortByDate(Filter(all, IsUpcoming(religion, now, offset))), limit);
    UpcomingFacts(all, religion, limit, now, offset, r);
    UpcomingWithoutCut(all, religion, limit, now, offset);
    r
  }

  lemma UpcomingFacts(all: seq<Festival>, religion: string, limit: int, now: Timestamp, offset: int, r: seq<Festival>)
    requires r == SliceFromStart(SortByDate(Filter(all, IsUpcoming(religion, now, offset))), limit)
    ensures SortedByDate(r)
    ensures forall f :: f in r ==> f in all && EqualsIgnoringCase(f.religion, religion)
                                    && DayOf(f.date + offset) >= DayOf(now + offset)
  {
    var matching := Filter(all, IsUpcoming(religion, now, offset));
    var sorted := SortByDate(matching);
    PrefixOfSorted(r, sorted);
    SortByDateMembers(matching);
    UpcomingMatches(all, religion, now, offset);
    forall f | f in r
      ensures f in all && EqualsIgnoringCase(f.religion, religion) && DayOf(f.date + offset) >= DayOf(now + offset)
    {
      assert f in sorted;
      assert f in matching;
    }
  }

  /** A limit at least the number of festivals cuts nothing off. */
  lemma UpcomingWithoutCut(all: seq<Festival>, religion: string, limit: int, now: Timestamp, offset: int)
    ensures limit >= |all| ==>
              multiset(SliceFromStart(SortByDate(Filter(all, IsUpcoming(religion, now, offset))), limit))
              == multiset(Filter(all, IsUpcoming(religion, now, offset)))
  {
    if limit >= |all| {
      var matching := Filter(all, IsUpcoming(religion, now, offset));
      var sorted := SortByDate(matching);
      assert |sorted| == |matching| <= |all|;
      assert SliceFromStart(sorted, limit) == sorted;
    }
  }

  // ---------------------------------------------------------------------------------------------
  // Tables

  /** The ids a table holds once `counter - 1` rows were created: 1, 2, ..., counter - 1. */
  function IdsBelow(counter: int): (r: seq<int>)
    requires counter >= 1
    ensures |r| == counter - 1
    ensures forall i :: 0 <= i < |r| ==> r[i] == i + 1
  {
    seq(counter - 1, i => i + 1)
  }

  /** A table holds exactly the ids below its counter, in increasing (= insertion) order. */
  ghost predicate TableValid<V>(t: OrderedMap<V>, counter: int)
  {
    1 <= counter
    && t.keys == IdsBelow(counter)
    && (forall k :: k in t.entries <==> 1 <= k < counter)
  }

  /** A valid table is a well-formed map whose ids are strictly increasing in insertion order. */
  lemma TableValidMap<V>(t: OrderedMap<V>, counter: int)
    requires TableValid(t, counter)
    ensures t.Valid()
    ensures forall i, j :: 0 <= i < j < |t.keys| ==> t.keys[i] < t.keys[j]
    ensures forall k :: k in t.entries ==> k < counter
  {
    forall k | k in t.entries ensures k in t.keys {
      assert t.keys[k - 1] == k;
    }
  }

  /** The counter is a fresh key, and storing a row under it appends the row and keeps the table valid. */
  lemma TableInsert<V>(t: OrderedMap<V>, counter: int, v: V)
    requires TableValid(t, counter)
    ensures counter !in t.entries
    ensures TableValid(t.Set(counter, v), counter + 1)
    ensures t.Set(counter, v).keys == t.keys + [counter]
    ensures t.Set(counter, v).Values() == t.Values() + [v]
  {
    assert counter !in t.keys;
    assert IdsBelow(counter + 1) == IdsBelow(counter) + [counter];
    assert t.Set(counter, v).Values() == t.Values() + [v];
  }

  /** Storing a row under an existing key keeps the table valid and its key order. */
  lemma TableReplace<V>(t: OrderedMap<V>, counter: int, k: int, v: V)
    requires TableValid(t, counter) && k in t.entries
    ensures TableValid(t.Set(k, v), counter)
    ensures t.Set(k, v).keys == t.keys
  {
    assert t.keys[k - 1] == k;
  }

  /** When no value of a table satisfies `p`, no entry does. */
  lemma TableNoMatch<V>(t: OrderedMap<V>, counter: int, p: V -> bool)
    requires TableValid(t, counter)
    requires forall i :: 0 <= i < |t.Values()| ==> !p(t.Values()[i])
    ensures forall k :: k in t.entries ==> !p(t.entries[k])
  {
    forall k | k in t.entries ensures !p(t.entries[k]) {
      assert t.keys[k - 1] == k;
      assert t.Values()[k - 1] == t.entries[k];
    }
  }

  /** The value `Find` picks from a table is stored under some key. */
  lemma TableFoundEntry<V>(t: OrderedMap<V>, counter: int, p: V -> bool)
    requires TableValid(t, counter) && Find(t.Values(), p).Some?
    ensures exists k :: k in t.entries && t.entries[k] == Find(t.Values(), p).value
  {
    var i :| IsFirstIndex(t.Values(), p, i) && t.Values()[i] == Find(t.Values(), p).value;
    assert t.keys[i] in t.entries;
  }

  // ---------------------------------------------------------------------------------------------
  // Sample data loaded by the constructor

  const SampleDiwali := InsertFestival(
    "Diwali",
    "Diwali, the festival of lights, symbolizes the spiritual victory of light over darkness, good over evil, and knowledge over ignorance.",
    "Hinduism", 1699747200000,
    Some("https://images.unsplash.com/photo-1518241353330-0f7941c2d9b5"),
    Some("According to Hindu mythology, Diwali commemorates the return of Lord Rama, his wife Sita, and brother Lakshmana to their kingdom Ayodhya after 14 years of exile and after defeating the demon king Ravana."))

  const SampleGovardhanPuja := InsertFestival(
    "Govardhan Puja",
    "Govardhan Puja is a Hindu festival to worship Govardhan Hill and celebrate the victory of Lord Krishna over Indra.",
    "Hinduism", 1698278400000,
    Some("https://images.unsplash.com/photo-1631265515161-7e561b874ee8"),
    Some("According to Hindu scriptures, Lord Krishna protected the villagers of Vrindavan from a devastating rainstorm sent by the rain god Indra by lifting the Govardhan Hill."))

  const SampleBhaiDooj := InsertFestival(
    "Bhai Dooj",
    "Bhai Dooj is a festival celebrating the bond between brothers and sisters.",
    "Hinduism", 1698537600000,
    Some("https://images.unsplash.com/photo-1598303127949-c3c51f7b7826"),
    Some("It is believed that Goddess Yamuna welcomed her brother Yama, the God of Death, with a tilak ceremony and by preparing a feast for him."))

  const SampleLakshmiAarti := InsertBhajan(
    "Lakshmi Aarti", Some("Traditional aarti for Goddess Lakshmi during Diwali celebrations"),
    "https://www.youtube.com/watch?v=SampleLakshmiAarti", "Traditional", "Hinduism", Some("5:28"), Some(1))

  const SampleOmJaiJagdishHare := InsertBhajan(
    "Om Jai Jagdish Hare", Some("Classical hymn dedicated to Lord Vishnu"),
    "https://www.youtube.com/watch?v=SampleOmJaiJagdishHare", "Classical", "Hinduism", Some("7:12"), Some(1))

  const SampleDiwaliPuja := InsertRitual(
    Some(1), "Diwali Puja Vidhi", "Complete ritual procedure for Diwali Puja",
    "Detailed instructions for performing Diwali Puja at home",
    Some([
      "A small statue or picture of Goddess Lakshmi and Lord Ganesha",
      "A red cloth to place the deities",
      "Incense sticks (agarbatti) and holder",
      "Camphor (kapur) and holder",
      "Ghee lamp or oil lamp with cotton wicks",
      "Gangajal (holy water) or clean water",
      "Roli (kumkum), haldi (turmeric), chandan (sandalwood paste)",
      "Akshat (rice grains mixed with turmeric)",
      "Flowers and garlands",
      "Sweets and fruits for offering (prasad)",
      "Bell (ghanti)",
      "Conch shell (shankh)"]),
    [
      "Begin by cleaning the puja area and taking a bath. Place a red cloth on a raised platform and arrange the idols.",
      "Light the incense sticks and the lamp. Invoke Lord Ganesha first to remove all obstacles.",
      "Offer water, akshata, flowers, and garlands to the deities while chanting their names.",
      "Light the lamp with ghee or oil and offer it to the deities.",
      "Recite the mantras and prayers for Goddess Lakshmi and Lord Ganesha.",
      "Offer sweets and fruits as prasad.",
      "Perform aarti with the lamp."],
    "Hinduism", Some(true), None)

  // ---------------------------------------------------------------------------------------------
  // The store

  class MemStorage {
    var users: OrderedMap<User>
    var preferences: OrderedMap<UserPreferences>
    var festivals: OrderedMap<Festival>
    var rituals: OrderedMap<Ritual>
    var bhajans: OrderedMap<Bhajan>
    var contributions: OrderedMap<Contribution>

    var userIdCounter: int
    var preferencesIdCounter: int
    var festivalIdCounter: int
    var ritualIdCounter: int
    var bhajanIdCounter: int
    var contributionIdCounter: int

    /** Ids start at 1, strictly increase in insertion order and are below the table's counter. */
    ghost predicate Valid()
      reads this
    {
      TableValid(users, userIdCounter)
      && TableValid(preferences, preferencesIdCounter)
      && TableValid(festivals, festivalIdCounter)
      && TableValid(rituals, ritualIdCounter)
      && TableValid(bhajans, bhajanIdCounter)
      && TableValid(contributions, contributionIdCounter)
    }

    /** Empty tables with every counter at 1, then the sample data. */
    constructor (now: Timestamp)
      ensures Valid()
      ensures users == Empty() && preferences == Empty() && contributions == Empty()
      ensures userIdCounter == 1 && preferencesIdCounter == 1 && contributionIdCounter == 1
      ensures festivals.Values() == [NewFestival(SampleDiwali, 1, now),
                                     NewFestival(SampleGovardhanPuja, 2, now),
                                     NewFestival(SampleBhaiDooj, 3, now)]
      ensures festivalIdCounter == 4
      ensures bhajans.Values() == [NewBhajan(SampleLakshmiAarti, 1, now), NewBhajan(SampleOmJaiJagdishHare, 2, now)]
      ensures bhajanIdCounter == 3
      ensures rituals.Values() == [NewRitual(SampleDiwaliPuja, 1, now)]
      ensures ritualIdCounter == 2
    {
      users := Empty();
      preferences := Empty();
      festivals := Empty();
      rituals := Empty();
      bhajans := Empty();
      contributions := Empty();
      userIdCounter := 1;
      preferencesIdCounter := 1;
      festivalIdCounter := 1;
      ritualIdCounter := 1;
      bhajanIdCounter := 1;
      contributionIdCounter := 1;
      new;
      InitializeSampleData(SampleDiwali, SampleGovardhanPuja, SampleBhaiDooj, SampleLakshmiAarti,
        SampleOmJaiJagdishHare, SampleDiwaliPuja, now);
    }

    /** Creates three festivals, then two bhajans and a ritual; the constructor passes the sample rows. */
    method InitializeSampleData(diwali: InsertFestival, govardhan: InsertFestival, bhaiDooj: InsertFestival,
                                lakshmiAarti: InsertBhajan, omJaiJagdish: InsertBhajan, diwaliPuja: InsertRitual,
                                now: Timestamp)
      requires Valid()
      modifies this`festivals, this`festivalIdCounter, this`bhajans, this`bhajanIdCounter, this`rituals, this`ritualIdCounter
      ensures Valid()
      ensures festivals.Values() == old(festivals.Values()) + [
                NewFestival(diwali, old(festivalIdCounter), now),
                NewFestival(govardhan, old(festivalIdCounter) + 1, now),
                NewFestival(bhaiDooj, old(festivalIdCounter) + 2, now)]
      ensures festivalIdCounter == old(festivalIdCounter) + 3
      ensures bhajans.Values() == old(bhajans.Values()) + [
                NewBhajan(lakshmiAarti, old(bhajanIdCounter), now),
                NewBhajan(omJaiJagdish, old(bhajanIdCounter) + 1, now)]
      ensures bhajanIdCounter == old(bhajanIdCounter) + 2
      ensures rituals.Values() == old(rituals.Values()) + [NewRitual(diwaliPuja, old(ritualIdCounter), now)]
      ensures ritualIdCounter == old(ritualIdCounter) + 1
    {
      CreateFestivals(diwali, govardhan, bhaiDooj, now);
      CreateBhajans(lakshmiAarti, omJaiJagdish, now);
      var r1 := CreateRitual(diwaliPuja, now);
    }

    /** Three `createFestival` calls in a row. */
    method CreateFestivals(a: InsertFestival, b: InsertFestival, c: InsertFestival, now: Timestamp)
      requires Valid()
      modifies this`festivals, this`festivalIdCounter
      ensures Valid()
      ensures festivals.Values() == old(festivals.Values()) + [
                NewFestival(a, old(festivalIdCounter), now),
                NewFestival(b, old(festivalIdCounter) + 1, now),
                NewFestival(c, old(festivalIdCounter) + 2, now)]
      ensures festivalIdCounter == old(festivalIdCounter) + 3
    {
      ghost var festivals0 := festivals.Values();
      var f1 := CreateFestival(a, now);
      var f2 := CreateFestival(b, now);
      var f3 := CreateFestival(c, now);
      assert festivals.Values() == festivals0 + [f1] + [f2] + [f3];
    }

    /** Two `createBhajan` calls in a row. */
    method CreateBhajans(a: InsertBhajan, b: InsertBhajan, now: Timestamp)
      requires Valid()
      modifies this`bhajans, this`bhajanIdCounter
      ensures Valid()
      ensures bhajans.Values() == old(bhajans.Values()) + [
                NewBhajan(a, old(bhajanIdCounter), now),
                NewBhajan(b, old(bhajanIdCounter) + 1, now)]
      ensures bhajanIdCounter == old(bhajanIdCounter) + 2
    {
      ghost var bhajans0 := bhajans.Values();
      var b1 := CreateBhajan(a, now);
      var b2 := CreateBhajan(b, now);
      assert bhajans.Values() == bhajans0 + [b1] + [b2];
    }

    // -------------------------------------------------------------------------------------------
    // users

    /** `users.get(id)`. */
    function GetUser(id: int): (r: Option<User>)
      reads this
      ensures r.Some? <==> id in users.entries
      ensures r.Some? ==> r.value == users.entries[id]
    {
      users.Get(id)
    }

    /** The first user in insertion order with the given email, or `None` when no user has it. */
    method GetUserByEmail(email: string) returns (r: Option<User>)
      requires Valid()
      ensures r.None? <==> forall u :: u in users.Values() ==> u.email != email
      ensures r.Some? ==> r.value.email == email
      ensures r.Some? ==> exists i :: IsFirstIndex(users.Values(), UserWithEmail(email), i) && users.Values()[i] == r.value
      ensures r == Find(users.Values(), UserWithEmail(email))
    {
      r := FindFirst(users.Values(), UserWithEmail(email));
    }

    /** The first user in insertion order with the given Google id, or `None` when no user has it. */
    method GetUserByGoogleId(googleId: string) returns (r: Option<User>)
      requires Valid()
      ensures r.None? <==> forall u :: u in users.Values() ==> u.googleId != googleId
      ensures r.Some? ==> r.value.googleId == googleId
      ensures r.Some? ==> exists i :: IsFirstIndex(users.Values(), UserWithGoogleId(googleId), i) && users.Values()[i] == r.value
      ensures r == Find(users.Values(), UserWithGoogleId(googleId))
    {
      r := FindFirst(users.Values(), UserWithGoogleId(googleId));
    }

    /** Takes the counter as the id, increments the counter and appends the new user. */
    method CreateUser(ins: InsertUser, now: Timestamp) returns (u: User)
      requires Valid()
      modifies this`users, this`userIdCounter
      ensures Valid()
      ensures u == NewUser(ins, old(userIdCounter), now)
      ensures u.id !in old(users.entries) && forall k :: k in old(users.entries) ==> k < u.id
      ensures userIdCounter == old(userIdCounter) + 1
      ensures users.entries == old(users.entries)[u.id := u]
      ensures users.Values() == old(users.Values()) + [u]
    {
      var id := userIdCounter;
      TableInsert(users, id, NewUser(ins, id, now));
      userIdCounter := userIdCounter + 1;
      u := NewUser(ins, id, now);
      users := users.Set(id, u);
    }

    /** Overrides the stored user with exactly the fields the update carries; does nothing for an
        unknown id. */
    method UpdateUser(id: int, update: UserPatch) returns (r: Option<User>)
      requires Valid()
      modifies this`users
      ensures Valid()
      ensures id !in old(users.entries) ==> r.None? && users == old(users)
      ensures id in old(users.entries) ==> r == Some(PatchUser(old(users.entries[id]), update))
      ensures id in old(users.entries) ==> users.entries == old(users.entries)[id := r.value] && users.keys == old(users.keys)
    {
      var user := GetUser(id);
      if user.None? {
        return None;
      }
      var updated := PatchUser(user.value, update);
      TableReplace(users, userIdCounter, id, updated);
      users := users.Set(id, updated);
      r := Some(updated);
    }

    // -------------------------------------------------------------------------------------------
    // user preferences

    /** The first preferences row in insertion order belonging to the user, or `None`. */
    method GetUserPreferences(userId: int) returns (r: Option<UserPreferences>)
      requires Valid()
      ensures r.None? <==> forall p :: p in preferences.Values() ==> p.userId != userId
      ensures r.Some? ==> r.value.userId == userId
      ensures r.Some? ==> exists i :: IsFirstIndex(preferences.Values(), PreferencesOfUser(userId), i) && preferences.Values()[i] == r.value
      ensures r == Find(preferences.Values(), PreferencesOfUser(userId))
    {
      r := FindFirst(preferences.Values(), PreferencesOfUser(userId));
    }

    /** Appends a row with the counter as id and equal creation and update times. */
    method CreateUserPreferences(ins: InsertPreferences, now: Timestamp) returns (p: UserPreferences)
      requires Valid()
      modifies this`preferences, this`preferencesIdCounter
      ensures Valid()
      ensures p == NewPreferences(ins, old(preferencesIdCounter), now)
      ensures p.id !in old(preferences.entries)
      ensures preferencesIdCounter == old(preferencesIdCounter) + 1
      ensures preferences.entries == old(preferences.entries)[p.id := p]
      ensures preferences.Values() == old(preferences.Values()) + [p]
    {
      var id := preferencesIdCounter;
      TableInsert(preferences, id, NewPreferences(ins, id, now));
      preferencesIdCounter := preferencesIdCounter + 1;
      p := NewPreferences(ins, id, now);
      preferences := preferences.Set(id, p);
    }

    /** Overrides the stored row with the update and then stamps `updatedAt` with `now`, whatever the
        update says about it; does nothing for an unknown id. */
    method UpdateUserPreferences(id: int, update: PreferencesPatch, now: Timestamp) returns (r: Option<UserPreferences>)
      requires Valid()
      modifies this`preferences
      ensures Valid()
      ensures id !in old(preferences.entries) ==> r.None? && preferences == old(preferences)
      ensures id in old(preferences.entries) ==> r == Some(PatchPreferencesAt(old(preferences.entries[id]), update, now))
      ensures id in old(preferences.entries) ==> r.value.updatedAt == now
      ensures id in old(preferences.entries) ==> preferences.entries == old(preferences.entries)[id := r.value] && preferences.keys == old(preferences.keys)
    {
      var current := preferences.Get(id);
      if current.None? {
        return None;
      }
      var updated := PatchPreferencesAt(current.value, update, now);
      TableReplace(preferences, preferencesIdCounter, id, updated);
      preferences := preferences.Set(id, updated);
      r := Some(updated);
    }

    // -------------------------------------------------------------------------------------------
    // festivals

    function GetFestival(id: int): (r: Option<Festival>)
      reads this
      ensures r.Some? <==> id in festivals.entries
      ensures r.Some? ==> r.value == festivals.entries[id]
    {
      festivals.Get(id)
    }

    /** The festivals on the same local day as `date`, in insertion order. */
    function GetFestivalsByDate(date: Timestamp, offset: int): (r: seq<Festival>)
      reads this
      requires Valid()
      ensures forall f :: f in r <==> f in festivals.Values() && DayOf(f.date + offset) == DayOf(date + offset)
      ensures IsSubsequence(r, festivals.Values())
    {
      forall f ensures OnLocalDay(date, offset)(f) <==> DayOf(f.date + offset) == DayOf(date + offset) {
        LocalMidnightOrder(f.date, date, offset);
      }
      Filter(festivals.Values(), OnLocalDay(date, offset))
    }

    /** The festivals whose religion equals `religion` ignoring letter case, in insertion order. */
    function GetFestivalsByReligion(religion: string): (r: seq<Festival>)
      reads this
      requires Valid()
      ensures forall f :: f in r <==> f in festivals.Values() && EqualsIgnoringCase(f.religion, religion)
      ensures IsSubsequence(r, festivals.Values())
    {
      Filter(festivals.Values(), FestivalOfReligion(religion))
    }

    function GetAllFestivals(): (r: seq<Festival>)
      reads this
      requires Valid()
      ensures |r| == |festivals.keys|
      ensures forall i :: 0 <= i < |r| ==> GetFestival(festivals.keys[i]) == Some(r[i])
    {
      festivals.Values()
    }

    /** The festivals of the religion dated today or later, sorted by date, cut at `limit` as
        `slice(0, limit)` does. */
    function GetUpcomingFestivals(religion: string, limit: int, now: Timestamp, offset: int): (r: seq<Festival>)
      reads this
      requires Valid()
      ensures r <= SortByDate(Filter(festivals.Values(), IsUpcoming(religion, now, offset)))
      ensures SortedByDate(r)
      ensures forall f :: f in r ==> f in festivals.Values() && EqualsIgnoringCase(f.religion, religion)
                                      && DayOf(f.date + offset) >= DayOf(now + offset)
      ensures var n := |Filter(festivals.Values(), IsUpcoming(religion, now, offset))|;
                limit >= 0 ==> |r| == if limit <= n then limit else n
      ensures var n := |Filter(festivals.Values(), IsUpcoming(religion, now, offset))|;
                limit < 0 ==> |r| == if n + limit >= 0 then n + limit else 0
      ensures limit >= |festivals.keys| ==> multiset(r) == multiset(Filter(festivals.Values(), IsUpcoming(religion, now, offset)))
    {
      Upcoming(festivals.Values(), religion, limit, now, offset)
    }

    /** Appends a festival with the counter as id. */
    method CreateFestival(ins: InsertFestival, now: Timestamp) returns (f: Festival)
      requires Valid()
      modifies this`festivals, this`festivalIdCounter
      ensures Valid()
      ensures f == NewFestival(ins, old(festivalIdCounter), now)
      ensures f.id !in old(festivals.entries)
      ensures festivalIdCounter == old(festivalIdCounter) + 1
      ensures festivals.entries == old(festivals.entries)[f.id := f]
      ensures festivals.Values() == old(festivals.Values()) + [f]
    {
      var id := festivalIdCounter;
      TableInsert(festivals, id, NewFestival(ins, id, now));
      festivalIdCounter := festivalIdCounter + 1;
      f := NewFestival(ins, id, now);
      festivals := festivals.Set(id, f);
    }

    // -------------------------------------------------------------------------------------------
    // rituals

    function GetRitual(id: int): (r: Option<Ritual>)
      reads this
      ensures r.Some? <==> id in rituals.entries
      ensures r.Some? ==> r.value == rituals.entries[id]
    {
      rituals.Get(id)
    }

    function GetRitualsByFestival(festivalId: int): (r: seq<Ritual>)
      reads this
      requires Valid()
      ensures forall x :: x in r <==> x in rituals.Values() && x.festivalId == Some(festivalId)
      ensures IsSubsequence(r, rituals.Values())
    {
      Filter(rituals.Values(), RitualOfFestival(festivalId))
    }

    function GetRitualsByReligion(religion: string): (r: seq<Ritual>)
      reads this
      requires Valid()
      ensures forall x :: x in r <==> x in rituals.Values() && EqualsIgnoringCase(x.religion, religion)
      ensures IsSubsequence(r, rituals.Values())
    {
      Filter(rituals.Values(), RitualOfReligion(religion))
    }

    method CreateRitual(ins: InsertRitual, now: Timestamp) returns (x: Ritual)
      requires Valid()
      modifies this`rituals, this`ritualIdCounter
      ensures Valid()
      ensures x == NewRitual(ins, old(ritualIdCounter), now)
      ensures x.id !in old(rituals.entries)
      ensures ritualIdCounter == old(ritualIdCounter) + 1
      ensures rituals.entries == old(rituals.entries)[x.id := x]
      ensures rituals.Values() == old(rituals.Values()) + [x]
    {
      var id := ritualIdCounter;
      TableInsert(rituals, id, NewRitual(ins, id, now));
      ritualIdCounter := ritualIdCounter + 1;
      x := NewRitual(ins, id, now);
      rituals := rituals.Set(id, x);
    }

    /** Overrides the stored ritual with exactly the fields the update carries; does nothing for an
        unknown id. */
    method UpdateRitual(id: int, update: RitualPatch) returns (r: Option<Ritual>)
      requires Valid()
      modifies this`rituals
      ensures Valid()
      ensures id !in old(rituals.entries) ==> r.None? && rituals == old(rituals)
      ensures id in old(rituals.entries) ==> r == Some(PatchRitual(old(rituals.entries[id]), update))
      ensures id in old(rituals.entries) ==> rituals.entries == old(rituals.entries)[id := r.value] && rituals.keys == old(rituals.keys)
    {
      var ritual := GetRitual(id);
      if ritual.None? {
        return None;
      }
      var updated := PatchRitual(ritual.value, update);
      TableReplace(rituals, ritualIdCounter, id, updated);
      rituals := rituals.Set(id, updated);
      r := Some(updated);
    }

    // -------------------------------------------------------------------------------------------
    // bhajans

    function GetBhajan(id: int): (r: Option<Bhajan>)
      reads this
      ensures r.Some? <==> id in bhajans.entries
      ensures r.Some? ==> r.value == bhajans.entries[id]
    {
      bhajans.Get(id)
    }

    function GetBhajansByFestival(festivalId: int): (r: seq<Bhajan>)
      reads this
      requires Valid()
      ensures forall b :: b in r <==> b in bhajans.Values() && b.festivalId == Some(festivalId)
      ensures IsSubsequence(r, bhajans.Values())
    {
      Filter(bhajans.Values(), BhajanOfFestival(festivalId))
    }

    method CreateBhajan(ins: InsertBhajan, now: Timestamp) returns (b: Bhajan)
      requires Valid()
      modifies this`bhajans, this`bhajanIdCounter
      ensures Valid()
      ensures b == NewBhajan(ins, old(bhajanIdCounter), now)
      ensures b.id !in old(bhajans.entries)
      ensures bhajanIdCounter == old(bhajanIdCounter) + 1
      ensures bhajans.entries == old(bhajans.entries)[b.id := b]
      ensures bhajans.Values() == old(bhajans.Values()) + [b]
    {
      var id := bhajanIdCounter;
      TableInsert(bhajans, id, NewBhajan(ins, id, now));
      bhajanIdCounter := bhajanIdCounter + 1;
      b := NewBhajan(ins, id, now);
      bhajans := bhajans.Set(id, b);
    }

    // -------------------------------------------------------------------------------------------
    // contributions

    function GetContribution(id: int): (r: Option<Contribution>)
      reads this
      ensures r.Some? <==> id in contributions.entries
      ensures r.Some? ==> r.value == contributions.entries[id]
    {
      contributions.Get(id)
    }

    function GetContributionsByUser(userId: int): (r: seq<Contribution>)
      reads this
      requires Valid()
      ensures forall c :: c in r <==> c in contributions.Values() && c.userId == userId
      ensures IsSubsequence(r, contributions.Values())
    {
      Filter(contributions.Values(), ContributionOfUser(userId))
    }

    method CreateContribution(ins: InsertContribution, now: Timestamp) returns (c: Contribution)
      requires Valid()
      modifies this`contributions, this`contributionIdCounter
      ensures Valid()
      ensures c == NewContribution(ins, old(contributionIdCounter), now)
      ensures c.id !in old(contributions.entries)
      ensures contributionIdCounter == old(contributionIdCounter) + 1
      ensures contributions.entries == old(contributions.entries)[c.id := c]
      ensures contributions.Values() == old(contributions.Values()) + [c]
    {
      var id := contributionIdCounter;
      TableInsert(contributions, id, NewContribution(ins, id, now));
      contributionIdCounter := contributionIdCounter + 1;
      c := NewContribution(ins, id, now);
      contributions := contributions.Set(id, c);
    }

    /** Overrides the stored contribution with the update, then stamps `updatedAt` with `now`; does
        nothing for an unknown id. */
    method UpdateContribution(id: int, update: ContributionPatch, now: Timestamp) returns (r: Option<Contribution>)
      requires Valid()
      modifies this`contributions
      ensures Valid()
      ensures id !in old(contributions.entries) ==> r.None? && contributions == old(contributions)
      ensures id in old(contributions.entries) ==> r == Some(PatchContributionAt(old(contributions.entries[id]), update, now))
      ensures id in old(contributions.entries) ==> r.value.updatedAt == now
      ensures id in old(contributions.entries) ==> contributions.entries == old(contributions.entries)[id := r.value] && contributions.keys == old(contributions.keys)
    {
      var current := GetContribution(id);
      if current.None? {
        return None;
      }
      var updated := PatchContributionAt(current.value, update, now);
      TableReplace(contributions, contributionIdCounter, id, updated);
      contributions := contributions.Set(id, updated);
      r := Some(updated);
    }
  }

  /** Religion lookups ignore letter case: two spellings that differ only in case select the same
      festivals. */
  lemma FestivalsByReligionIgnoresCase(m: MemStorage, a: string, b: string)
    requires m.Valid() && EqualsIgnoringCase(a, b)
    ensures m.GetFestivalsByReligion(a) == m.GetFestivalsByReligion(b)
  {
    FilterExt(m.festivals.Values(), FestivalOfReligion(a), FestivalOfReligion(b));
  }

  /** Upcoming festivals on the same date come out in insertion order. */
  lemma UpcomingKeepsInsertionOrder(m: MemStorage, religion: string, now: Timestamp, offset: int, d: Timestamp)
    requires m.Valid()
    ensures Filter(SortByDate(Filter(m.festivals.Values(), IsUpcoming(religion, now, offset))), OnDate(d))
         == Filter(Filter(m.festivals.Values(), IsUpcoming(religion, now, offset)), OnDate(d))
  {
    SortByDateStable(Filter(m.festivals.Values(), IsUpcoming(religion, now, offset)), d);
  }
}
