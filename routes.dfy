/** The HTTP route handlers over the in-memory store: the authentication gate, Google login, the profile
    and preferences updates, the upcoming-festivals query, contribution creation, the speech-synthesis
    proxy and the document categorisation defaults. Each handler is one atomic step over the store and
    the session. */
module Routes {
  import opened Wrappers
  import opened Seqs
  import opened Text
  import opened Schema
  import opened Storage

  /** The part of `req.session` the handlers use. */
  class Session {
    var userId: Option<int>

    constructor ()
      ensures userId == None
    {
      userId := None;
    }
  }

  /** What a handler sends: a JSON body with a success status, or an error status with its message. */
  datatype Response<T> = Success(status: int, value: T) | Failure(status: int, message: string)

  // ---------------------------------------------------------------------------------------------
  // The authentication gate

  /** JavaScript truthiness of `req.session.userId`: set, and not the number 0. */
  predicate LoggedIn(userId: Option<int>)
  {
    userId.Some? && userId.value != 0
  }

  datatype Gate = Next | Reject(status: int, message: string)

  /** `isAuthenticated`: hands over to the route iff the session carries a truthy user id, and answers
      401 otherwise. */
  function IsAuthenticated(userId: Option<int>): (g: Gate)
    ensures g.Next? <==> userId.Some? && userId.value != 0
    ensures g.Reject? ==> g.status == 401 && g.message == "Unauthorized"
  {
    if LoggedIn(userId) then Next else Reject(401, "Unauthorized")
  }

  // ---------------------------------------------------------------------------------------------
  // Invariants the handlers keep between requests

  /** Every row of the three tables the handlers write carries its own key as id, Google ids are
      unique, every preferences and contribution row points at a stored user, and no user has two
      preferences rows. */
  ghost predicate IntegrityOf(users: map<int, User>, prefs: map<int, UserPreferences>, contributions: map<int, Contribution>)
  {
    (forall k :: k in users ==> users[k].id == k)
    && (forall a, b :: a in users && b in users && a != b ==> users[a].googleId != users[b].googleId)
    && (forall k :: k in prefs ==> prefs[k].id == k && prefs[k].userId in users)
    && (forall a, b :: a in prefs && b in prefs && a != b ==> prefs[a].userId != prefs[b].userId)
    && (forall k :: k in contributions ==> contributions[k].id == k && contributions[k].userId in users)
  }

  ghost predicate Integrity(store: MemStorage)
    reads store
  {
    IntegrityOf(store.users.entries, store.preferences.entries, store.contributions.entries)
  }

  /** The session names a stored user, if any. */
  ghost predicate SessionValid(store: MemStorage, session: Session)
    reads store, session
  {
    session.userId.Some? ==> session.userId.value in store.users.entries
  }

  /** A fresh store satisfies the invariants: its three tables are empty. */
  lemma FreshStoreIntegrity(store: MemStorage)
    requires store.users.entries == map[] && store.preferences.entries == map[] && store.contributions.entries == map[]
    ensures Integrity(store)
  {
  }

  lemma NewUserIntegrity(users: map<int, User>, prefs: map<int, UserPreferences>, contributions: map<int, Contribution>,
                         u: User, p: UserPreferences)
    requires IntegrityOf(users, prefs, contributions)
    requires u.id !in users && forall k :: k in users ==> users[k].googleId != u.googleId
    requires p.id !in prefs && p.userId == u.id
    ensures IntegrityOf(users[u.id := u], prefs[p.id := p], contributions)
  {
  }

  lemma NewPreferencesIntegrity(users: map<int, User>, prefs: map<int, UserPreferences>, contributions: map<int, Contribution>,
                                p: UserPreferences)
    requires IntegrityOf(users, prefs, contributions)
    requires p.id !in prefs && p.userId in users && forall k :: k in prefs ==> prefs[k].userId != p.userId
    ensures IntegrityOf(users, prefs[p.id := p], contributions)
  {
  }

  lemma ReplacePreferencesIntegrity(users: map<int, User>, prefs: map<int, UserPreferences>, contributions: map<int, Contribution>,
                                    k: int, p: UserPreferences)
    requires IntegrityOf(users, prefs, contributions)
    requires k in prefs && p.id == k && p.userId == prefs[k].userId
    ensures IntegrityOf(users, prefs[k := p], contributions)
  {
  }

  lemma ReplaceUserIntegrity(users: map<int, User>, prefs: map<int, UserPreferences>, contributions: map<int, Contribution>,
                             k: int, u: User)
    requires IntegrityOf(users, prefs, contributions)
    requires k in users && u.id == k && u.googleId == users[k].googleId
    ensures IntegrityOf(users[k := u], prefs, contributions)
  {
  }

  lemma NewContributionIntegrity(users: map<int, User>, prefs: map<int, UserPreferences>, contributions: map<int, Contribution>,
                                 c: Contribution)
    requires IntegrityOf(users, prefs, contributions)
    requires c.id !in contributions && c.userId in users
    ensures IntegrityOf(users, prefs, contributions[c.id := c])
  {
  }

  // ---------------------------------------------------------------------------------------------
  // POST /api/auth/google

  /** The profile fields the client posts. */
  datatype LoginBody = LoginBody(
    googleId: string,
    email: string,
    username: string,
    firstName: Option<string>,
    lastName: Option<string>,
    profilePicture: Option<string>)

  /** The user fields the handlers send back: no Google id and no creation time. */
  datatype UserView = UserView(
    id: int,
    email: string,
    username: string,
    firstName: Option<string>,
    lastName: Option<string>,
    profilePicture: Option<string>)

  function ViewOf(u: User): (v: UserView)
    ensures v.id == u.id && v.email == u.email && v.username == u.username
    ensures v.firstName == u.firstName && v.lastName == u.lastName && v.profilePicture == u.profilePicture
  {
    UserView(u.id, u.email, u.username, u.firstName, u.lastName, u.profilePicture)
  }

  /** The response does not depend on the Google id or the creation time of the user. */
  lemma ViewHidesGoogleIdAndCreation(u: User, googleId: string, createdAt: Timestamp)
    ensures ViewOf(u.(googleId := googleId, createdAt := createdAt)) == ViewOf(u)
  {
  }

  function LoginInsert(body: LoginBody): (ins: InsertUser)
    ensures ins.googleId == body.googleId && ins.email == body.email && ins.username == body.username
    ensures ins.firstName == body.firstName && ins.lastName == body.lastName && ins.profilePicture == body.profilePicture
  {
    InsertUser(body.username, body.email, body.googleId, body.firstName, body.lastName, body.profilePicture)
  }

  /** The preferences a first login creates. */
  function LoginPreferences(userId: int): (ins: InsertPreferences)
    ensures ins.userId == userId && ins.primaryReligion == "Hinduism"
    ensures ins.secondaryInterests == Some([]) && ins.languages == Some(["English"])
    ensures ins.festivalReminderDays == Some(3)
    ensures ins.notifyFestivals == Some(true) && ins.notifyDailyContent == Some(true)
    ensures ins.notifyNewContent == Some(true) && ins.notifyCommunityUpdates == Some(false)
    ensures ins.notifyEmails == Some(true)
  {
    InsertPreferences(userId, "Hinduism", Some([]), Some(["English"]), Some(3), Some(true), Some(true), Some(true),
      Some(false), Some(true))
  }

  /** Finds the user by Google id, or creates the user and their default preferences; then logs the
      session in as that user. */
  method LoginWithGoogle(store: MemStorage, session: Session, body: LoginBody, now: Timestamp) returns (r: Response<UserView>)
    requires store.Valid() && Integrity(store)
    modifies store`users, store`userIdCounter, store`preferences, store`preferencesIdCounter, session`userId
    ensures store.Valid() && Integrity(store) && SessionValid(store, session)
    ensures r.Success? && r.status == 200
    ensures var found := Find(old(store.users.Values()), UserWithGoogleId(body.googleId));
      found.Some? ==>
        && store.users == old(store.users) && store.userIdCounter == old(store.userIdCounter)
        && store.preferences == old(store.preferences) && store.preferencesIdCounter == old(store.preferencesIdCounter)
        && session.userId == Some(found.value.id) && r.value == ViewOf(found.value)
    ensures var found := Find(old(store.users.Values()), UserWithGoogleId(body.googleId));
      var u := NewUser(LoginInsert(body), old(store.userIdCounter), now);
      var p := NewPreferences(LoginPreferences(u.id), old(store.preferencesIdCounter), now);
      found.None? ==>
        && store.users.Values() == old(store.users.Values()) + [u]
        && store.users.entries == old(store.users.entries)[u.id := u]
        && store.userIdCounter == old(store.userIdCounter) + 1
        && store.preferences.Values() == old(store.preferences.Values()) + [p]
        && store.preferences.entries == old(store.preferences.entries)[p.id := p]
        && store.preferencesIdCounter == old(store.preferencesIdCounter) + 1
        && session.userId == Some(u.id) && r.value == ViewOf(u)
  {
    ghost var users0, prefs0 := store.users, store.preferences;
    var existing := store.GetUserByGoogleId(body.googleId);
    var user: User;
    if existing.None? {
      TableNoMatch(users0, store.userIdCounter, UserWithGoogleId(body.googleId));
      user := store.CreateUser(LoginInsert(body), now);
      TableValidMap(prefs0, store.preferencesIdCounter);
      var prefs := store.CreateUserPreferences(LoginPreferences(user.id), now);
      NewUserIntegrity(users0.entries, prefs0.entries, store.contributions.entries, user, prefs);
    } else {
      user := existing.value;
      TableFoundEntry(users0, store.userIdCounter, UserWithGoogleId(body.googleId));
    }
    session.userId := Some(user.id);
    r := Success(200, ViewOf(user));
  }

  // ---------------------------------------------------------------------------------------------
  // PUT /api/user

  /** Replaces the two names of the session's user, whatever their values (a missing name clears it);
      404 when the session's user is not stored. */
  method UpdateProfile(store: MemStorage, session: Session, firstName: Option<string>, lastName: Option<string>)
    returns (r: Response<UserView>)
    requires store.Valid() && Integrity(store)
    modifies store`users
    ensures store.Valid() && Integrity(store)
    ensures !LoggedIn(session.userId) ==> r == Failure(401, "Unauthorized") && store.users == old(store.users)
    ensures LoggedIn(session.userId) && session.userId.value !in old(store.users.entries) ==>
              r == Failure(404, "User not found") && store.users == old(store.users)
    ensures LoggedIn(session.userId) && session.userId.value in old(store.users.entries) ==>
              var u := old(store.users.entries[session.userId.value]).(firstName := firstName, lastName := lastName);
              && r == Success(200, ViewOf(u))
              && store.users.entries == old(store.users.entries)[u.id := u]
              && store.users.keys == old(store.users.keys)
  {
    var gate := IsAuthenticated(session.userId);
    if gate.Reject? {
      return Failure(gate.status, gate.message);
    }
    var id := session.userId.value;
    ghost var users0 := store.users.entries;
    var updated := store.UpdateUser(id, NamePatch(firstName, lastName));
    if updated.None? {
      return Failure(404, "User not found");
    }
    NamePatchEffect(users0[id], firstName, lastName);
    ReplaceUserIntegrity(users0, store.preferences.entries, store.contributions.entries, id, updated.value);
    r := Success(200, ViewOf(updated.value));
  }

  // ---------------------------------------------------------------------------------------------
  // PUT /api/preferences

  /** The posted preference fields: `None` is a key the body leaves out, `Some(None)` a key set to
      `null`. */
  datatype PreferencesBody = PreferencesBody(
    primaryReligion: Option<string>,
    secondaryInterests: Option<Option<seq<string>>>,
    languages: Option<Option<seq<string>>>,
    festivalReminderDays: Option<Option<int>>,
    notifyFestivals: Option<Option<bool>>,
    notifyDailyContent: Option<Option<bool>>,
    notifyNewContent: Option<Option<bool>>,
    notifyCommunityUpdates: Option<Option<bool>>,
    notifyEmails: Option<Option<bool>>)

  /** The body after validation by the preferences schema without `userId`: the religion is present. */
  datatype PreferencesForm = PreferencesForm(
    primaryReligion: string,
    secondaryInterests: Option<Option<seq<string>>>,
    languages: Option<Option<seq<string>>>,
    festivalReminderDays: Option<Option<int>>,
    notifyFestivals: Option<Option<bool>>,
    notifyDailyContent: Option<Option<bool>>,
    notifyNewContent: Option<Option<bool>>,
    notifyCommunityUpdates: Option<Option<bool>>,
    notifyEmails: Option<Option<bool>>)

  /** `prefSchema.parse(body)`: fails exactly when the required religion is missing; keeps every other
      key as posted. */
  function ParsePreferences(body: PreferencesBody): (r: Option<PreferencesForm>)
    ensures r.None? <==> body.primaryReligion.None?
    ensures r.Some? ==> r.value.primaryReligion == body.primaryReligion.value
    ensures r.Some? ==> r.value.secondaryInterests == body.secondaryInterests && r.value.languages == body.languages
    ensures r.Some? ==> r.value.festivalReminderDays == body.festivalReminderDays
    ensures r.Some? ==> r.value.notifyFestivals == body.notifyFestivals && r.value.notifyDailyContent == body.notifyDailyContent
    ensures r.Some? ==> r.value.notifyNewContent == body.notifyNewContent
    ensures r.Some? ==> r.value.notifyCommunityUpdates == body.notifyCommunityUpdates && r.value.notifyEmails == body.notifyEmails
  {
    if body.primaryReligion.None? then None
    else Some(PreferencesForm(body.primaryReligion.value, body.secondaryInterests, body.languages,
      body.festivalReminderDays, body.notifyFestivals, body.notifyDailyContent, body.notifyNewContent,
      body.notifyCommunityUpdates, body.notifyEmails))
  }

  /** A key left out and a key set to `null` both leave the column without a value. */
  function Flatten<T>(o: Option<Option<T>>): (r: Option<T>)
    ensures r.Some? <==> o.Some? && o.value.Some?
    ensures r.Some? ==> r.value == o.value.value
  {
    if o.Some? then o.value else None
  }

  /** `{ userId, ...validatedData }`. */
  function FormInsert(userId: int, form: PreferencesForm): (ins: InsertPreferences)
    ensures ins.userId == userId && ins.primaryReligion == form.primaryReligion
    ensures ins.secondaryInterests == Flatten(form.secondaryInterests) && ins.languages == Flatten(form.languages)
    ensures ins.festivalReminderDays == Flatten(form.festivalReminderDays)
    ensures ins.notifyFestivals == Flatten(form.notifyFestivals) && ins.notifyDailyContent == Flatten(form.notifyDailyContent)
    ensures ins.notifyNewContent == Flatten(form.notifyNewContent)
    ensures ins.notifyCommunityUpdates == Flatten(form.notifyCommunityUpdates) && ins.notifyEmails == Flatten(form.notifyEmails)
  {
    InsertPreferences(userId, form.primaryReligion, Flatten(form.secondaryInterests), Flatten(form.languages),
      Flatten(form.festivalReminderDays), Flatten(form.notifyFestivals), Flatten(form.notifyDailyContent),
      Flatten(form.notifyNewContent), Flatten(form.notifyCommunityUpdates), Flatten(form.notifyEmails))
  }

  /** `validatedData` as an update: it never carries the id, the owner or the timestamps. */
  function FormPatch(form: PreferencesForm): (u: PreferencesPatch)
    ensures u.id.None? && u.userId.None? && u.createdAt.None? && u.updatedAt.None?
    ensures u.primaryReligion == Some(form.primaryReligion)
    ensures u.secondaryInterests == form.secondaryInterests && u.languages == form.languages
    ensures u.festivalReminderDays == form.festivalReminderDays
    ensures u.notifyFestivals == form.notifyFestivals && u.notifyDailyContent == form.notifyDailyContent
    ensures u.notifyNewContent == form.notifyNewContent
    ensures u.notifyCommunityUpdates == form.notifyCommunityUpdates && u.notifyEmails == form.notifyEmails
  {
    PreferencesPatch(None, None, Some(form.primaryReligion), form.secondaryInterests, form.languages,
      form.festivalReminderDays, form.notifyFestivals, form.notifyDailyContent, form.notifyNewContent,
      form.notifyCommunityUpdates, form.notifyEmails, None, None)
  }

  /** Updating a row with a validated form keeps its id, its owner and its creation time. */
  lemma FormPatchKeepsIdentity(p: UserPreferences, form: PreferencesForm, now: Timestamp)
    ensures var q := PatchPreferencesAt(p, FormPatch(form), now);
      q.id == p.id && q.userId == p.userId && q.createdAt == p.createdAt && q.updatedAt == now
  {
  }

  /** Creates the user's preferences from the form when they have none, and otherwise updates their
      first row with it. */
  method SavePreferences(store: MemStorage, userId: int, form: PreferencesForm, now: Timestamp) returns (saved: UserPreferences)
    requires store.Valid() && Integrity(store)
    modifies store`preferences, store`preferencesIdCounter
    ensures store.Valid()
    ensures userId in store.users.entries ==> Integrity(store)
    ensures var found := Find(old(store.preferences.Values()), PreferencesOfUser(userId));
      var p := NewPreferences(FormInsert(userId, form), old(store.preferencesIdCounter), now);
      found.None? ==>
        && saved == p
        && store.preferences.Values() == old(store.preferences.Values()) + [p]
        && store.preferences.entries == old(store.preferences.entries)[p.id := p]
        && store.preferencesIdCounter == old(store.preferencesIdCounter) + 1
    ensures var found := Find(old(store.preferences.Values()), PreferencesOfUser(userId));
      found.Some? ==>
        && saved == PatchPreferencesAt(found.value, FormPatch(form), now)
        && store.preferences.entries == old(store.preferences.entries)[found.value.id := saved]
        && store.preferences.keys == old(store.preferences.keys)
        && store.preferencesIdCounter == old(store.preferencesIdCounter)
  {
    ghost var prefs0 := store.preferences;
    var existing := store.GetUserPreferences(userId);
    if existing.None? {
      TableNoMatch(prefs0, store.preferencesIdCounter, PreferencesOfUser(userId));
      TableValidMap(prefs0, store.preferencesIdCounter);
      saved := store.CreateUserPreferences(FormInsert(userId, form), now);
      if userId in store.users.entries {
        NewPreferencesIntegrity(store.users.entries, prefs0.entries, store.contributions.entries, saved);
      }
    } else {
      TableFoundEntry(prefs0, store.preferencesIdCounter, PreferencesOfUser(userId));
      var id := existing.value.id;
      FormPatchKeepsIdentity(existing.value, form, now);
      var updated := store.UpdateUserPreferences(id, FormPatch(form), now);
      ReplacePreferencesIntegrity(store.users.entries, prefs0.entries, store.contributions.entries, id, updated.value);
      saved := updated.value;
    }
  }

  /** PUT /api/preferences: a user never gets a second row; a body without a religion fails validation
      and answers 500. */
  method UpsertPreferences(store: MemStorage, session: Session, body: PreferencesBody, now: Timestamp)
    returns (r: Response<UserPreferences>)
    requires store.Valid() && Integrity(store)
    modifies store`preferences, store`preferencesIdCounter
    ensures store.Valid()
    ensures SessionValid(store, session) ==> Integrity(store)
    ensures !LoggedIn(session.userId) || ParsePreferences(body).None? ==>
              store.preferences == old(store.preferences) && store.preferencesIdCounter == old(store.preferencesIdCounter)
    ensures !LoggedIn(session.userId) ==> r == Failure(401, "Unauthorized")
    ensures LoggedIn(session.userId) && ParsePreferences(body).None? ==> r == Failure(500, "Failed to update preferences")
    ensures LoggedIn(session.userId) && ParsePreferences(body).Some? ==>
              var form := ParsePreferences(body).value;
              var found := Find(old(store.preferences.Values()), PreferencesOfUser(session.userId.value));
              var p := NewPreferences(FormInsert(session.userId.value, form), old(store.preferencesIdCounter), now);
              found.None? ==>
                && r == Success(200, p)
                && store.preferences.Values() == old(store.preferences.Values()) + [p]
                && store.preferences.entries == old(store.preferences.entries)[p.id := p]
                && store.preferencesIdCounter == old(store.preferencesIdCounter) + 1
    ensures LoggedIn(session.userId) && ParsePreferences(body).Some? ==>
              var form := ParsePreferences(body).value;
              var found := Find(old(store.preferences.Values()), PreferencesOfUser(session.userId.value));
              found.Some? ==>
                var q := PatchPreferencesAt(found.value, FormPatch(form), now);
                && r == Success(200, q)
                && store.preferences.entries == old(store.preferences.entries)[found.value.id := q]
                && store.preferences.keys == old(store.preferences.keys)
                && store.preferencesIdCounter == old(store.preferencesIdCounter)
  {
    var gate := IsAuthenticated(session.userId);
    if gate.Reject? {
      return Failure(gate.status, gate.message);
    }
    var form := ParsePreferences(body);
    if form.None? {
      return Failure(500, "Failed to update preferences");
    }
    var saved := SavePreferences(store, session.userId.value, form.value, now);
    r := Success(200, saved);
  }

  // ---------------------------------------------------------------------------------------------
  // GET /api/festivals/upcoming

  /** `parseInt(req.query.limit) || 5`: the number the query starts with (decimal, or hexadecimal
      after "0x"), or 5 when there is none (`NaN`) or it is 0. `None` stands for a missing query parameter. */
  function UpcomingLimit(query: Option<string>): (n: int)
    ensures n != 0
    ensures query.Some? && ParseInt(query.value).Some? && ParseInt(query.value).value != 0 ==>
              n == ParseInt(query.value).value
    ensures query.None? || ParseInt(query.value).None? || ParseInt(query.value) == Some(0) ==> n == 5
  {
    if query.None? then 5
    else
      var parsed := ParseInt(query.value);
      if parsed.None? || parsed.value == 0 then 5 else parsed.value
  }

  /** A positive number written in decimal is taken as the limit. */
  lemma UpcomingLimitOfNumber(n: nat)
    requires n > 0
    ensures UpcomingLimit(Some(NatToString(n))) == n
  {
    ParseIntOfNatToString(n);
  }

  /** A "0x" query is read in base 16, as `parseInt` without a radix does. */
  lemma UpcomingLimitOfHex(s: string)
    requires s != [] && AllHexDigits(s) && ParseHex(s) > 0
    ensures UpcomingLimit(Some("0x" + s)) == ParseHex(s)
  {
    ParseIntOfHex(s);
  }

  /** Leading white space, of any kind `parseInt` skips, does not change the limit. */
  lemma UpcomingLimitAfterSpace(c: char, n: nat)
    requires IsWhitespace(c) && n > 0
    ensures UpcomingLimit(Some([c] + NatToString(n))) == n
  {
    ParseIntAfterSpace(c, NatToString(n));
    ParseIntOfNatToString(n);
  }

  /** "0", a missing parameter and text that does not start with a number all give the default 5. */
  lemma UpcomingLimitDefaults(s: string)
    requires s != [] && !IsDigit(s[0]) && !IsWhitespace(s[0]) && s[0] != '-' && s[0] != '+'
    ensures UpcomingLimit(Some("0")) == 5 && UpcomingLimit(None) == 5 && UpcomingLimit(Some(s)) == 5
  {
    ParseIntOfDigits("0");
    ParseIntNaN(s);
  }

  /** A negative limit passes through unchanged. */
  lemma UpcomingLimitNegative(n: nat)
    requires n > 0
    ensures UpcomingLimit(Some("-" + NatToString(n))) == -(n as int)
  {
    ParseIntOfNegative(n);
  }

  /** The session user's festivals of their primary religion from today on, earliest first; 404 when
      the user has no preferences. */
  method UpcomingFestivalsRoute(store: MemStorage, session: Session, limitQuery: Option<string>, now: Timestamp, offset: int)
    returns (r: Response<seq<Festival>>)
    requires store.Valid()
    ensures !LoggedIn(session.userId) ==> r == Failure(401, "Unauthorized")
    ensures LoggedIn(session.userId) && Find(store.preferences.Values(), PreferencesOfUser(session.userId.value)).None? ==>
              r == Failure(404, "User preferences not found")
    ensures LoggedIn(session.userId) && Find(store.preferences.Values(), PreferencesOfUser(session.userId.value)).Some? ==>
              var prefs := Find(store.preferences.Values(), PreferencesOfUser(session.userId.value)).value;
              r == Success(200, store.GetUpcomingFestivals(prefs.primaryReligion, UpcomingLimit(limitQuery), now, offset))
  {
    var gate := IsAuthenticated(session.userId);
    if gate.Reject? {
      return Failure(gate.status, gate.message);
    }
    var prefs := store.GetUserPreferences(session.userId.value);
    if prefs.None? {
      return Failure(404, "User preferences not found");
    }
    var limit := UpcomingLimit(limitQuery);
    r := Success(200, store.GetUpcomingFestivals(prefs.value.primaryReligion, limit, now, offset));
  }

  /** A negative `limit` query is not rejected: `slice(0, -n)` drops the last `n` upcoming festivals. */
  lemma NegativeLimitDropsLatest(store: MemStorage, religion: string, n: nat, now: Timestamp, offset: int)
    requires store.Valid() && n > 0
    ensures var all := SortByDate(Filter(store.festivals.Values(), IsUpcoming(religion, now, offset)));
      var r := store.GetUpcomingFestivals(religion, UpcomingLimit(Some("-" + NatToString(n))), now, offset);
      r <= all && |r| == if |all| >= n then |all| - n else 0
  {
    UpcomingLimitNegative(n);
  }

  // ---------------------------------------------------------------------------------------------
  // POST /api/contributions

  /** The posted contribution; `status`, `fileUrl` and `userId` are whatever the client sends. */
  datatype ContributionBody = ContributionBody(
    title: string,
    description: Option<string>,
    content: Option<string>,
    religion: string,
    festival: Option<string>,
    status: Option<string>,
    fileUrl: Option<string>,
    userId: Option<int>)

  /** The row the handler inserts: the five content fields from the body, the session's user, status
      "pending" and no file. */
  function ContributionInsert(userId: int, body: ContributionBody): (ins: InsertContribution)
    ensures ins.userId == userId && ins.status == Some("pending") && ins.fileUrl.None?
    ensures ins.title == body.title && ins.description == body.description && ins.content == body.content
    ensures ins.religion == body.religion && ins.festival == body.festival
  {
    InsertContribution(userId, body.title, body.description, None, body.content, body.religion, body.festival, Some("pending"))
  }

  /** The client cannot choose the owner, the status or the file of a new contribution. */
  lemma ContributionIgnoresClientFields(userId: int, body: ContributionBody, status: Option<string>, fileUrl: Option<string>, owner: Option<int>)
    ensures ContributionInsert(userId, body.(status := status, fileUrl := fileUrl, userId := owner)) == ContributionInsert(userId, body)
  {
  }

  /** Appends the contribution for the session's user and answers 201 with the stored row. */
  method CreateContributionRoute(store: MemStorage, session: Session, body: ContributionBody, now: Timestamp)
    returns (r: Response<Contribution>)
    requires store.Valid() && Integrity(store)
    modifies store`contributions, store`contributionIdCounter
    ensures store.Valid()
    ensures SessionValid(store, session) ==> Integrity(store)
    ensures !LoggedIn(session.userId) ==>
              r == Failure(401, "Unauthorized")
              && store.contributions == old(store.contributions) && store.contributionIdCounter == old(store.contributionIdCounter)
    ensures LoggedIn(session.userId) ==>
              var c := NewContribution(ContributionInsert(session.userId.value, body), old(store.contributionIdCounter), now);
              && r == Success(201, c)
              && store.contributions.Values() == old(store.contributions.Values()) + [c]
              && store.contributions.entries == old(store.contributions.entries)[c.id := c]
              && store.contributionIdCounter == old(store.contributionIdCounter) + 1
  {
    var gate := IsAuthenticated(session.userId);
    if gate.Reject? {
      return Failure(gate.status, gate.message);
    }
    ghost var contributions0 := store.contributions.entries;
    var created := store.CreateContribution(ContributionInsert(session.userId.value, body), now);
    if SessionValid(store, session) {
      NewContributionIntegrity(store.users.entries, store.preferences.entries, contributions0, created);
    }
    r := Success(201, created);
  }

  // ---------------------------------------------------------------------------------------------
  // POST /api/synthesize

  /** A JSON value as far as the checks on `text` look at it. */
  datatype JsonValue = Missing | Null | Bool(b: bool) | Number(n: int) | Str(s: string) | Structured

  /** The voice used when the request names none. */
  const DefaultVoice := "21m00Tcm4TlvDq8ikWAM"

  const TextToSpeechUrl := "https://api.elevenlabs.io/v1/text-to-speech/"

  /** The call to the speech service, or the error answered without making one. */
  datatype SynthesisPlan = CallService(url: string, voiceId: string, text: string) | Refuse(status: int, message: string)

  /** The checks before the call: authentication, a non-empty string `text`, a configured API key; an
      empty or missing `voiceId` falls back to the default voice. */
  function PlanSynthesis(userId: Option<int>, text: JsonValue, voiceId: Option<string>, apiKey: Option<string>): (r: SynthesisPlan)
    ensures r.CallService? <==> LoggedIn(userId) && text.Str? && text.s != "" && apiKey.Some? && apiKey.value != ""
    ensures !LoggedIn(userId) ==> r == Refuse(401, "Unauthorized")
    ensures LoggedIn(userId) && !(text.Str? && text.s != "") ==> r == Refuse(400, "Text is required")
    ensures LoggedIn(userId) && text.Str? && text.s != "" && !(apiKey.Some? && apiKey.value != "") ==>
              r == Refuse(500, "ElevenLabs API key is not configured")
    ensures r.CallService? ==> r.text == text.s && r.url == TextToSpeechUrl + r.voiceId
    ensures r.CallService? ==> r.voiceId == if voiceId.Some? && voiceId.value != "" then voiceId.value else DefaultVoice
  {
    if !LoggedIn(userId) then Refuse(401, "Unauthorized")
    else if !(text.Str? && text.s != "") then Refuse(400, "Text is required")
    else if !(apiKey.Some? && apiKey.value != "") then Refuse(500, "ElevenLabs API key is not configured")
    else
      var voice := if voiceId.Some? && voiceId.value != "" then voiceId.value else DefaultVoice;
      CallService(TextToSpeechUrl + voice, voice, text.s)
  }

  /** A bad `text` is refused with 400 whatever the voice and the configuration. */
  lemma BadTextRefusedFirst(userId: Option<int>, text: JsonValue, v1: Option<string>, k1: Option<string>, v2: Option<string>, k2: Option<string>)
    requires LoggedIn(userId) && !(text.Str? && text.s != "")
    ensures PlanSynthesis(userId, text, v1, k1) == PlanSynthesis(userId, text, v2, k2) == Refuse(400, "Text is required")
  {
  }

  /** What the speech service did: answered with audio (given here already base64-encoded), answered
      with an error status, or failed to be reached. */
  datatype ServiceOutcome = Audio(base64: string) | ServiceError(status: int, details: string) | ServiceThrew(error: string)

  datatype SynthesisReply = SynthesisReply(status: int, success: bool, message: string, audioUrl: Option<string>, details: Option<string>)

  const AudioUrlPrefix := "data:audio/mpeg;base64,"

  /** The answer after the call: the audio as a data URL, the service's own error status, or 500. */
  function ReplyToSynthesis(outcome: ServiceOutcome): (r: SynthesisReply)
    ensures r.success <==> outcome.Audio?
    ensures r.audioUrl.Some? <==> outcome.Audio?
    ensures outcome.Audio? ==> r.status == 200 && r.audioUrl.value == AudioUrlPrefix + outcome.base64
    ensures outcome.ServiceError? ==> r.status == outcome.status && r.details == Some(outcome.details)
    ensures outcome.ServiceThrew? ==> r.status == 500 && r.details == Some(outcome.error)
  {
    match outcome
    case Audio(base64) => SynthesisReply(200, true, "Voice synthesis successful", Some(AudioUrlPrefix + base64), None)
    case ServiceError(status, details) => SynthesisReply(status, false, "Error from ElevenLabs API", None, Some(details))
    case ServiceThrew(error) => SynthesisReply(500, false, "Failed to synthesize voice", None, Some(error))
  }

  /** The audio can be read back from the data URL. */
  lemma AudioUrlRoundTrip(base64: string)
    ensures var url := ReplyToSynthesis(Audio(base64)).audioUrl.value;
      |url| >= |AudioUrlPrefix| && url[..|AudioUrlPrefix|] == AudioUrlPrefix && url[|AudioUrlPrefix|..] == base64
  {
  }

  // ---------------------------------------------------------------------------------------------
  // categorizeDocument

  const PromptBefore := "\n      Analyze the following ritual document and identify:\n      1. Which religion it belongs to (e.g., Hinduism, Buddhism, Christianity, etc.)\n      2. Which festival or occasion it is associated with\n      \n      Text: "

  const PromptAfter := "\n      \n      Return the results in JSON format with \"religion\" and \"festival\" fields.\n    "

  /** The prompt sent to the language model: the document cut at 1000 characters inside fixed text. */
  function CategorizationPrompt(text: string): (p: string)
    ensures |p| == |PromptBefore| + (if |text| <= 1000 then |text| else 1000) + |PromptAfter|
    ensures p[..|PromptBefore|] == PromptBefore && p[|p| - |PromptAfter|..] == PromptAfter
    ensures p[|PromptBefore|..|p| - |PromptAfter|] <= text
  {
    PromptBefore + Take(text, 1000) + PromptAfter
  }

  /** Two documents that agree on their first 1000 characters produce the same prompt. */
  lemma PromptSeesOnlyFirst1000(a: string, b: string)
    requires |a| >= 1000 && |b| >= 1000 && a[..1000] == b[..1000]
    ensures CategorizationPrompt(a) == CategorizationPrompt(b)
  {
    TakeOfSharedPrefix(a, b, 1000);
  }

  /** What the language model call produced: an exception, a reply without content, content that is
      not JSON, or the two fields of the parsed object (`None` for a missing or falsy field). */
  datatype Completion = CompletionThrew | NoContent | NotJson | Fields(religion: Option<string>, festival: Option<string>)

  datatype Category = Category(religion: string, festival: string)

  /** `value || "Unknown"`. */
  function OrUnknown(v: Option<string>): (r: string)
    ensures r != ""
    ensures v.Some? && v.value != "" ==> r == v.value
    ensures !(v.Some? && v.value != "") ==> r == "Unknown"
  {
    if v.Some? && v.value != "" then v.value else "Unknown"
  }

  /** The categorisation result: "Unknown" for each missing field and for every failure. */
  function Categorize(c: Completion): (r: Category)
    ensures r.religion != "" && r.festival != ""
    ensures !c.Fields? ==> r == Category("Unknown", "Unknown")
    ensures c.Fields? ==> r.religion == OrUnknown(c.religion) && r.festival == OrUnknown(c.festival)
  {
    match c
    case Fields(religion, festival) => Category(OrUnknown(religion), OrUnknown(festival))
    case _ => Category("Unknown", "Unknown")
  }
}
