/** The six tables of the relational schema: one datatype per row shape, one per insert shape (the
    columns a caller supplies), one per partial update, and the column constraints (uniqueness,
    defaults, references) as predicates and functions over rows. */
module Schema {
  import opened Wrappers

  /** Milliseconds since the epoch, as `Date.getTime()` returns them. */
  type Timestamp = int

  const MillisPerDay: int := 86400000

  /** The day a timestamp falls on, counted from the epoch (floor division, also for dates before it). */
  function DayOf(t: Timestamp): (d: int)
    ensures d * MillisPerDay <= t < (d + 1) * MillisPerDay
  {
    t / MillisPerDay
  }

  /** `{ ...record, ...update }` for one field: a key present in the update wins. */
  function Override<T>(current: T, update: Option<T>): (r: T)
    ensures update.Some? ==> r == update.value
    ensures update.None? ==> r == current
  {
    update.GetOr(current)
  }

  // ---------------------------------------------------------------------------------------------
  // users

  datatype User = User(
    id: int,
    username: string,
    email: string,
    googleId: string,
    firstName: Option<string>,
    lastName: Option<string>,
    profilePicture: Option<string>,
    createdAt: Timestamp)

  /** The columns `insertUserSchema` picks: everything except `id` and `createdAt`. */
  datatype InsertUser = InsertUser(
    username: string,
    email: string,
    googleId: string,
    firstName: Option<string>,
    lastName: Option<string>,
    profilePicture: Option<string>)

  /** `Partial<User>`: `Some` marks a key the update object carries; a nullable column is carried
      as `Some(None)` when the update sets it to `null` or `undefined`. */
  datatype UserPatch = UserPatch(
    id: Option<int>,
    username: Option<string>,
    email: Option<string>,
    googleId: Option<string>,
    firstName: Option<Option<string>>,
    lastName: Option<Option<string>>,
    profilePicture: Option<Option<string>>,
    createdAt: Option<Timestamp>)

  function NewUser(ins: InsertUser, id: int, createdAt: Timestamp): User
  {
    User(id, ins.username, ins.email, ins.googleId, ins.firstName, ins.lastName, ins.profilePicture, createdAt)
  }

  function UserInsertColumns(u: User): InsertUser
  {
    InsertUser(u.username, u.email, u.googleId, u.firstName, u.lastName, u.profilePicture)
  }

  /** A stored user is its insert columns plus the two the store assigns. */
  lemma NewUserColumns(ins: InsertUser, id: int, createdAt: Timestamp)
    ensures UserInsertColumns(NewUser(ins, id, createdAt)) == ins
    ensures NewUser(ins, id, createdAt).id == id && NewUser(ins, id, createdAt).createdAt == createdAt
  {
  }

  /** `{ ...user, ...update }`. */
  function PatchUser(u: User, p: UserPatch): User
  {
    User(Override(u.id, p.id), Override(u.username, p.username), Override(u.email, p.email),
         Override(u.googleId, p.googleId), Override(u.firstName, p.firstName),
         Override(u.lastName, p.lastName), Override(u.profilePicture, p.profilePicture),
         Override(u.createdAt, p.createdAt))
  }

  /** The update `{ firstName, lastName }`: both keys are always present, whatever their values. */
  function NamePatch(firstName: Option<string>, lastName: Option<string>): (p: UserPatch)
    ensures p.firstName == Some(firstName) && p.lastName == Some(lastName)
    ensures p.id.None? && p.username.None? && p.email.None? && p.googleId.None?
    ensures p.profilePicture.None? && p.createdAt.None?
  {
    UserPatch(None, None, None, None, Some(firstName), Some(lastName), None, None)
  }

  /** Applying a name update changes the two names and nothing else of the user. */
  lemma NamePatchEffect(u: User, firstName: Option<string>, lastName: Option<string>)
    ensures PatchUser(u, NamePatch(firstName, lastName))
         == u.(firstName := firstName, lastName := lastName)
  {
  }

  // ---------------------------------------------------------------------------------------------
  // user_preferences

  datatype UserPreferences = UserPreferences(
    id: int,
    userId: int,
    primaryReligion: string,
    secondaryInterests: Option<seq<string>>,
    languages: Option<seq<string>>,
    festivalReminderDays: Option<int>,
    notifyFestivals: Option<bool>,
    notifyDailyContent: Option<bool>,
    notifyNewContent: Option<bool>,
    notifyCommunityUpdates: Option<bool>,
    notifyEmails: Option<bool>,
    createdAt: Timestamp,
    updatedAt: Timestamp)

  /** The columns `insertPreferencesSchema` picks; `None` is a column the caller leaves out. */
  datatype InsertPreferences = InsertPreferences(
    userId: int,
    primaryReligion: string,
    secondaryInterests: Option<seq<string>>,
    languages: Option<seq<string>>,
    festivalReminderDays: Option<int>,
    notifyFestivals: Option<bool>,
    notifyDailyContent: Option<bool>,
    notifyNewContent: Option<bool>,
    notifyCommunityUpdates: Option<bool>,
    notifyEmails: Option<bool>)

  /** `Partial<UserPreferences>`. */
  datatype PreferencesPatch = PreferencesPatch(
    id: Option<int>,
    userId: Option<int>,
    primaryReligion: Option<string>,
    secondaryInterests: Option<Option<seq<string>>>,
    languages: Option<Option<seq<string>>>,
    festivalReminderDays: Option<Option<int>>,
    notifyFestivals: Option<Option<bool>>,
    notifyDailyContent: Option<Option<bool>>,
    notifyNewContent: Option<Option<bool>>,
    notifyCommunityUpdates: Option<Option<bool>>,
    notifyEmails: Option<Option<bool>>,
    createdAt: Option<Timestamp>,
    updatedAt: Option<Timestamp>)

  function NewPreferences(ins: InsertPreferences, id: int, createdAt: Timestamp): UserPreferences
  {
    UserPreferences(id, ins.userId, ins.primaryReligion, ins.secondaryInterests, ins.languages,
      ins.festivalReminderDays, ins.notifyFestivals, ins.notifyDailyContent, ins.notifyNewContent,
      ins.notifyCommunityUpdates, ins.notifyEmails, createdAt, createdAt)
  }

  function PreferencesInsertColumns(p: UserPreferences): InsertPreferences
  {
    InsertPreferences(p.userId, p.primaryReligion, p.secondaryInterests, p.languages,
      p.festivalReminderDays, p.notifyFestivals, p.notifyDailyContent, p.notifyNewContent,
      p.notifyCommunityUpdates, p.notifyEmails)
  }

  /** A new preferences row is its insert columns, an id, and equal creation and update times. */
  lemma NewPreferencesColumns(ins: InsertPreferences, id: int, createdAt: Timestamp)
    ensures PreferencesInsertColumns(NewPreferences(ins, id, createdAt)) == ins
    ensures NewPreferences(ins, id, createdAt).updatedAt == NewPreferences(ins, id, createdAt).createdAt == createdAt
  {
  }

  /** `{ ...preferences, ...update }`. */
  function PatchPreferences(p: UserPreferences, u: PreferencesPatch): UserPreferences
  {
    UserPreferences(Override(p.id, u.id), Override(p.userId, u.userId),
      Override(p.primaryReligion, u.primaryReligion),
      Override(p.secondaryInterests, u.secondaryInterests), Override(p.languages, u.languages),
      Override(p.festivalReminderDays, u.festivalReminderDays),
      Override(p.notifyFestivals, u.notifyFestivals), Override(p.notifyDailyContent, u.notifyDailyContent),
      Override(p.notifyNewContent, u.notifyNewContent),
      Override(p.notifyCommunityUpdates, u.notifyCommunityUpdates), Override(p.notifyEmails, u.notifyEmails),
      Override(p.createdAt, u.createdAt), Override(p.updatedAt, u.updatedAt))
  }

  /** `{ ...preferences, ...update, updatedAt: now }`: the trailing key beats whatever the update says. */
  function PatchPreferencesAt(p: UserPreferences, u: PreferencesPatch, now: Timestamp): (r: UserPreferences)
    ensures r.updatedAt == now
    ensures r == PatchPreferences(p, u.(updatedAt := None)).(updatedAt := now)
  {
    PatchPreferences(p, u).(updatedAt := now)
  }

  /** The column defaults of user_preferences: what the database stores for a column left out. */
  function WithPreferenceDefaults(ins: InsertPreferences): (r: InsertPreferences)
    ensures r.userId == ins.userId && r.primaryReligion == ins.primaryReligion
    ensures r.secondaryInterests == ins.secondaryInterests && r.languages == ins.languages
    ensures r.festivalReminderDays == Some(ins.festivalReminderDays.GetOr(1))
    ensures r.notifyFestivals == Some(ins.notifyFestivals.GetOr(true))
    ensures r.notifyDailyContent == Some(ins.notifyDailyContent.GetOr(true))
    ensures r.notifyNewContent == Some(ins.notifyNewContent.GetOr(true))
    ensures r.notifyCommunityUpdates == Some(ins.notifyCommunityUpdates.GetOr(false))
    ensures r.notifyEmails == Some(ins.notifyEmails.GetOr(true))
  {
    ins.(festivalReminderDays := Some(ins.festivalReminderDays.GetOr(1)),
         notifyFestivals := Some(ins.notifyFestivals.GetOr(true)),
         notifyDailyContent := Some(ins.notifyDailyContent.GetOr(true)),
         notifyNewContent := Some(ins.notifyNewContent.GetOr(true)),
         notifyCommunityUpdates := Some(ins.notifyCommunityUpdates.GetOr(false)),
         notifyEmails := Some(ins.notifyEmails.GetOr(true)))
  }

  /** Filling in the defaults only touches omitted columns, so doing it twice changes nothing more. */
  lemma PreferenceDefaultsIdempotent(ins: InsertPreferences)
    ensures WithPreferenceDefaults(WithPreferenceDefaults(ins)) == WithPreferenceDefaults(ins)
  {
  }

  // ---------------------------------------------------------------------------------------------
  // festivals

  datatype Festival = Festival(
    id: int,
    name: string,
    description: string,
    religion: string,
    date: Timestamp,
    imageUrl: Option<string>,
    story: Option<string>,
    createdAt: Timestamp)

  datatype InsertFestival = InsertFestival(
    name: string,
    description: string,
    religion: string,
    date: Timestamp,
    imageUrl: Option<string>,
    story: Option<string>)

  function NewFestival(ins: InsertFestival, id: int, createdAt: Timestamp): Festival
  {
    Festival(id, ins.name, ins.description, ins.religion, ins.date, ins.imageUrl, ins.story, createdAt)
  }

  function FestivalInsertColumns(f: Festival): InsertFestival
  {
    InsertFestival(f.name, f.description, f.religion, f.date, f.imageUrl, f.story)
  }

  lemma NewFestivalColumns(ins: InsertFestival, id: int, createdAt: Timestamp)
    ensures FestivalInsertColumns(NewFestival(ins, id, createdAt)) == ins
    ensures NewFestival(ins, id, createdAt).id == id && NewFestival(ins, id, createdAt).createdAt == createdAt
  {
  }

  // ---------------------------------------------------------------------------------------------
  // rituals

  /** A ritual; `steps` is the jsonb column, held here already parsed into its list of step texts. */
  datatype Ritual = Ritual(
    id: int,
    festivalId: Option<int>,
    title: string,
    description: string,
    content: string,
    materials: Option<seq<string>>,
    steps: seq<string>,
    religion: string,
    verified: Option<bool>,
    contributorId: Option<int>,
    createdAt: Timestamp)

  datatype InsertRitual = InsertRitual(
    festivalId: Option<int>,
    title: string,
    description: string,
    content: string,
    materials: Option<seq<string>>,
    steps: seq<string>,
    religion: string,
    verified: Option<bool>,
    contributorId: Option<int>)

  /** `Partial<Ritual>`. */
  datatype RitualPatch = RitualPatch(
    id: Option<int>,
    festivalId: Option<Option<int>>,
    title: Option<string>,
    description: Option<string>,
    content: Option<string>,
    materials: Option<Option<seq<string>>>,
    steps: Option<seq<string>>,
    religion: Option<string>,
    verified: Option<Option<bool>>,
    contributorId: Option<Option<int>>,
    createdAt: Option<Timestamp>)

  function NewRitual(ins: InsertRitual, id: int, createdAt: Timestamp): Ritual
  {
    Ritual(id, ins.festivalId, ins.title, ins.description, ins.content, ins.materials, ins.steps,
      ins.religion, ins.verified, ins.contributorId, createdAt)
  }

  function RitualInsertColumns(r: Ritual): InsertRitual
  {
    InsertRitual(r.festivalId, r.title, r.description, r.content, r.materials, r.steps, r.religion,
      r.verified, r.contributorId)
  }

  lemma NewRitualColumns(ins: InsertRitual, id: int, createdAt: Timestamp)
    ensures RitualInsertColumns(NewRitual(ins, id, createdAt)) == ins
    ensures NewRitual(ins, id, createdAt).id == id && NewRitual(ins, id, createdAt).createdAt == createdAt
  {
  }

  /** `{ ...ritual, ...update }`. */
  function PatchRitual(r: Ritual, u: RitualPatch): Ritual
  {
    Ritual(Override(r.id, u.id), Override(r.festivalId, u.festivalId), Override(r.title, u.title),
      Override(r.description, u.description), Override(r.content, u.content),
      Override(r.materials, u.materials), Override(r.steps, u.steps), Override(r.religion, u.religion),
      Override(r.verified, u.verified), Override(r.contributorId, u.contributorId),
      Override(r.createdAt, u.createdAt))
  }

  /** The column default of rituals.verified; steps has no default and may not be null. */
  function WithRitualDefaults(ins: InsertRitual): (r: InsertRitual)
    ensures r.verified == Some(ins.verified.GetOr(false))
    ensures r.(verified := ins.verified) == ins
  {
    ins.(verified := Some(ins.verified.GetOr(false)))
  }

  // ---------------------------------------------------------------------------------------------
  // bhajans

  datatype Bhajan = Bhajan(
    id: int,
    title: string,
    description: Option<string>,
    youtubeUrl: string,
    bhajanType: string,
    religion: string,
    duration: Option<string>,
    festivalId: Option<int>,
    createdAt: Timestamp)

  datatype InsertBhajan = InsertBhajan(
    title: string,
    description: Option<string>,
    youtubeUrl: string,
    bhajanType: string,
    religion: string,
    duration: Option<string>,
    festivalId: Option<int>)

  function NewBhajan(ins: InsertBhajan, id: int, createdAt: Timestamp): Bhajan
  {
    Bhajan(id, ins.title, ins.description, ins.youtubeUrl, ins.bhajanType, ins.religion, ins.duration,
      ins.festivalId, createdAt)
  }

  function BhajanInsertColumns(b: Bhajan): InsertBhajan
  {
    InsertBhajan(b.title, b.description, b.youtubeUrl, b.bhajanType, b.religion, b.duration, b.festivalId)
  }

  lemma NewBhajanColumns(ins: InsertBhajan, id: int, createdAt: Timestamp)
    ensures BhajanInsertColumns(NewBhajan(ins, id, createdAt)) == ins
    ensures NewBhajan(ins, id, createdAt).id == id && NewBhajan(ins, id, createdAt).createdAt == createdAt
  {
  }

  // ---------------------------------------------------------------------------------------------
  // contributions

  /** A contribution; `status` is `None` only for a row inserted without one into a store that does
      not apply column defaults. */
  datatype Contribution = Contribution(
    id: int,
    userId: int,
    title: string,
    description: Option<string>,
    fileUrl: Option<string>,
    content: Option<string>,
    religion: string,
    festival: Option<string>,
    status: Option<string>,
    createdAt: Timestamp,
    updatedAt: Timestamp)

  datatype InsertContribution = InsertContribution(
    userId: int,
    title: string,
    description: Option<string>,
    fileUrl: Option<string>,
    content: Option<string>,
    religion: string,
    festival: Option<string>,
    status: Option<string>)

  /** `Partial<Contribution>`. */
  datatype ContributionPatch = ContributionPatch(
    id: Option<int>,
    userId: Option<int>,
    title: Option<string>,
    description: Option<Option<string>>,
    fileUrl: Option<Option<string>>,
    content: Option<Option<string>>,
    religion: Option<string>,
    festival: Option<Option<string>>,
    status: Option<Option<string>>,
    createdAt: Option<Timestamp>,
    updatedAt: Option<Timestamp>)

  function NewContribution(ins: InsertContribution, id: int, createdAt: Timestamp): Contribution
  {
    Contribution(id, ins.userId, ins.title, ins.description, ins.fileUrl, ins.content, ins.religion,
      ins.festival, ins.status, createdAt, createdAt)
  }

  function ContributionInsertColumns(c: Contribution): InsertContribution
  {
    InsertContribution(c.userId, c.title, c.description, c.fileUrl, c.content, c.religion, c.festival, c.status)
  }

  lemma NewContributionColumns(ins: InsertContribution, id: int, createdAt: Timestamp)
    ensures ContributionInsertColumns(NewContribution(ins, id, createdAt)) == ins
    ensures NewContribution(ins, id, createdAt).updatedAt == NewContribution(ins, id, createdAt).createdAt == createdAt
  {
  }

  /** `{ ...contribution, ...update }`. */
  function PatchContribution(c: Contribution, u: ContributionPatch): Contribution
  {
    Contribution(Override(c.id, u.id), Override(c.userId, u.userId), Override(c.title, u.title),
      Override(c.description, u.description), Override(c.fileUrl, u.fileUrl),
      Override(c.content, u.content), Override(c.religion, u.religion), Override(c.festival, u.festival),
      Override(c.status, u.status), Override(c.createdAt, u.createdAt), Override(c.updatedAt, u.updatedAt))
  }

  /** `{ ...contribution, ...update, updatedAt: now }`. */
  function PatchContributionAt(c: Contribution, u: ContributionPatch, now: Timestamp): (r: Contribution)
    ensures r.updatedAt == now
    ensures r == PatchContribution(c, u.(updatedAt := None)).(updatedAt := now)
  {
    PatchContribution(c, u).(updatedAt := now)
  }

  /** The column default of contributions.status: never null, "pending" when left out. */
  function WithContributionDefaults(ins: InsertContribution): (r: InsertContribution)
    ensures r.status.Some?
    ensures ins.status.None? ==> r.status == Some("pending")
    ensures ins.status.Some? ==> r == ins
  {
    ins.(status := Some(ins.status.GetOr("pending")))
  }
}
