# YodaGuru core, modelled in Dafny

YodaGuru is a web app for Hindu (and other) festivals, rituals and devotional songs (bhajans).
This project models its core logic and proves properties of the model.

The server side covers these parts:

- **The in-memory store.** `MemStorage` keeps six insertion-ordered tables, each with its own id counter.
- **The route rules built on the store:**
  - the authentication gate;
  - Google login, which finds the user or creates the user with default preferences;
  - the profile update;
  - the preferences upsert;
  - the upcoming-festivals limit;
  - contribution defaults;
  - the checks before and after a speech-synthesis call;
  - the defaults of document categorisation.
- **The record types of the schema**, with their insert columns and column defaults.

The client side covers these parts:

- **The selection functions of the pages.**
  - Explore: search and religion filters.
  - Home: the featured festival of the day.
  - Calendar: date and religion filters, and the festival a `festivalId` parameter names. As written, that parameter never reaches the page (see "## Findings").
  - Contribute: type filter, status labels and share text.
- **The state machines of the components:**
  - the ritual step player and the bhajan playlist player;
  - the notification bells;
  - the preferences editor with its toggled lists;
  - the two contribution uploaders with their shared file drop zone;
  - the authentication hook;
  - the speech-synthesis cache.

## How the model is organised

Each core source file is one module.

- **Pure code becomes functions and lemmas.**
- **Code that updates state becomes a class.** Its fields are the store's tables or the component's `useState` values. Its handlers are methods with `modifies` clauses. Each method's `ensures` states the new state in terms of the old one.
- **Shared helpers:**
  - `Wrappers`: `Option`.
  - `Seqs`: order-preserving filter, subsequence, first match.
  - `Text`: ASCII lower case, substring, `split`/`join`, `parseInt` without a radix (decimal, or hexadecimal after "0x"), decimal printing.
  - `OrderedMaps`: a JavaScript `Map` as a value, its key order plus its entries.
  - `MembershipToggle`: the includes/filter/append updater the client uses three times.
- **Dates** are millisecond timestamps (`int`). A day is the timestamp divided by 86 400 000. The store's local midnight is modelled by a time-zone offset parameter.
- **Outside events are parameters of the methods.** These include the answer of a request, whether playing audio fails, the outcome of the speech service, and the clock. A method that creates several rows takes one `now`, so the constructor stamps every sample row with the same `createdAt`, where the source calls `new Date()` once per row. The order of the rows, and every later comparison with today, are unaffected.

## Model

| member | source | states |
|---|---|---|
| Schema.DayOf | server/storage.ts:250-256 | the day number of a timestamp is the unique day whose span contains it |
| Schema.Override | server/storage.ts:210 | a field present in an update replaces the current value; an absent one keeps it |
| Schema.NewUserColumns | shared/schema.ts:17-24 | a created user keeps exactly the inserted columns; only the id and the creation time come from the store |
| Schema.NamePatch | server/routes.ts:203-206 | the profile update names only the two names and no other column |
| Schema.NamePatchEffect | server/routes.ts:203-206 | applying the profile update changes the two names and nothing else |
| Schema.NewPreferencesColumns | shared/schema.ts:43-55 | created preferences keep the inserted columns; creation and update time are the same instant |
| Schema.PatchPreferencesAt | server/storage.ts:234-241 | an update always sets the update time to now; the update's own `updatedAt` cannot override it |
| Schema.WithPreferenceDefaults | shared/schema.ts:33-38 | a missing reminder count becomes 1, missing community updates false, every other missing flag true; given values are kept |
| Schema.PreferenceDefaultsIdempotent | shared/schema.ts:33-38 | filling in defaults twice is the same as once |
| Schema.NewFestivalColumns | shared/schema.ts:68-76 | a created festival keeps the inserted columns; id and creation time come from the store |
| Schema.NewRitualColumns | shared/schema.ts:92-103 | a created ritual keeps the inserted columns; id and creation time come from the store |
| Schema.WithRitualDefaults | shared/schema.ts:87 | `verified` defaults to false and no other column changes |
| Schema.NewBhajanColumns | shared/schema.ts:117-126 | a created bhajan keeps the inserted columns; id and creation time come from the store |
| Schema.NewContributionColumns | shared/schema.ts:142-151 | a created contribution keeps the inserted columns; creation and update time are the same instant |
| Schema.PatchContributionAt | server/storage.ts:368-375 | an update always sets the update time to now; the update's own `updatedAt` cannot override it |
| Schema.WithContributionDefaults | shared/schema.ts:137 | the status is never empty: a missing one becomes "pending", a given one is kept |
| OrderedMaps.OrderedMap.Get | server/storage.ts:176-178 | a key yields its entry exactly when it is stored |
| OrderedMaps.OrderedMap.Values | server/storage.ts:266-268 | the values come in key order, one per key |
| OrderedMaps.Empty | server/storage.ts:65-72 | a new map has no keys and no entries |
| OrderedMaps.SetValid | server/storage.ts:201-202 | setting a key keeps the map well formed, stores the value and leaves every other key's entry alone |
| OrderedMaps.SetNewValues | server/storage.ts:201-202 | setting a new key appends it and its value at the end of the iteration order |
| OrderedMaps.SetExistingValues | server/storage.ts:210-211 | setting an existing key replaces its value in place and keeps the order |
| Storage.LocalMidnight | server/storage.ts:250-256 | `setHours(0,0,0,0)` gives the local midnight at or before the time, less than a day before it |
| Storage.LocalMidnightOrder | server/storage.ts:271-280 | comparing local midnights is comparing local day numbers, both for equality and for order |
| Storage.InsertByDate | server/storage.ts:283 | inserting into the date order adds exactly the one festival |
| Storage.InsertByDateSorted | server/storage.ts:283 | inserting into a date-sorted list keeps it sorted |
| Storage.SortByDate | server/storage.ts:283 | the sort returns a permutation of its input in ascending date order |
| Storage.InsertByDateOnDate | server/storage.ts:283 | insertion places a festival after those of the same date already there |
| Storage.SortByDateStable | server/storage.ts:283 | the sort is stable: festivals of one date keep their input order |
| Storage.SortByDateOfSorted | server/storage.ts:283 | sorting a sorted list changes nothing |
| Storage.SortByDateMembers | server/storage.ts:283 | the sorted list has the same members as its input |
| Storage.UpcomingMatches | server/storage.ts:275-282 | every festival the upcoming filter keeps is stored, of the religion ignoring case, and not before today |
| Storage.Upcoming | server/storage.ts:270-285 | upcoming festivals are a prefix of the sorted, filtered list; they are sorted, of the religion and today or later; exactly min(limit, matching) of them for a limit of 0 or more, and the matching count less the limit's size for a negative one; everything when the limit covers the table |
| Storage.UpcomingWithoutCut | server/storage.ts:284 | a limit at least the table's size cuts nothing |
| Storage.IdsBelow | server/storage.ts:73-78 | the ids a counter has handed out are 1 up to the counter minus one |
| Storage.TableValidMap | server/storage.ts:73-78 | in a table the store built, ids strictly increase in insertion order and are below the counter |
| Storage.TableInsert | server/storage.ts:198-204 | the counter is never a stored id, and inserting under it keeps the table valid with the next counter, appending the row |
| Storage.TableReplace | server/storage.ts:206-213 | replacing a stored row keeps the table valid and its key order |
| Storage.TableNoMatch | server/storage.ts:180-187 | when no value in iteration order matches, no stored entry matches |
| Storage.TableFoundEntry | server/storage.ts:180-187 | a row found by iteration is a stored entry |
| Storage.MemStorage.constructor | server/storage.ts:65-82 | empty user, preference and contribution tables with counters at 1; the three sample festivals, two bhajans and one ritual get ids 1.., in that order |
| Storage.MemStorage.InitializeSampleData | server/storage.ts:84-175 | the sample rows are appended in source order under consecutive ids and each counter advances by their number |
| Storage.MemStorage.CreateFestivals | server/storage.ts:111-113 | three festivals are appended in order under the next three ids |
| Storage.MemStorage.CreateBhajans | server/storage.ts:135-136 | two bhajans are appended in order under the next two ids |
| Storage.MemStorage.GetUser | server/storage.ts:176-178 | a user is found exactly when the id is stored, and is the stored row |
| Storage.MemStorage.GetUserByEmail | server/storage.ts:180-187 | the first user in insertion order with that email; none exactly when no user has it |
| Storage.MemStorage.GetUserByGoogleId | server/storage.ts:189-196 | the first user in insertion order with that Google id; none exactly when no user has it |
| Storage.MemStorage.CreateUser | server/storage.ts:198-204 | the new user gets the counter as id, above every stored id; the counter advances; only this entry is added, at the end |
| Storage.MemStorage.UpdateUser | server/storage.ts:206-213 | an unknown id changes nothing and yields nothing; a known one becomes the old row overridden by exactly the update's fields, in place |
| Storage.MemStorage.GetUserPreferences | server/storage.ts:216-223 | the first preferences row of the user; none exactly when the user has none |
| Storage.MemStorage.CreateUserPreferences | server/storage.ts:225-232 | the new row gets the counter as id; created and updated now; appended at the end |
| Storage.MemStorage.UpdateUserPreferences | server/storage.ts:234-241 | an unknown id changes nothing; a known row is overridden by the update and its update time is always now |
| Storage.MemStorage.GetFestival | server/storage.ts:244-246 | a festival is found exactly when the id is stored |
| Storage.MemStorage.GetFestivalsByDate | server/storage.ts:248-258 | exactly the stored festivals on the same local day, in insertion order |
| Storage.MemStorage.GetFestivalsByReligion | server/storage.ts:260-264 | exactly the stored festivals whose religion matches ignoring case, in insertion order |
| Storage.MemStorage.GetAllFestivals | server/storage.ts:266-268 | every stored festival once, in key order |
| Storage.MemStorage.GetUpcomingFestivals | server/storage.ts:270-285 | a prefix of the stored festivals of the religion from today on, sorted by date; exactly min(limit, matching) of them for a limit of 0 or more; all of them when the limit covers the table |
| Storage.MemStorage.CreateFestival | server/storage.ts:287-294 | the counter is the new id, the counter advances, the festival is appended |
| Storage.MemStorage.GetRitual | server/storage.ts:296-298 | a ritual is found exactly when the id is stored |
| Storage.MemStorage.GetRitualsByFestival | server/storage.ts:300-304 | exactly the rituals of that festival, in insertion order |
| Storage.MemStorage.GetRitualsByReligion | server/storage.ts:306-310 | exactly the rituals whose religion matches ignoring case, in insertion order |
| Storage.MemStorage.CreateRitual | server/storage.ts:312-318 | the counter is the new id, the counter advances, the ritual is appended |
| Storage.MemStorage.UpdateRitual | server/storage.ts:320-327 | an unknown id changes nothing; a known row is overridden by exactly the update's fields, in place |
| Storage.MemStorage.GetBhajan | server/storage.ts:330-332 | a bhajan is found exactly when the id is stored |
| Storage.MemStorage.GetBhajansByFestival | server/storage.ts:334-338 | exactly the bhajans of that festival, in insertion order |
| Storage.MemStorage.CreateBhajan | server/storage.ts:340-347 | the counter is the new id, the counter advances, the bhajan is appended |
| Storage.MemStorage.GetContribution | server/storage.ts:349-351 | a contribution is found exactly when the id is stored |
| Storage.MemStorage.GetContributionsByUser | server/storage.ts:353-357 | exactly the user's contributions, in insertion order |
| Storage.MemStorage.CreateContribution | server/storage.ts:359-366 | the counter is the new id, created and updated now, appended at the end |
| Storage.MemStorage.UpdateContribution | server/storage.ts:368-375 | an unknown id changes nothing; a known row is overridden by the update and its update time is always now |
| Storage.FestivalsByReligionIgnoresCase | server/storage.ts:262 | two spellings of a religion that differ only in case select the same festivals |
| Storage.UpcomingKeepsInsertionOrder | server/storage.ts:283 | upcoming festivals of one date come out in insertion order |
| Routes.Session.constructor | server/routes.ts:16-27 | a new session has no user |
| Routes.IsAuthenticated | server/routes.ts:30-35 | the route runs exactly when the session's user id is truthy; otherwise 401 "Unauthorized" |
| Routes.FreshStoreIntegrity | shared/schema.ts:6-15 | an empty store satisfies the cross-table invariant |
| Routes.NewUserIntegrity | server/routes.ts:89-115 | adding a user with a fresh Google id together with their preferences keeps ids, unique Google ids, owners and one-row-per-user |
| Routes.NewPreferencesIntegrity | server/routes.ts:268-273 | adding the first preferences row of a stored user keeps the invariant |
| Routes.ReplacePreferencesIntegrity | server/routes.ts:274-277 | replacing a preferences row under its id with the same owner keeps the invariant |
| Routes.ReplaceUserIntegrity | server/routes.ts:203-206 | replacing a user under its id with the same Google id keeps the invariant |
| Routes.NewContributionIntegrity | server/routes.ts:421-430 | adding a contribution of a stored user under a fresh id keeps the invariant |
| Routes.ViewOf | server/routes.ts:118-127 | the user fields sent back are the stored ones |
| Routes.ViewHidesGoogleIdAndCreation | server/routes.ts:118-127 | the response does not depend on the Google id or the creation time |
| Routes.LoginInsert | server/routes.ts:93-100 | a new user is created from exactly the posted account fields |
| Routes.LoginPreferences | server/routes.ts:103-114 | first-login preferences: Hinduism, no interests, English, 3 days, community updates off, every other flag on |
| Routes.LoginWithGoogle | server/routes.ts:84-131 | an existing Google id creates nothing and logs in as the first such user; a new one appends exactly one user and one preferences row; the session then names the user and the response is the user's view; the invariant is kept |
| Routes.UpdateProfile | server/routes.ts:195-223 | 401 without a session; 404 for an unknown user; otherwise exactly the two names change and the updated view is sent |
| Routes.ParsePreferences | server/routes.ts:252-264 | among bodies of the declared field types, validation fails exactly when the religion is missing, and it keeps every other field as posted |
| Routes.Flatten | server/routes.ts:266-277 | a key left out and a key set to null both leave the column without a value |
| Routes.FormInsert | server/routes.ts:270-273 | a first row holds the user id and the validated fields |
| Routes.FormPatch | server/routes.ts:276 | the update carries the validated fields and never an id, owner or timestamp |
| Routes.FormPatchKeepsIdentity | server/routes.ts:276 | updating a row with a validated form keeps its id, owner and creation time |
| Routes.SavePreferences | server/routes.ts:266-277 | a user without preferences gets one new row; otherwise their first row is updated in place and no row is added |
| Routes.UpsertPreferences | server/routes.ts:246-283 | 401 without a session and 500 for a body without a religion, changing nothing; otherwise create-or-update as above, never a second row per user |
| Routes.UpcomingLimit | server/routes.ts:329 | the limit is the number the query starts with (after white space and a sign, hexadecimal after "0x"), or 5 when it is missing, not a number, or 0 |
| Routes.UpcomingLimitOfNumber | server/routes.ts:329 | a positive decimal number is taken as the limit |
| Routes.UpcomingLimitDefaults | server/routes.ts:329 | "0", no parameter and text that does not start with a number give 5 |
| Routes.UpcomingLimitNegative | server/routes.ts:329 | a negative number passes through unchanged |
| Routes.UpcomingLimitOfHex | server/routes.ts:329 | a "0x" query is read in base 16, as `parseInt` without a radix does |
| Routes.UpcomingLimitAfterSpace | server/routes.ts:329 | leading white space of any kind `parseInt` skips does not change the limit |
| Routes.UpcomingFestivalsRoute | server/routes.ts:317-336 | 401 without a session; 404 without preferences; otherwise the store's upcoming festivals for the user's primary religion and the parsed limit |
| Routes.NegativeLimitDropsLatest | server/routes.ts:329-330 | a limit of -n drops the last n upcoming festivals instead of being refused |
| Routes.ContributionInsert | server/routes.ts:421-430 | the stored row takes the content fields from the body, the session's user, status "pending" and no file |
| Routes.ContributionIgnoresClientFields | server/routes.ts:421-430 | the client cannot choose the owner, status or file of a contribution |
| Routes.CreateContributionRoute | server/routes.ts:413-436 | 401 without a session and nothing stored; otherwise exactly one row is appended and answered with 201 |
| Routes.PlanSynthesis | server/routes.ts:440-461 | the service is called exactly when logged in, the text is a non-empty string and a key is configured; errors 401, 400, 500 in that order; a falsy voice becomes the default voice |
| Routes.BadTextRefusedFirst | server/routes.ts:446-450 | bad text is refused with 400 whatever the voice and the configuration |
| Routes.ReplyToSynthesis | server/routes.ts:480-507 | success and an audio URL exactly when the service returns audio; a service error keeps its status; a throw answers 500 |
| Routes.AudioUrlRoundTrip | server/routes.ts:491-493 | the audio can be read back from the data URL |
| Routes.CategorizationPrompt | server/routes.ts:47-55 | the prompt holds fixed text around the first 1000 characters of the document |
| Routes.PromptSeesOnlyFirst1000 | server/routes.ts:52 | documents that agree on their first 1000 characters get the same prompt |
| Routes.OrUnknown | server/routes.ts:63-76 | a present, non-empty value is kept, anything else becomes "Unknown" |
| Routes.Categorize | server/routes.ts:45-77 | both fields are never empty; every failure, and a reply without content, gives "Unknown" for both |
| MembershipToggle.Toggle | client/src/pages/Preferences.tsx:164-170 | a present value is removed everywhere it occurs; an absent one is appended |
| MembershipToggle.ToggleFlips | client/src/pages/Preferences.tsx:164-178 | toggling flips the value's membership and no other value's |
| MembershipToggle.ToggleRemovesInOrder | client/src/pages/Preferences.tsx:166-168 | removal keeps the other values in their order and shortens the list |
| MembershipToggle.FilterFullLength | client/src/pages/Preferences.tsx:166 | a filter that keeps the full length kept every element |
| MembershipToggle.ToggleTwice | client/src/pages/Preferences.tsx:164-170 | toggling an absent value twice gives the list back |
| MembershipToggle.SubsequenceNoDuplicates | client/src/pages/Preferences.tsx:166 | an order-preserving selection of a duplicate-free list is duplicate-free |
| MembershipToggle.SubsequenceMembers | client/src/pages/Preferences.tsx:166 | an order-preserving selection holds only members of its source |
| MembershipToggle.ToggleKeepsNoDuplicates | client/src/pages/Preferences.tsx:164-178 | toggling never introduces a duplicate |
| PreferencesPage.DefaultValues | client/src/pages/Preferences.tsx:81-91 | the form starts at hinduism, no interests, english, 3 days, community updates off, the other flags on |
| PreferencesPage.LoadedValues | client/src/pages/Preferences.tsx:102-117 | loaded preferences fill the form; missing lists fall back to [] and ["english"] |
| PreferencesPage.PreferencesPayload | client/src/pages/Preferences.tsx:138-162 | the posted body is the form with the two toggled lists in place of the form's lists |
| PreferencesPage.PayloadStoresSelections | client/src/pages/Preferences.tsx:141-145 | the server accepts the body and stores exactly the toggled lists |
| PreferencesPage.LoadThenSaveKeepsRow | client/src/pages/Preferences.tsx:102-117 | saving loaded preferences unchanged keeps the row's fields apart from its update time |
| PreferencesPage.LoadThenSaveFillsLanguage | client/src/pages/Preferences.tsx:106 | a row without languages is saved back with ["english"] |
| PreferencesPage.ProfileDefaults | client/src/pages/Preferences.tsx:95-100 | the profile form starts from the user's names, empty when missing |
| PreferencesPage.ValidateProfile | client/src/pages/Preferences.tsx:37-40 | the profile is accepted exactly when both names are non-empty |
| PreferencesPage.PreferencesEditor.constructor | client/src/pages/Preferences.tsx:49-91 | default form values and empty selections |
| PreferencesPage.PreferencesEditor.Load | client/src/pages/Preferences.tsx:102-117 | the form and both selections take the loaded values, with the list fallbacks |
| PreferencesPage.PreferencesEditor.ToggleInterest | client/src/pages/Preferences.tsx:164-170 | the interest's membership flips and a duplicate-free list stays duplicate-free |
| PreferencesPage.PreferencesEditor.ToggleLanguage | client/src/pages/Preferences.tsx:172-178 | the language's membership flips and a duplicate-free list stays duplicate-free |
| PreferencesPage.PreferencesEditor.Submit | client/src/pages/Preferences.tsx:138-162 | the body carries the current selections |
| UpcomingFestivalsCard.ViewOf | client/src/components/home/UpcomingFestivals.tsx:25-60 | loading shows three skeletons; no or no festivals shows the empty state; otherwise the cards are the festivals |
| UpcomingFestivalsCard.BellIcon | client/src/components/home/UpcomingFestivals.tsx:122 | the bell is active exactly for notified festivals |
| UpcomingFestivalsCard.BellClass | client/src/components/home/UpcomingFestivals.tsx:118 | the highlight class is on exactly for notified festivals |
| UpcomingFestivalsCard.ToggleFlipsOnlyThatBell | client/src/components/home/UpcomingFestivals.tsx:15-23 | a toggle flips that festival's bell and no other |
| UpcomingFestivalsCard.CardLink | client/src/components/home/UpcomingFestivals.tsx:97 | the card links to the calendar with the festival id as query |
| UpcomingFestivalsCard.NotificationBells.constructor | client/src/components/home/UpcomingFestivals.tsx:13 | no festival is notified at first |
| UpcomingFestivalsCard.NotificationBells.ToggleNotification | client/src/components/home/UpcomingFestivals.tsx:15-23 | that id's membership flips, no other id's; removal keeps order; a new id is appended |
| RitualPlayback.StepCounter | client/src/components/priest/RitualPlayer.tsx:213 | the caption is "Step n of m" with n one more than the index |
| RitualPlayback.RitualPlayer.constructor | client/src/components/priest/RitualPlayer.tsx:21-25 | step 0, not playing, no audio, first spiritual voice |
| RitualPlayback.RitualPlayer.PlayIcon | client/src/components/priest/RitualPlayer.tsx:197 | the pause icon exactly while playing |
| RitualPlayback.RitualPlayer.PausePlayback | client/src/components/priest/RitualPlayer.tsx:65-70 | playing stops |
| RitualPlayback.RitualPlayer.OnEnded | client/src/components/priest/RitualPlayer.tsx:220 | the end of the audio stops playing |
| RitualPlayback.RitualPlayer.NextDisabled | client/src/components/priest/RitualPlayer.tsx:205 | for a ritual with steps the next button is disabled exactly when it would not move; without steps it stays enabled |
| RitualPlayback.RitualPlayer.PreviousDisabled | client/src/components/priest/RitualPlayer.tsx:186 | the previous button is disabled exactly when it would not move |
| RitualPlayback.RitualPlayer.NextStep | client/src/components/priest/RitualPlayer.tsx:72-77 | before the last step it advances and stops playing; otherwise, and whenever its button is disabled, nothing changes; the step stays in range |
| RitualPlayback.RitualPlayer.PreviousStep | client/src/components/priest/RitualPlayer.tsx:79-84 | after the first step, exactly when its button is enabled, it goes back and stops playing; otherwise nothing changes; the step stays in range |
| RitualPlayback.RitualPlayer.PlayStep | client/src/components/priest/RitualPlayer.tsx:40-63 | nothing without a step; otherwise the step's text is requested and the player is playing; a returned URL becomes the source; a throw stops playing |
| RitualPlayback.RitualPlayer.PlayButton | client/src/components/priest/RitualPlayer.tsx:194 | pauses while playing; otherwise plays the step, playing afterwards exactly when the request did not throw |
| PlaylistPlayback.FormatTime | client/src/components/audio/PlaylistPlayer.tsx:97-101 | minutes, a colon and two digits of seconds |
| PlaylistPlayback.SecondsField | client/src/components/audio/PlaylistPlayer.tsx:100 | the seconds field is two digits naming the seconds below 60 |
| PlaylistPlayback.ParseFormatTime | client/src/components/audio/PlaylistPlayer.tsx:97-101 | reading the display back as minutes*60 + seconds gives the time |
| PlaylistPlayback.VolumeIcon | client/src/components/audio/PlaylistPlayer.tsx:193 | off at 0, down below 50, up otherwise |
| PlaylistPlayback.EntryIcon | client/src/components/audio/PlaylistPlayer.tsx:132 | the pause sign exactly on the playing track |
| PlaylistPlayback.TitleLine | client/src/components/audio/PlaylistPlayer.tsx:108 | the current track's title, or the placeholder without a track or title |
| PlaylistPlayback.PlaylistPlayer.constructor | client/src/components/audio/PlaylistPlayer.tsx:13-17 | track 0, stopped, time and length 0, volume 80 |
| PlaylistPlayback.PlaylistPlayer.TrackChanged | client/src/components/audio/PlaylistPlayer.tsx:29-33 | with audio the track rewinds and keeps playing unless starting fails |
| PlaylistPlayback.PlaylistPlayer.MoveTo | client/src/components/audio/PlaylistPlayer.tsx:29-33 | the cursor moves; the rewind runs only when the track actually changes |
| PlaylistPlayback.PlaylistPlayer.HandlePlay | client/src/components/audio/PlaylistPlayer.tsx:42-53 | with audio, playing flips; without, nothing changes |
| PlaylistPlayback.PlaylistPlayer.HandleTimeUpdate | client/src/components/audio/PlaylistPlayer.tsx:55-59 | the display takes the element's position |
| PlaylistPlayback.PlaylistPlayer.HandleLoadedMetadata | client/src/components/audio/PlaylistPlayer.tsx:61-65 | the length takes the element's duration |
| PlaylistPlayback.PlaylistPlayer.HandleSeek | client/src/components/audio/PlaylistPlayer.tsx:67-72 | element and display both move to the slider value |
| PlaylistPlayback.PlaylistPlayer.HandleEnded | client/src/components/audio/PlaylistPlayer.tsx:74-83 | the next track follows; after the last the player stops and rewinds; the index stays in range |
| PlaylistPlayback.PlaylistPlayer.HandlePrevious | client/src/components/audio/PlaylistPlayer.tsx:85-89 | goes back one track, rewinding it and playing on unless starting fails; a no-op on the first; in range |
| PlaylistPlayback.PlaylistPlayer.HandleNext | client/src/components/audio/PlaylistPlayer.tsx:91-95 | goes on one track, rewinding it and playing on unless starting fails; a no-op on the last; in range |
| PlaylistPlayback.PlaylistPlayer.SelectTrack | client/src/components/audio/PlaylistPlayer.tsx:129 | a click on entry i makes i current; a different entry is rewound and plays on unless starting fails, the current one changes nothing |
| PlaylistPlayback.PlaylistPlayer.SetVolume | client/src/components/audio/PlaylistPlayer.tsx:195-202 | the volume takes the slider value |
| ContributePage.FilterContributions | client/src/pages/Contribute.tsx:32-37 | exactly the contributions of the kind, in order |
| ContributePage.AllKeepsEverything | client/src/pages/Contribute.tsx:33 | "all" keeps the list as it is |
| ContributePage.KindsPartition | client/src/pages/Contribute.tsx:34-35 | calendars and rituals are disjoint, together make up the list and their sizes add up |
| ContributePage.RowIcon | client/src/pages/Contribute.tsx:182 | the calendar icon exactly for rows the calendars filter keeps, the document icon exactly for the others |
| ContributePage.StatusText | client/src/pages/Contribute.tsx:52-63 | the three known statuses get their labels; every other status is "Unknown" |
| ContributePage.StatusColor | client/src/pages/Contribute.tsx:39-50 | the three known statuses get their colours; every other status the neutral class |
| ContributePage.BadgeAgrees | client/src/pages/Contribute.tsx:39-63 | the label is "Unknown" exactly when the colour is neutral |
| ContributePage.NewContributionsShowPending | client/src/pages/Contribute.tsx:52-63 | every contribution the server creates shows "Pending Review" |
| ContributePage.ShareText | client/src/pages/Contribute.tsx:65-68 | the share text is the fixed prefix followed by the title |
| PreferencesHook.PrimaryReligion | client/src/hooks/useUserPreferences.ts:8-24 | the hook's religion is "hinduism" until preferences load, then the loaded row's religion |
| ExplorePage.BeforeLoadShowsHindu | client/src/pages/Explore.tsx:29-56 | before preferences load, and without preferences, Explore lists the Hindu festivals |
| ExplorePage.FilteredContent | client/src/pages/Explore.tsx:45-71 | exactly the festivals and bhajans matching the query and the religion, in order; "bhajans" empties the festivals; missing data gives empty lists |
| ExplorePage.QueryIgnoresCase | client/src/pages/Explore.tsx:46 | queries that differ only in case give the same result |
| ExplorePage.TypeKeepsBhajans | client/src/pages/Explore.tsx:67-70 | the type never changes the bhajan list |
| ExplorePage.EmptyQueryKeepsReligion | client/src/pages/Explore.tsx:51-56 | an empty query keeps every festival of the religion |
| ExplorePage.PlayStory | client/src/pages/Explore.tsx:75-81 | stops while playing, otherwise plays the story's text |
| HomePage.FeaturedFestival | client/src/pages/Home.tsx:29-34 | the first of today's festivals of the user's religion, else the first one, else none; always one of today's |
| HomePage.FeaturedPrefersReligion | client/src/pages/Home.tsx:29-31 | when one of today's festivals has the religion, the featured one has it and none before it does |
| HomePage.WithoutPreferencesFirstIsFeatured | client/src/pages/Home.tsx:34 | without preferences the first festival is featured |
| HomePage.Greeting | client/src/pages/Home.tsx:41 | "Namaste" with the first name, or "Friend" without one |
| CalendarPage.ParamIn | client/src/pages/Calendar.tsx:21 | a found value comes from one of the query's pairs for that key |
| CalendarPage.QueryParam | client/src/pages/Calendar.tsx:21 | a location without '?' has no parameters |
| CalendarPage.CardLinkParam | client/src/pages/Calendar.tsx:21 | splitting a whole card link as line 21 does gives back the card's festival id (the page as written never receives the whole link: see "## Findings") |
| CalendarPage.ParamInFirst | client/src/pages/Calendar.tsx:21 | the first pair for a key gives its value |
| CalendarPage.CardLinkQuery | client/src/pages/Calendar.tsx:21 | a card link splits into the path and one query pair |
| CalendarPage.IdHasNoQuerySeparators | client/src/pages/Calendar.tsx:21 | a printed id contains neither '?' nor '&' |
| CalendarPage.Dates | client/src/pages/Calendar.tsx:43 | the dates of the festivals, one each, in order |
| CalendarPage.FestivalDates | client/src/pages/Calendar.tsx:37-44 | the highlighted dates are those of the festivals passing the religion filter; none without data |
| CalendarPage.FestivalsForDate | client/src/pages/Calendar.tsx:47-62 | an order-preserving selection of the festivals; none without data |
| CalendarPage.FestivalsForDateExact | client/src/pages/Calendar.tsx:47-62 | a festival is listed exactly when it is on the same UTC day and passes the religion filter |
| CalendarPage.AllReligionsKeepsDay | client/src/pages/Calendar.tsx:39-41 | with "all" or "" every festival of the day is listed |
| CalendarPage.ListedFestivalsAreHighlighted | client/src/pages/Calendar.tsx:37-62 | every listed festival's date is highlighted |
| CalendarPage.SelectedFestivalListed | client/src/pages/Calendar.tsx:74-86 | a festival selected by the parameter is listed for its own date and religion |
| CalendarPage.CalendarState.constructor | client/src/pages/Calendar.tsx:25-27 | today selected, all religions, no festival, nothing listed |
| CalendarPage.CalendarState.PresetReligion | client/src/pages/Calendar.tsx:30-34 | the hook's lowercased religion ("hinduism" before the preferences load) is preset exactly when it is not empty and there is no festival parameter |
| CalendarPage.CalendarState.RefreshDateFestivals | client/src/pages/Calendar.tsx:67-71 | with a date, the listed festivals are those of that date and religion |
| CalendarPage.CalendarState.SelectFromParam | client/src/pages/Calendar.tsx:74-86 | the first festival whose id `parseInt` reads from the parameter (decimal, or hexadecimal after "0x") is selected with its date and its lowercased religion; an unknown id changes nothing |
| CalendarPage.HexParamSelects | client/src/pages/Calendar.tsx:77 | a "0x" parameter names the festival whose id is its hexadecimal value |
| CalendarPage.RouterLocation | client/src/pages/Calendar.tsx:19 | the location wouter's `useLocation` yields is the path, which never holds a '?' |
| CalendarPage.PageParamAlwaysMissing | client/src/pages/Calendar.tsx:19-21 | as written, the `festivalId` parameter is missing whatever URL is open |
| CalendarPage.CardLinkSelectsNothing | client/src/components/home/UpcomingFestivals.tsx:97 | as written, following a card link to "/calendar?festivalId=<id>" selects no festival |
| CalendarPage.IntendedLocationIsUrl | client/src/pages/Calendar.tsx:19-21 | the path followed by the search string is the whole URL, so splitting it at '?' finds the query |
| CalendarPage.CardLinkSelects | client/src/pages/Calendar.tsx:74-86 | with the parameter read from the path and search string, following a card link selects the first festival with that id and lists it on its day |
| Uploads.CheckFile | client/src/components/contribute/DocumentUploader.tsx:68-92 | accepted exactly at 10 MB or less with an allowed type; too large is checked before the type |
| Uploads.RejectionTitle | client/src/components/contribute/DocumentUploader.tsx:73-88 | a toast exactly for a rejected file |
| Uploads.DropZone.constructor | client/src/components/contribute/CalendarUploader.tsx:39-40 | no file and no highlight |
| Uploads.DropZone.ChooseFiles | client/src/components/contribute/DocumentUploader.tsx:68-92 | an empty selection does nothing; the first file is checked; only an accepted file replaces the kept one |
| Uploads.DropZone.Drop | client/src/components/contribute/CalendarUploader.tsx:95-122 | the highlight goes off and the dropped files are checked as a selection |
| Uploads.DropZone.DragOver | client/src/components/contribute/CalendarUploader.tsx:86-89 | the highlight goes on |
| Uploads.DropZone.DragLeave | client/src/components/contribute/CalendarUploader.tsx:91-93 | the highlight goes off |
| Uploads.DropZone.RemoveFile | client/src/components/contribute/DocumentUploader.tsx:190-199 | the file is removed |
| DocumentUpload.FormErrors | client/src/components/contribute/DocumentUploader.tsx:21-33 | no message exactly when title, description and religion pass; each message exactly when its rule fails |
| DocumentUpload.FilteredFestivals | client/src/components/contribute/DocumentUploader.tsx:62-66 | nothing before a religion is chosen; then exactly the festivals of the religion ignoring case, in order |
| DocumentUpload.FestivalSelectDisabled | client/src/components/contribute/DocumentUploader.tsx:267 | disabled exactly without a religion or with no festival to offer |
| DocumentUpload.FestivalSelectUsable | client/src/components/contribute/DocumentUploader.tsx:62-66 | with a religion the select is usable exactly when festivals are loading or one has that religion |
| DocumentUpload.DocumentPayload | client/src/components/contribute/DocumentUploader.tsx:132-157 | the body is the form with status "pending" |
| DocumentUpload.DocumentStored | client/src/components/contribute/DocumentUploader.tsx:132-157 | the server stores the form's text pending review, listed as a calendar exactly when the title says so |
| DocumentUpload.DocumentUploader.constructor | client/src/components/contribute/DocumentUploader.tsx:49-58 | empty form and a document drop zone |
| DocumentUpload.DocumentUploader.Edit | client/src/components/contribute/DocumentUploader.tsx:49-58 | the form takes the typed values |
| DocumentUpload.DocumentUploader.Cancel | client/src/components/contribute/DocumentUploader.tsx:291-294 | the form goes back to empty and the file is removed |
| DocumentUpload.DocumentUploader.Submit | client/src/components/contribute/DocumentUploader.tsx:132-157 | a broken rule sends nothing; a valid form is posted; acceptance resets the form and removes the file; a failure changes nothing |
| CalendarUpload.EmptyForm | client/src/components/contribute/CalendarUploader.tsx:47-57 | empty fields and the current year, which reads back as that year |
| CalendarUpload.YearOptions | client/src/components/contribute/CalendarUploader.tsx:44-45 | five years are offered |
| CalendarUpload.YearOptionReadsBack | client/src/components/contribute/CalendarUploader.tsx:44-45 | the i-th option is the current year plus i |
| CalendarUpload.FormErrors | client/src/components/contribute/CalendarUploader.tsx:21-34 | the document rules plus a year of exactly four characters, each message exactly when its rule fails |
| CalendarUpload.FourDigitYear | client/src/components/contribute/CalendarUploader.tsx:33 | years 1000 to 9999 print with four digits |
| CalendarUpload.StartingYearOffered | client/src/components/contribute/CalendarUploader.tsx:44-57 | the starting year is the first option |
| CalendarUpload.OfferedYearValid | client/src/components/contribute/CalendarUploader.tsx:33-57 | from 1000 to 9995 every option and the starting year pass the year rule |
| CalendarUpload.CalendarTitle | client/src/components/contribute/CalendarUploader.tsx:130-134 | title, " - ", year and " Calendar" in that order, so it always contains "Calendar" |
| CalendarUpload.CalendarPayload | client/src/components/contribute/CalendarUploader.tsx:124-148 | the body is the form with the decorated title and status "pending" |
| CalendarUpload.CalendarListedAsCalendar | client/src/components/contribute/CalendarUploader.tsx:130-134 | every uploaded calendar is listed among the calendars, not the rituals, pending review |
| CalendarUpload.CalendarUploader.constructor | client/src/components/contribute/CalendarUploader.tsx:47-57 | the starting form for the current year and a calendar drop zone |
| CalendarUpload.CalendarUploader.Edit | client/src/components/contribute/CalendarUploader.tsx:47-57 | the form takes the typed values |
| CalendarUpload.CalendarUploader.Cancel | client/src/components/contribute/CalendarUploader.tsx:312-315 | the form goes back to the current year's starting values and the file is removed |
| CalendarUpload.CalendarUploader.Submit | client/src/components/contribute/CalendarUploader.tsx:124-148 | a broken rule sends nothing; a valid form is posted; acceptance resets to the current year's form and removes the file |
| FestivalLookups.GetFestivalById | client/src/hooks/useFestivals.ts:24-26 | the first festival with the id; none exactly when no loaded festival has it |
| FestivalLookups.GetFestivalsByReligion | client/src/hooks/useFestivals.ts:29-33 | exactly the loaded festivals of the religion ignoring case, in order |
| FestivalLookups.ReligionLookupIgnoresCase | client/src/hooks/useFestivals.ts:31 | spellings differing in case give the same festivals |
| FestivalLookups.ReligionLookupAgreesWithServer | client/src/hooks/useFestivals.ts:29-33 | over the full festival list the client lookup equals the store's |
| AuthClient.Username | client/src/hooks/useAuth.ts:54 | the display name, else the email before its first '@', else "" |
| AuthClient.FirstName | client/src/hooks/useAuth.ts:55 | the display name up to its first space |
| AuthClient.LastName | client/src/hooks/useAuth.ts:56 | empty without a space |
| AuthClient.NamesRebuildDisplayName | client/src/hooks/useAuth.ts:55-56 | with a space, first name, space and last name give the display name back |
| AuthClient.LoginRequest | client/src/hooks/useAuth.ts:51-58 | the posted body is the account's id, email, derived names and photo |
| AuthClient.LoginNamesFollowDisplayName | client/src/hooks/useAuth.ts:54-56 | a spaced display name is the username and is rebuilt from the two names |
| AuthClient.AuthState.constructor | client/src/hooks/useAuth.ts:16-17 | no user, loading |
| AuthClient.AuthState.CheckSession | client/src/hooks/useAuth.ts:20-39 | the user is the body exactly of an ok response, otherwise none; loading ends |
| AuthClient.AuthState.LoginWithGoogle | client/src/hooks/useAuth.ts:45-69 | an account is posted; the server's user becomes the user; a failed sign-in or request keeps it; loading ends |
| AuthClient.AuthState.Logout | client/src/hooks/useAuth.ts:71-82 | a successful sign-out clears the user and the cache; a failed one keeps both; loading ends |
| SpeechClient.VoiceTables | client/src/lib/elevenlabs.ts:6-27 | every spiritual voice is a voice; the default is Rachel and the server's default |
| SpeechClient.CacheKey | client/src/lib/elevenlabs.ts:50 | the prefix, the voice, an underscore and the first 50 characters |
| SpeechClient.SharedPrefixSharesKey | client/src/lib/elevenlabs.ts:50 | texts sharing 50 characters share a key for a voice |
| SpeechClient.CacheKeyInjective | client/src/lib/elevenlabs.ts:50 | for voice ids without '_', a key names one voice and one 50-character prefix |
| SpeechClient.ResultOf | client/src/lib/elevenlabs.ts:61-105 | success exactly with an ok reply carrying audio; each failure has its message |
| SpeechClient.SpeechCache.constructor | client/src/lib/elevenlabs.ts:51 | the cache starts empty |
| SpeechClient.SpeechCache.Synthesize | client/src/lib/elevenlabs.ts:42-106 | a voice left out is the default voice; a hit answers without a request; a miss requests, only a stored success changes the cache, and it is a hit afterwards |
| SpeechClient.SecondRequestHitsCache | client/src/lib/elevenlabs.ts:50-93 | after a stored success, any text agreeing on the first 50 characters under the same voice is a hit answered with the stored audio |
| SpeechClient.FromServer | client/src/lib/elevenlabs.ts:61-72 | the client sees the server's status and message |
| SpeechClient.FromRefusal | client/src/lib/elevenlabs.ts:74-77 | a refusal reaches the client as a failed reply with its message |
| SpeechClient.ServerRepliesReachCaller | client/src/lib/elevenlabs.ts:74-98 | audio reaches the caller as its data URL; service errors and refusals as their messages |

## Left out

- **Database-backed store.** The exported store is the database one, and `server/databaseStorage.ts` is not part of this model. MemStorage is the reference semantics. The database store matches religion by exact case, while MemStorage ignores case.
- **Routes not modelled:** the session, user and preferences reads (GET), logout (POST), the festival, ritual and bhajan reads, and the contribution list. Each only passes a store call through.
- **The seed script, the session middleware, Express wiring and Firebase.** The OpenAI and ElevenLabs network calls are parameters: the completion, the service's outcome, the reply, and whether a request throws.
- **Unique email.** The users table declares email unique, but neither MemStorage nor the login route enforces it. The invariant `Routes.IntegrityOf` keeps unique Google ids only.
- **Foreign keys.** They are kept by the route handlers (`Routes.IntegrityOf`), not by `MemStorage`, whose create methods accept any user id.
- **`id` equals its key.** This is not a MemStorage invariant, because `updateUser` and the other updates may overwrite `id`. The route invariant states it for the tables the routes write.
- **Time zones.** The store cuts days at local midnight, which is modelled with an offset parameter. The calendar page compares UTC days. The model keeps both and does not reconcile them. A single fixed offset ignores daylight saving where the server's local zone has it.
- **Login casing.** The client's default language is "english" but the login route stores "English". Both are modelled as written.
- **Null email.** A Google account without a string email is posted as `null`. The server's schema demands a string, so the model sends "".
- **Calendar year.** The calendar uploader posts its year, but the contribution schema has no column for it. The model drops it at the server.
- **Text encoding and floats.** Form lengths count UTF-16 units in the source and characters here (see the two lines below for the other cuts). Lower case is ASCII only. Volume is a whole percentage, and times are whole seconds.
- **Routes.CategorizationPrompt:** `substring(0, 1000)` counts UTF-16 units; the model's strings are sequences of characters, so for text outside the Basic Multilingual Plane the prompt here may hold more of the document than the source's, and a surrogate pair split by the source is kept whole.
- **SpeechClient.CacheKey:** `substring(0, 50)` counts UTF-16 units; the model cuts 50 characters, so for text outside the Basic Multilingual Plane the key here covers more of the text than the source's (`SharedPrefixSharesKey` and `CacheKeyInjective` are stated for the model's cut).
- **Typed request bodies.** `Routes.LoginWithGoogle`, `Routes.ParsePreferences`, `Routes.CreateContributionRoute` and `Routes.PlanSynthesis` take bodies whose fields have their declared types (`LoginBody`, `PreferencesBody`, `ContributionBody`), and `Routes.UpcomingLimit` takes the limit as one optional string. The source reads `req.body` and `req.query` untyped: a `null` religion or a wrongly typed field (`interests: "x"`) makes `prefSchema.parse` throw and is answered with 500, a login or contribution body with missing or non-string fields reaches the store as it is, a non-string truthy `voiceId` given to synthesis reaches the service URL unchecked, and a repeated `limit` parameter is an array. None of these bodies is expressible here.
- **Speech options.** `stability` and `similarityBoost` (numbers, passed through to the server) are not modelled.
- **Request helpers.** `client/src/lib/queryClient.ts` (`apiRequest`) is not part of this model. Whether a client request succeeds is an input.
- **Explore's festival-id parameter** and its scrolling are left out. Explore.tsx:20-22 reads it with the same path-only `useLocation().split("?")` as the calendar page (see "## Findings"), so its bhajan query (`enabled: !!festivalId`, Explore.tsx:32-35) never runs and the page's bhajan list stays empty. So are the display of file names and sizes, the voice select of the ritual player, and the volume effect on the audio element.
- **Effects and async.** React effect scheduling and async interleaving are left out: every handler is one atomic step.
- **RitualPlayback.RitualPlayer.PlayStep:** a result without audio leaves the player marked playing, as the source does. The source's catch branch can only be reached through an exception in code that is not part of this model.
- **CalendarPage.ParamIn:** states only that a found value comes from a pair for the key. It is not stated that the first such pair wins, and percent-decoding of URL parameters is not modelled. `CalendarPage.CardLinkParam` gives the exact value for card links.
- **CalendarPage.QueryParam:** states only the case without '?'. Card links are covered exactly by `CalendarPage.CardLinkParam`.
- **CalendarUpload.YearOptions:** states only the number of options. Their values are stated one index at a time by `CalendarUpload.YearOptionReadsBack` and `CalendarUpload.OfferedYearValid`.
- **AuthClient.LastName:** states only the case without a space. Its content is stated by `AuthClient.NamesRebuildDisplayName`.
- **PlaylistPlayback.PlaylistPlayer.TrackChanged:** the source resets the audio element's position on a track change, not the displayed time. The display follows at the element's next time update.
- **Negative limits.** A negative `limit` is passed to `slice` unchanged, as in the source (`Routes.NegativeLimitDropsLatest`).

## Findings

| source | as written | input that shows it | evidently intended | confidence | as-written member | corrected member |
|---|---|---|---|---|---|---|
| client/src/pages/Calendar.tsx:19-21 | `festivalParam` is read from `location.split("?")[1]`, where `location` comes from wouter's `useLocation()` and is the path alone (the router is wouter's default one, client/src/App.tsx:1,66) | a click on an upcoming festival card navigates to `/calendar?festivalId=1` (client/src/components/home/UpcomingFestivals.tsx:97); the page sees "/calendar", so the parameter is `null` and no festival is selected | read the parameter from the search string (`location + window.location.search`, or wouter's `useSearch`), so the card's festival is selected and shown on its day | high that the link selects nothing, given wouter's documented `useLocation`; not executed | CalendarPage.CardLinkSelectsNothing | CalendarPage.CardLinkSelects |
