# EcoTrack AI: the document store and the scoring rules

EcoTrack AI is a browser application for tracking household water use and
carbon emissions. This project models two parts of it in Dafny:

- **The `LocalStorageService` document store.** It keeps every collection
  (users, water logs, carbon logs, reports, community posts, leaderboard) as
  one JSON array under a `ecotrack_`-prefixed key of the browser's
  key-value storage. Each operation reads the whole array, changes it and
  writes it back. It also provides the stub sign-up, sign-in and sign-out
  that keep a `users` array and a `currentUser` key.
- **The rules the pages compute with.** These are:
  - the four eco-score formulas: daily, trailing seven days, all-time
    percentage and leaderboard. They differ and are kept apart;
  - badges, distinct active days and the seven-day charts;
  - the CO2 emission factors, the water estimate and alert levels;
  - the GreenPulse timer state machine and report construction;
  - the score-to-label tables: avatar stage, eco level and score colour.

Files and modules:

| file | module | models |
|---|---|---|
| `values.dfy` | `Values` | JSON values, JavaScript truthiness, `Math.round`, `toFixed`, clamping, number-to-text |
| `seqs.dfy` | `Seqs` | `filter`, `findIndex`/`find`, a descending `sort` and `slice`, as functions with their laws |
| `store.dfy` | `Store` | `src/services/localStorage.js`, as the class `LocalStorageService` over a `map<string, Slot>` |
| `logs.dfy` | `Logs` | shared log arithmetic: per-user filter, sums, day buckets, savings against targets, weekday labels |
| `helpers.dfy` | `Helpers` | `calculateEcoScore`, `getEcoLevel` and `formatTimeAgo` from `src/utils/helpers.js` |
| `eco_twin_avatar.dfy` | `EcoTwinAvatar` | `getAvatarStage` |
| `home_dashboard.dfy` | `HomeDashboard` | `loadStats`, `generateWeeklyData` and the bar heights |
| `ai_coach.dfy` | `AICoach` | `loadUserData`'s weekly computation |
| `profile.dfy` | `Profile` | `loadUserStats`, `getScoreColor`, `handleEdit`, `handleSave` |
| `community.dfy` | `Community` | leaderboard, feed order, posting, liking and the page's `formatTimeAgo` |
| `water_tracker.dfy` | `WaterTracker` | activity estimate, GreenPulse meter, alerts and the page's handlers |
| `carbon_tracker.dfy` | `CarbonTracker` | emission factors, the total, the chart and the page's handlers |
| `report_issue.dfy` | `ReportIssue` | the report form, auto-location and submission |

Modelling conventions:

- **Storage.** The storage is a map from full keys to slots. A slot is
  either JSON text with its parsed value, or text that `JSON.parse`
  rejects.
  - `getItem` yields null for an absent or corrupt slot.
  - `setItem` and `removeItem` may fail. A ghost flag says whether each
    write happened, and a failed write leaves the storage unchanged.
- **Page state.** The stateful pages are classes whose fields are the
  React state.
  - Each handler is a method whose `ensures` gives the whole new state.
  - A store call inside a handler goes through the store's own methods.
- **Values.** Numbers are exact reals.
  - `Math.round` is `Floor(x + 0.5)`.
  - `toFixed(d)` read back as a number is rounding to a multiple of
    10^-d, with halves rounded away from zero.
- **Parameters instead of effects.** The following come in as
  parameters:
  - the clock, as a timestamp text, a millisecond instant or a calendar
    day number;
  - fresh ids;
  - the calendar-day and date-text functions;
  - the geolocation outcome and the picked file.

PROPERTIES proved include:

- the store's append, replace-first, filter and first-match effects,
  each with its error case;
- the seeding of the six collections;
- a sign-up keeping emails distinct;
- bounds and monotonicity of every score;
- the worked examples;
- exactly-one-branch label tables;
- the leaderboard being a sorted top-ten prefix of the registered users'
  rows;
- a saved log adding exactly its amount to its owner's totals;
- charts of seven distinctly labelled days ending today.
- the GreenPulse cap: from 30 L the Start/Stop button is disabled, so the
  toggle handler's force-stop branch and its alert never run from the page.
  A running session that reaches the cap keeps counting and cannot be
  stopped with that button (`Tick`, `PressStartStop`, `CapIsPermanent`).
- the GreenPulse panel: the page renders it, with the pipe inputs,
  Start/Stop and Save Session, only while GreenPulse runs. Save Session,
  which needs a stopped session, therefore never appears, and the pipe
  inputs are always disabled where rendered (see Findings below).

## Model

| member | source | states |
|---|---|---|
| Store.PrefixInjective | src/services/localStorage.js:4 | two keys under the common prefix are the same storage key only if the keys are equal, so collections never share a slot |
| Store.Encode | src/services/localStorage.js:30-48 | a record array written with `setItem` reads back with `getItem` as exactly the same records, and is truthy |
| Store.NewDoc | src/services/localStorage.js:63-68 | the new record has every field of the data plus id and both timestamps; createdAt equals updatedAt; a caller's own id overrides the fresh one; a caller's timestamps are overwritten |
| Store.Overlay | src/services/localStorage.js:87-91 | the updated record has the data's fields over the stored record's, the stored record's other fields unchanged, and a new updatedAt |
| Store.DisplayNameFor | src/services/localStorage.js:123 | the name when one is given; otherwise the part of the email before the first '@' (all of it without an '@') |
| Store.NewUser | src/services/localStorage.js:120-130 | the account has exactly the listed fields: uid, email, the display name, isGuest false, ecoScore 50, nothing saved, no badges, the creation stamp |
| Store.SeedAllEffect | src/services/localStorage.js:8-28 | seeding distinct collections in turn leaves every key that is not a collection's untouched, and leaves each collection as it was or, when it was falsy, as the empty array |
| Store.FindAfterAdd | src/services/localStorage.js:61-81 | after appending a record under an id no earlier record has, getDoc's first match for that id is the new record at the end |
| Store.DeleteEffect | src/services/localStorage.js:98-103 | deleteDoc keeps exactly the records without the id, and deleting the same id again changes nothing |
| Store.UpdateKeepsId | src/services/localStorage.js:83-96 | when the data brings no other id, the array updateDoc writes back still finds the updated record first under that id, at the same position, and leaves every other record as it was |
| Store.SignUpKeepsEmailsDistinct | src/services/localStorage.js:114-132 | since signUp appends only a user whose email is not yet taken, a users array with distinct emails keeps them distinct |
| Store.UsersWriteKeepsSession | src/services/localStorage.js:133-134 | signUp's write of the users collection leaves the stored current user alone, so only the currentUser write changes what getCurrentUser returns |
| Store.SignInAfterSignUp | src/services/localStorage.js:110-153 | after a sign-up appended a user, signing in with that email finds that same user |
| Store.LocalStorageService.constructor | src/services/localStorage.js:3-6 | the new store has seeded each of the six collections whose stored value was falsy, and touched no other key |
| Store.LocalStorageService.InitializeDefaults | src/services/localStorage.js:8-28 | each collection is left alone when its value is truthy (an empty array included) and otherwise set to [] unless that write fails; no other key changes |
| Store.LocalStorageService.SeedIfFalsy | src/services/localStorage.js:9-11 | one guarded write: the collection is set to [] only when its stored value is falsy and the write happens |
| Store.LocalStorageService.GetItem | src/services/localStorage.js:30-38 | the parsed value under prefix+key, and null when the key is absent or its text does not parse |
| Store.LocalStorageService.SetItem | src/services/localStorage.js:40-48 | a successful write makes getItem return the value; a failed one (false) leaves the storage as it was |
| Store.LocalStorageService.RemoveItem | src/services/localStorage.js:50-58 | a successful removal deletes prefix+key so getItem returns null; a failed one changes nothing |
| Store.LocalStorageService.GetDocs | src/services/localStorage.js:74-76 | the stored value when truthy and [] otherwise, so an absent collection reads as empty |
| Store.LocalStorageService.GetDoc | src/services/localStorage.js:78-81 | the first record with the id, or nothing when no record has it; a TypeError when the collection is not an array |
| Store.LocalStorageService.AddDoc | src/services/localStorage.js:61-72 | appends exactly one new record after the unchanged earlier ones and returns it, even when the write-back failed; a TypeError and no change when the collection is not an array |
| Store.LocalStorageService.UpdateDoc | src/services/localStorage.js:83-96 | replaces only the first record with the id by the overlay and returns it; null and no write when no record matches; a TypeError when the collection is not an array |
| Store.LocalStorageService.DeleteDoc | src/services/localStorage.js:98-103 | writes back the records without the id, in order, and returns true; a TypeError when the collection is not an array |
| Store.LocalStorageService.GetCurrentUser | src/services/localStorage.js:106-108 | the stored current user, null when none is stored or it does not parse; SignUp, SignIn and SignOut state its value after them |
| Store.LocalStorageService.SignUp | src/services/localStorage.js:110-137 | a taken email throws 'User already exists' and writes nothing; otherwise the new user is appended to users and, once that write happens, getCurrentUser returns it; a failed write leaves getCurrentUser as it was |
| Store.LocalStorageService.SignIn | src/services/localStorage.js:139-153 | the first user with the email becomes the current user, whatever the password, so getCurrentUser returns it once the write happens; no such user throws and writes nothing |
| Store.LocalStorageService.SignOut | src/services/localStorage.js:155-159 | removes currentUser when the removal happens, so getCurrentUser then returns null (else it is unchanged), and returns true either way |
| Logs.ForUser | src/pages/Profile.jsx:56-57 | the selected logs all belong to the user, and there are no more of them than logs |
| Logs.ForUserIgnoresOthers | src/pages/Profile.jsx:56-57 | other users' logs, wherever they sit among the user's, do not change what the user's filter selects |
| Logs.ActorId | src/pages/WaterTracker.jsx:120 | the user's uid when it is truthy and 'guest' otherwise; never a falsy id |
| Logs.ActorIdOwnership | src/pages/WaterTracker.jsx:120 | a log stamped with the actor id belongs to the signed-in uid, or to 'guest' without one, and never matches a user without a uid |
| Logs.TotalConcat | src/pages/Profile.jsx:60 | the sum over two runs of logs is the sum of their sums |
| Logs.AppendOwnedLog | src/pages/Profile.jsx:56-60 | appending a log the user owns raises the user's total by exactly that log's amount |
| Logs.TotalNonNegative | src/pages/Profile.jsx:60 | non-negative amounts give a non-negative sum |
| Logs.TotalBoundsEach | src/pages/Profile.jsx:60 | with non-negative amounts the sum is at least every single log's amount |
| Logs.DayTotalNonNegative | src/pages/HomeDashboard.jsx:71-75 | a day's sum of non-negative amounts is non-negative |
| Logs.DayTotalIgnoresOtherDays | src/pages/HomeDashboard.jsx:35-37 | logs created on other days do not change a day's total |
| Logs.WaterSaved | src/pages/Profile.jsx:62 | never negative; equals what is left of the 1050 L target; 0 once the target is used up |
| Logs.CarbonReduced | src/pages/Profile.jsx:67 | never negative; equals what is left of the 70 kg target; 0 once the target is used up |
| Logs.SavingsAntitone | src/pages/AICoach.jsx:59-60 | using more water or emitting more carbon never saves more |
| Logs.LabelIndex | src/pages/HomeDashboard.jsx:78 | Sunday maps to the last label (6) and every other weekday to the one before it |
| Logs.WeekdayBefore | src/pages/HomeDashboard.jsx:67-68 | the weekday a number of days back is again a weekday 0..6 |
| Logs.DayLabelsDistinct | src/pages/HomeDashboard.jsx:63-78 | seven consecutive days get seven different labels |
| Helpers.DailyWaterTerm | src/utils/helpers.js:19 | never negative; 50 at the 150 L target, half a point less per extra liter, 0 from 250 L on |
| Helpers.DailyCarbonTerm | src/utils/helpers.js:20 | never negative; 50 at the 10 kg target, two points less per extra kg, 0 from 35 kg on |
| Helpers.DailyEcoScore | src/utils/helpers.js:15-23 | the daily score is always an integer in [0, 100] |
| Helpers.DailyAtTargets | src/utils/helpers.js:16-22 | meeting both daily targets exactly gives halves summing to 100 and a score of 100 |
| Helpers.DailyAtZero | src/utils/helpers.js:19-22 | with no usage the halves are 125 and 70 and the score is clamped to 100 |
| Helpers.DailyFloor | src/utils/helpers.js:19-22 | from 250 L and 35 kg on the score is 0 |
| Helpers.DailyMonotone | src/utils/helpers.js:19-22 | more water or more carbon never raises the daily score |
| Helpers.EcoLevelOf | src/utils/helpers.js:25-29 | exactly one level for every score: Beginner up to 30, Intermediate above 30 up to 70, Expert above 70 |
| Helpers.EcoLevelMonotone | src/utils/helpers.js:25-29 | a higher score never gives a lower level |
| Helpers.TimeAgo | src/utils/helpers.js:34-44 | 'just now' under a minute, then minutes under an hour, hours under a day, days under a week, the date after that; each count is the whole number of units elapsed |
| Helpers.Unit | src/utils/helpers.js:41-43 | every unit suffix has the same length, so the count is what sets different texts apart |
| Helpers.AgoText | src/utils/helpers.js:40-44 | a relative text for every branch but the date fallback |
| Helpers.CountTextInjective | src/utils/helpers.js:41-43 | different counts or units never print the same text |
| Helpers.CountTextNotJustNow | src/utils/helpers.js:40-43 | no count text reads 'just now' |
| Helpers.AgoTextInjective | src/utils/helpers.js:40-43 | two shown relative texts are equal only for the same branch and count |
| EcoTwinAvatar.AvatarStage | src/components/EcoTwinAvatar.jsx:6-10 | exactly one stage per score: Wilted Plant up to 30, Growing Plant up to 70, Blooming Tree above |
| EcoTwinAvatar.StageMonotone | src/components/EcoTwinAvatar.jsx:6-10 | the plant never goes back a stage as the score rises |
| EcoTwinAvatar.DefaultStage | src/components/EcoTwinAvatar.jsx:4-8 | without a score (default 50) the avatar is the Growing Plant |
| EcoTwinAvatar.StageMatchesEcoLevel | src/components/EcoTwinAvatar.jsx:7-8 | the stage thresholds are getEcoLevel's: wilted exactly for Beginner, blooming exactly for Expert |
| HomeDashboard.DashboardScore | src/pages/HomeDashboard.jsx:45-49 | the dashboard's inline score equals calculateEcoScore on the same totals |
| HomeDashboard.Today | src/pages/HomeDashboard.jsx:29-49 | today's figures use only the signed-in user's logs created today: the rounded liters, the kg to one decimal, and the daily score of both sums, in [0, 100] |
| HomeDashboard.TodayIgnoresOthers | src/pages/HomeDashboard.jsx:29-42 | other users' logs and the user's logs of other days leave today's figures unchanged |
| HomeDashboard.WeeklyWater | src/pages/HomeDashboard.jsx:62-84 | seven bars, six days ago first and today last, each the rounded liters of its day |
| HomeDashboard.GenerateWeeklyData | src/pages/HomeDashboard.jsx:66-81 | the counting loop from six days back to today builds exactly the seven-bar chart |
| HomeDashboard.WeeklyShape | src/pages/HomeDashboard.jsx:66-80 | the last bar is today's rounded liters with today's label, and the seven labels differ |
| HomeDashboard.WeeklyNonNegative | src/pages/HomeDashboard.jsx:71-80 | with non-negative logged liters no bar is negative |
| HomeDashboard.MaxLiters | src/pages/HomeDashboard.jsx:179 | at least 1 and at least every bar, and either 1 or some bar's liters |
| HomeDashboard.RatioBounds | src/pages/HomeDashboard.jsx:180 | a part over a positive whole it does not exceed is at most 1, exactly 1 for the whole, and not negative for a non-negative part |
| HomeDashboard.BarHeight | src/pages/HomeDashboard.jsx:179-180 | a bar's height is at most 100 percent, not negative for non-negative liters, and exactly 100 for the tallest bar |
| AICoach.WeeklyWaterTerm | src/pages/AICoach.jsx:55 | never negative; 50 at 1050 L, a point less per extra 20 L, 0 from 2050 L on |
| AICoach.WeeklyCarbonTerm | src/pages/AICoach.jsx:56 | never negative; 50 at 70 kg, a point less per extra kg, 0 from 120 kg on |
| AICoach.WeeklyEcoScore | src/pages/AICoach.jsx:53-57 | the weekly score is always an integer in [0, 100] |
| AICoach.WeeklyAtTargets | src/pages/AICoach.jsx:53-57 | 1050 L and 70 kg in the week give 100 |
| AICoach.WeeklyOverWaterTarget | src/pages/AICoach.jsx:55-57 | 1470 L and 70 kg give a water half of 29 and a score of 79 |
| AICoach.WeeklyMonotone | src/pages/AICoach.jsx:55-57 | more water or more carbon in the week never raises the score |
| AICoach.WeekLogs | src/pages/AICoach.jsx:35-47 | a log is in the window exactly when it is the user's and its valid creation time is at or after a week ago |
| AICoach.RecentActivities | src/pages/AICoach.jsx:63-66 | 'water tracking' exactly with a windowed water log, 'carbon tracking' exactly with a windowed carbon log, the high-score entry exactly above 70, always in that order |
| AICoach.CoachStatsOf | src/pages/AICoach.jsx:35-72 | the weekly score, both savings and the activity list come from the windowed logs only; weekProgress counts them; the score is in [0, 100] and the savings are non-negative |
| AICoach.WindowBoundary | src/pages/AICoach.jsx:42-47 | a log created exactly a week ago counts and one a millisecond earlier does not |
| AICoach.WaterTrackingMeansAWeekLog | src/pages/AICoach.jsx:42-64 | the summary mentions water tracking exactly when the user has a water log in the week |
| Profile.PercentScore | src/pages/Profile.jsx:70-71 | the share of the target saved, in [0, 100]: 100 once the whole target is saved, 0 when nothing is |
| Profile.DaySet | src/pages/Profile.jsx:78-80 | exactly the calendar days on which some log was created |
| Profile.DaySetBound | src/pages/Profile.jsx:78-81 | there are never more distinct days than logs |
| Profile.DaysActive | src/pages/Profile.jsx:77-81 | at most the number of logs, and 0 exactly when there are none |
| Profile.ProfileBadges | src/pages/Profile.jsx:84-88 | the badges in fixed order: Water Saver iff more than 200 L saved, Carbon Neutral iff more than 15 kg reduced, Eco Hero iff the score is above 80, Consistent Tracker iff at least 7 active days |
| Profile.UserStats | src/pages/Profile.jsx:50-99 | all-time savings of the user's own logs against the targets, each percentage in [0, 100], the eco score their rounded mean, the distinct active days of both kinds of log, and the badges on the unrounded savings |
| Profile.StatsWithoutLogs | src/pages/Profile.jsx:60-88 | a user without logs scores 100 on all three, has no active days, and gets every badge but Consistent Tracker |
| Profile.StatsIgnoreOtherUsers | src/pages/Profile.jsx:56-57 | adding other users' logs changes none of the user's figures |
| Profile.ConsistentTrackerNeedsSevenLogs | src/pages/Profile.jsx:77-88 | the Consistent Tracker badge takes at least seven logs of the user |
| Profile.ScoreColorOf | src/pages/Profile.jsx:101-126 | exactly one colour per score: Excellent from 70, Good from 40 below 70, Needs Improvement below 40 |
| Profile.Edited | src/pages/Profile.jsx:149-154 | the user record with the new displayName, email and updatedAt, every other field kept |
| Profile.ProfilePage.constructor | src/pages/Profile.jsx:24-38 | not editing and no message |
| Profile.ProfilePage.HandleEdit | src/pages/Profile.jsx:128-131 | editing, with the message cleared |
| Profile.ProfilePage.HandleSave | src/pages/Profile.jsx:142-171 | rewrites only the first user with the uid and then the current user, showing success and leaving editing; no write without a match; the failure message when users is not an array |
| Community.LeaderScore | src/pages/Community.jsx:34-36 | the leaderboard score is always an integer in [0, 100] |
| Community.LeaderScoreWithoutLogs | src/pages/Community.jsx:31-36 | a user without logs scores 100 (105 + 140 clamped) |
| Community.LeaderScoreMonotone | src/pages/Community.jsx:34-36 | saving more never lowers the leaderboard score |
| Community.LeaderBadges | src/pages/Community.jsx:39-42 | Water Saver, Carbon Neutral and Eco Hero on the same thresholds as the profile, in order, and never Consistent Tracker |
| Community.Row.AsRecord | src/pages/Community.jsx:44-50 | the user's record with ecoScore, waterSaved and carbonReduced set to the row's numbers and badges to the row's badge names in order, every other field kept |
| Community.RowOf | src/pages/Community.jsx:28-50 | a user's row scores all of the user's own logs with no time window; score in [0, 100], non-negative savings |
| Community.Standings | src/pages/Community.jsx:27-51 | one row per non-guest user, in storage order |
| Community.Leaderboard | src/pages/Community.jsx:53 | at most ten rows, the first ones of the score-sorted standings, in non-increasing score order |
| Community.LeaderboardEntry | src/pages/Community.jsx:27-53 | each rendered leaderboard object is a stored non-guest user's record whose ecoScore, rounded savings and badge count come from that user's own logs, with the user's other fields kept |
| Community.LeaderboardRowsAreMembers | src/pages/Community.jsx:27-53 | every leaderboard row is the row of a stored non-guest user |
| Community.LeaderboardIsTop | src/pages/Community.jsx:53 | no user left off the leaderboard scores more than anyone on it |
| Community.NewestFirst | src/pages/Community.jsx:57 | the same posts, newest creation time first |
| Community.Either | src/pages/Community.jsx:64 | the first property when it is truthy, else the second |
| Community.WithOptional | src/pages/Community.jsx:63-71 | the property set, or left out when its value is undefined |
| Community.NewPost | src/pages/Community.jsx:63-71 | the post holds the untrimmed text, the leaf avatar, 0 likes and comments, the stamp, the display name or else the email as author, and the uid |
| Community.Liked | src/pages/Community.jsx:80-83 | the post with likes one more than before (a missing count is 0), all else kept |
| Community.PostTimeAgo | src/pages/Community.jsx:101-112 | minutes under an hour, hours under a day, days from then on, each the whole number of units elapsed; no 'just now' |
| Community.PostTimeAgoAgrees | src/pages/Community.jsx:101-112 | from one minute to a week the page's text is the shared helper's |
| Community.PostTimeAgoUnderAMinute | src/pages/Community.jsx:109 | under a minute the page shows '0m ago' where the shared helper shows 'just now' |
| Community.LikeAddsOne | src/pages/Community.jsx:78-84 | writing a like back raises the stored post's count by exactly one and keeps its other fields |
| Community.CommunityPage.constructor | src/pages/Community.jsx:9-11 | an empty leaderboard, an empty feed and an empty composer |
| Community.CommunityPage.SetNewPost | src/pages/Community.jsx:11 | the composer holds the typed text, nothing else changes |
| Community.CommunityPage.Load | src/pages/Community.jsx:18-58 | the leaderboard is recomputed from the stored users and logs and the feed is the stored posts newest first; a non-array stops the load there |
| Community.CommunityPage.HandlePostSubmit | src/pages/Community.jsx:60-76 | nothing without a user or with blank text; otherwise the post, with its own timestamp reading, is appended under addDoc's id and creation stamp and the composer cleared |
| Community.CommunityPage.HandleLike | src/pages/Community.jsx:78-86 | the stored post with the shown post's id gets the shown post with one more like |
| WaterTracker.Lookup | src/pages/WaterTracker.jsx:78 | the table row with that value, or none when no row has it |
| WaterTracker.LookupTable | src/pages/WaterTracker.jsx:68-78 | each activity's value finds its own row |
| WaterTracker.Estimate | src/pages/WaterTracker.jsx:79-80 | a non-negative estimate for a non-negative duration |
| WaterTracker.EstimateTenMinutes | src/pages/WaterTracker.jsx:68-80 | ten minutes of an activity estimate exactly its table liters |
| WaterTracker.EstimateMonotone | src/pages/WaterTracker.jsx:79-80 | a longer duration never estimates fewer liters |
| WaterTracker.ZeroMinutesEstimateNothing | src/pages/WaterTracker.jsx:79-80 | a zero-minute duration estimates 0 liters |
| WaterTracker.GreenPulseLiters | src/pages/WaterTracker.jsx:104 | never negative for a non-negative rate and time |
| WaterTracker.GreenPulseMonotone | src/pages/WaterTracker.jsx:86-88 | with a non-negative rate the meter never goes down as the timer runs |
| WaterTracker.MountedRateReachesCap | src/pages/WaterTracker.jsx:64-104 | at the 53.0 L/min the pipe effect sets on mount, the meter shows 29 L after 33 s and reaches the 30 L cap at 34 s |
| WaterTracker.CapIsPermanent | src/pages/WaterTracker.jsx:104 | with a non-negative rate, once the meter reaches 30 L it stays there or above as the timer runs on |
| WaterTracker.AlertLevelOf | src/pages/WaterTracker.jsx:106-111 | exactly one alert per amount: red from 30, yellow from 20, green from 10, none below |
| WaterTracker.AlertMonotone | src/pages/WaterTracker.jsx:106-111 | more liters never lower the alert |
| WaterTracker.CapIsRed | src/pages/WaterTracker.jsx:106-111 | the liters that disable Start/Stop are exactly those with the red alert |
| WaterTracker.DurationField | src/pages/WaterTracker.jsx:118 | an entered duration is stored as its number and a blank one as null |
| WaterTracker.StandardLog | src/pages/WaterTracker.jsx:116-121 | the log has exactly activity, duration, liters and the actor id |
| WaterTracker.PulseLog | src/pages/WaterTracker.jsx:134-140 | the log is a greenpulse activity with the timer's seconds, the metered liters, the flow rate and the actor id |
| WaterTracker.StoredLiters | src/pages/WaterTracker.jsx:123 | adding a log as a document keeps its liters |
| WaterTracker.StandardLogCounts | src/pages/WaterTracker.jsx:115-123 | once stored, a signed-in user's log adds exactly its liters to the user's water total |
| WaterTracker.PulseLogCounts | src/pages/WaterTracker.jsx:133-142 | once stored, a signed-in user's session adds exactly its metered liters to the user's water total |
| WaterTracker.WaterTrackerPage.SelectedActivity | src/pages/WaterTracker.jsx:54 | '' without a selection, else the value that finds the selected row |
| WaterTracker.WaterTrackerPage.ShownAlert | src/pages/WaterTracker.jsx:113 | the alert is for the metered liters while GreenPulse runs and for the estimate otherwise |
| WaterTracker.AsWrittenSaveNeverShown | src/pages/WaterTracker.jsx:222-446 | when the panel is shown exactly while GreenPulse runs, Save Session never appears |
| WaterTracker.TabPanelShowsSave | src/pages/WaterTracker.jsx:446 | with the panel shown by its own tab, a stopped session with a running time offers Save Session |
| WaterTracker.WaterTrackerPage.SessionSaveShown | src/pages/WaterTracker.jsx:222-446 | Save Session as rendered, its panel condition and its own guard together, holds in no page state |
| WaterTracker.WaterTrackerPage.constructor | src/pages/WaterTracker.jsx:54-63 | no activity, blank duration, 0 liters, no message, GreenPulse off at 0 s and the initial 10 L/min (which the pipe effect replaces on mount), on the Standard tab, with Save Session hidden |
| WaterTracker.WaterTrackerPage.Recalculate | src/pages/WaterTracker.jsx:76-82 | with both an activity and a duration the liters become their estimate; otherwise unchanged |
| WaterTracker.WaterTrackerPage.SelectActivity | src/pages/WaterTracker.jsx:245 | the clicked row is selected and, with a duration, the liters are re-estimated |
| WaterTracker.WaterTrackerPage.SetDuration | src/pages/WaterTracker.jsx:269 | the typed duration is kept and, with an activity, the liters are re-estimated |
| WaterTracker.WaterTrackerPage.SetFlowRate | src/pages/WaterTracker.jsx:98-102 | the pipe effect's new rate, only while GreenPulse is off; since the pipe inputs are rendered only while it runs, on the page this is only the run on mount |
| WaterTracker.WaterTrackerPage.Tick | src/pages/WaterTracker.jsx:84-95 | one more second only while GreenPulse runs, and the meter never goes down; a running session at the cap keeps running with Start/Stop disabled, so not even the intended Save Session appears |
| WaterTracker.WaterTrackerPage.ToggleGreenPulse | src/pages/WaterTracker.jsx:151-162 | a running session always stops with its timer kept, the force-stop at the cap included; starting a stopped one resets the timer to 0 |
| WaterTracker.WaterTrackerPage.PressStartStop | src/pages/WaterTracker.jsx:424-427 | the Start/Stop button does nothing from 30 L on, since it is disabled; below that it toggles as the handler does; stopping removes the panel and shows no Save Session, where the intended panel by tab would show it |
| WaterTracker.WaterTrackerPage.StandardTab | src/pages/WaterTracker.jsx:193-196 | GreenPulse off, the timer zeroed and the Standard tab chosen |
| WaterTracker.WaterTrackerPage.GreenPulseTab | src/pages/WaterTracker.jsx:206-209 | GreenPulse on from a zeroed timer, with the GreenPulse tab chosen |
| WaterTracker.WaterTrackerPage.HandleSave | src/pages/WaterTracker.jsx:115-131 | the standard log is appended and the form cleared with the confirmation; an enabled Save stores the estimate for the chosen activity and duration; a TypeError and no change when the collection is not an array |
| WaterTracker.WaterTrackerPage.FormSaved | src/pages/WaterTracker.jsx:124-130 | the confirmation shown, with activity, duration and liters cleared |
| WaterTracker.WaterTrackerPage.HandleGreenPulseSave | src/pages/WaterTracker.jsx:133-149 | the session log is appended, then GreenPulse stops and the timer is zeroed; a TypeError and no change when the collection is not an array (its button never shows on the page as written) |
| WaterTracker.WaterTrackerPage.SessionSaved | src/pages/WaterTracker.jsx:143-148 | the session confirmation, GreenPulse off and the timer zeroed |
| CarbonTracker.DietOrder | src/pages/CarbonTracker.jsx:27-31 | per meal vegan emits less than vegetarian, which emits less than non-vegetarian |
| CarbonTracker.TotalCO2 | src/pages/CarbonTracker.jsx:42-47 | non-negative for non-negative inputs |
| CarbonTracker.TotalInCents | src/pages/CarbonTracker.jsx:18-47 | with whole-number inputs the total is a whole number of hundredths of a kg |
| CarbonTracker.ToFixedExact | src/pages/CarbonTracker.jsx:47 | rounding the total to two decimals loses nothing |
| CarbonTracker.ShowsZeroIffNothing | src/pages/CarbonTracker.jsx:317 | the total reads '0.00' exactly when it is zero |
| CarbonTracker.BikeIsFree | src/pages/CarbonTracker.jsx:18-45 | cycling adds nothing whatever the distance |
| CarbonTracker.TotalMonotone | src/pages/CarbonTracker.jsx:42-45 | more distance, electricity or meals never lower the total |
| CarbonTracker.DietLowersTotal | src/pages/CarbonTracker.jsx:27-45 | with at least one meal, a lower-emission diet gives a strictly lower total |
| CarbonTracker.CarbonLog | src/pages/CarbonTracker.jsx:79-91 | the log copies the transport, electricity and food inputs, stores the two-decimal total as co2kg, and the actor id |
| CarbonTracker.CarbonLogCounts | src/pages/CarbonTracker.jsx:78-93 | once stored, a signed-in user's log adds exactly the form's total to the user's carbon total |
| CarbonTracker.CarbonChart | src/pages/CarbonTracker.jsx:50-76 | seven entries, six days ago first, each the day's label, its CO2 to one decimal and its date text |
| CarbonTracker.ChartShape | src/pages/CarbonTracker.jsx:57-73 | the last entry is today's, and the seven labels differ |
| CarbonTracker.ChartCountsEveryLog | src/pages/CarbonTracker.jsx:62-66 | every stored log of a day counts towards its bar, whoever logged it |
| CarbonTracker.CarbonTrackerPage.constructor | src/pages/CarbonTracker.jsx:9-14 | car, 0 km, 0 kWh, vegetarian, 0 meals, no message and an empty chart, so Save starts disabled |
| CarbonTracker.CarbonTrackerPage.SetMode | src/pages/CarbonTracker.jsx:157 | the chosen mode, every other input kept |
| CarbonTracker.CarbonTrackerPage.SetDistance | src/pages/CarbonTracker.jsx:174-177 | the slider's distance in 0..100, every other input kept |
| CarbonTracker.CarbonTrackerPage.SetElectricity | src/pages/CarbonTracker.jsx:205-208 | the slider's kWh in 0..50, every other input kept |
| CarbonTracker.CarbonTrackerPage.SetDiet | src/pages/CarbonTracker.jsx:238 | the chosen diet, every other input kept |
| CarbonTracker.CarbonTrackerPage.SetMeals | src/pages/CarbonTracker.jsx:258 | the parsed meal count, 0 for an unparsable entry |
| CarbonTracker.CarbonTrackerPage.LoadChartData | src/pages/CarbonTracker.jsx:50-76 | the loop over the last seven days builds exactly the chart of all stored carbon logs; a non-array leaves the chart as it was |
| CarbonTracker.CarbonTrackerPage.FormSaved | src/pages/CarbonTracker.jsx:94-100 | the confirmation shown and the form back to car/0 km, 0 kWh, vegetarian/0 meals |
| CarbonTracker.CarbonTrackerPage.HandleSave | src/pages/CarbonTracker.jsx:78-104 | the log is appended, the form reset and the chart reloaded, including the new log when its write happened; a TypeError and no change when the collection is not an array |
| ReportIssue.ReportData | src/pages/ReportIssue.jsx:77-84 | the report has exactly the form fields plus status 'pending', 0 upvotes and confirmations, the actor id, and the preview as imageUrl (null without one) |
| ReportIssue.StoredReport | src/pages/ReportIssue.jsx:77-86 | a stored report from the form carries the picked photo's data URL as imageUrl (null without a photo) and is pending |
| ReportIssue.ReportIssuePage.constructor | src/pages/ReportIssue.jsx:8-17 | a blank form, not loading, not submitted, so it cannot be submitted |
| ReportIssue.ReportIssuePage.HandleInputChange | src/pages/ReportIssue.jsx:20-23 | only the named field changes |
| ReportIssue.ReportIssuePage.HandleImageUpload | src/pages/ReportIssue.jsx:25-37 | a picked file becomes the image and its data URL the preview; no file changes nothing |
| ReportIssue.ReportIssuePage.RemoveImage | src/pages/ReportIssue.jsx:39-42 | no image and no preview, all else kept |
| ReportIssue.ReportIssuePage.GetAutoLocation | src/pages/ReportIssue.jsx:44-70 | a found position fills in and locks the location, a failure writes 'Location unavailable', no geolocation changes no field; each ends with loading off; the disabled button does nothing |
| ReportIssue.ReportIssuePage.ReportStored | src/pages/ReportIssue.jsx:88-89 | loading off and the confirmation shown |
| ReportIssue.ReportIssuePage.HandleSubmit | src/pages/ReportIssue.jsx:72-90 | a valid form appends the report and shows the confirmation; a blocked form does nothing; a non-array reports collection rejects with loading left on |
| ReportIssue.ReportIssuePage.ResetAfterSubmit | src/pages/ReportIssue.jsx:92-101 | the confirmation hidden and the form blank again: no text, no image or preview, auto-location off |

## Left out

- `src/services/groqService.js`, AICoach's `generateAIContent` and its fallback texts: network calls to a language model, which the model does not perform.
- `src/App.jsx`, `src/components/Layout.jsx`, `src/components/Notification.jsx` and the JSX, animation and chart markup of every page: rendering only, except for what decides which handlers can run. The disabled and `required` attributes the handlers depend on are modelled, as `SaveEnabled`, `ToggleEnabled`, `AutoLocationEnabled`, `CanSubmit` and the requires of the slider setters, and so is the water page's choice of panel (`GreenPulsePanelShown`, `SessionSaveShown`).
- `src/context/AuthContext.jsx`: it forwards either to Firebase, which is not part of this model, or to the store's signUp, signIn and signOut, which are modelled.
- `clear-community-data.js`: a one-off script that removes two keys.
- `formatNumber`, `formatDate`, `downloadAsJSON`, `debounce` and `generateShareText` in `src/utils/helpers.js`: locale formatting, the DOM and timers. formatTimeAgo's fallback after a week is the value `AsDate`, with no text.
- JSON text: the slot holds the parsed value, and `JSON.stringify` is the identity because numbers are exact reals. An `undefined` property of a record is dropped, as stringify drops it. Record arrays are written through `Encode`.
- Non-record arrays: the collection methods read a stored value as records only when it is falsy (read as []) or an array of objects. Anything else makes the operation fail with a TypeError. JavaScript throws for a non-array value but carries on over an array holding non-objects, so such arrays are treated as failures. For the same reason `Community.CommunityPage.Load` rejects a non-array log collection even when there is no user whose row would read it.
- Timestamps: addDoc reads the clock twice, for createdAt and updatedAt. The model gives both one instant.
- Ids and uids: they come from `Date.now()` and `Math.random()` in the source and are parameters here, so uniqueness is not assumed. The signUp uid is `user-` followed by the clock reading, and the random part of addDoc's id is in the fresh id.
- Dates: `new Date(...)`, time zones and `toDateString` are parameters. These are a function from the createdAt text to a calendar day or an instant, with None for an invalid date, and a function from a day to its date text. An invalid post date in the feed sort is not modelled: `postTime` maps every text to an instant.
- Numbers: IEEE-754 rounding, NaN and text conversion of numbers (`toFixed`, `parseFloat`, template strings) are left out. Numbers are exact reals, `toFixed` is exact rounding to hundredths or tenths, and coordinate text comes from a `numberText` parameter.
- `Values.Amount`: a non-numeric stored amount, such as liters held as a string, counts as 0, where JavaScript's `+` would concatenate text.
- Liters in stored logs are JSON numbers (reals) because they are summed from records. The estimates and the meter are integers.
- The pipe flow-rate formula (`src/pages/WaterTracker.jsx:98-102`) uses `Math.PI`. The flow rate is an input of `SetFlowRate`. That effect also runs on mount: the constructor leaves the initial 10 L/min, and the mount run is the call `SetFlowRate(MountedFlowRate)`, 53.0 L/min for the initial pipe inputs.
- Timers (`setInterval`, `setTimeout`) are explicit methods: `Tick` for the GreenPulse interval and `ResetAfterSubmit` for the report reset. The three-second clearing of saved messages is not modelled.
- The `alert(...)` at `src/pages/WaterTracker.jsx:155` calls the alert-level object and would throw after the state change at line 154. Only that state change is modelled. The browser alert for missing geolocation (`src/pages/ReportIssue.jsx:67`) is output only.
- `window.location.reload` after a profile save, and `console.error`: output only. Profile's handleCancel is not modelled.
- React's re-run of effects and the reload after a post or a like are separate calls: `Recalculate`, `Load` and `LoadChartData`. The carbon total on first render is the same function of the inputs as afterwards.
- The sort of the leaderboard and the feed is a stable insertion sort specified by its result: a descending permutation of the input. The relative order of equal scores is not stated.
- The WaterTracker selection is held as the index of a table row rather than as its value text. `SelectedActivity` gives the text back.
- Geolocation and FileReader: each asynchronous callback is folded into the handler that starts it, with the outcome as a parameter.
- `ReportIssue.StoredReport`: states the stored imageUrl and status only. The other fields of the stored report follow from `ReportData` and `Store.NewDoc`.
- `Store.LocalStorageService.InitializeDefaults`: the six guarded writes are one loop over the six collection names, in source order, with a proof of the same effect.
- Concurrency: the store's async methods never suspend, so each call is modelled as sequential.

## Findings

| source | as written | input that shows it | evidently intended | confidence | as-written member | corrected member |
|---|---|---|---|---|---|---|
| src/pages/WaterTracker.jsx:222-446 | the GreenPulse panel, which holds Save Session, is rendered only while `greenPulseActive`, and Save Session needs `!greenPulseActive`, so it never appears and `handleGreenPulseSave` cannot run; the pipe inputs inside it are always disabled | open the GreenPulse tab, let the timer reach 12 s, press Stop: the Standard panel replaces the GreenPulse panel and no Save Session is shown | the panel follows the chosen tab, so after Stop below the cap with a running time Save Session is shown | high, not executed | WaterTracker.AsWrittenSaveNeverShown | WaterTracker.TabPanelShowsSave |

The page model keeps the as-written rendering (`SessionSaveShown`). The
tab flag `greenPulseTab` carries the corrected one
(`IntendedSessionSaveShown`), and `PressStartStop` states both: Stop hides
the panel as written, and shows Save Session with the panel kept by its
tab. `HandleGreenPulseSave` is the handler of that corrected button.
