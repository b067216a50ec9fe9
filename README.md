# A verified model of the wellness app's page logic

The repository is a React single-page wellness app with these parts:

- A guided breathing timer.
- A daily journal with a month calendar.
- An analytics page.
- A local, PIN-based sign-in.
- A route guard.
- A text chat with an AI companion and its prompt assembly.
- A resource library, the dashboard's mood of the day, and a profile page.

All state lives in the browser's local storage. This project models the rules inside those pages in Dafny and proves what they promise.

Each page whose handlers change state is a `class`. Its fields are the page's state variables plus the local-storage item it writes. Each handler is a method whose `ensures` gives the whole new state. The pure parts are functions with lemmas about them: the tick of the breathing timer, the series builders and averages, route lookup (ignoring letter case and trailing slashes, as the router does), prompt assembly and resource filtering.

Mapping of the source's values into the model:

- **Storage.** Local storage is typed values: the journal object is an association list in insertion order, and a missing item is `None`.
- **Time.** Calendar days are integers. A clock reading is a day number plus the milliseconds since that day's midnight. `Date.now()`, the current hour and "today" are parameters.
- **Network.** The text returned by the language-model service is a parameter `answer`, and the model records the request that would be sent.
- **Prompts.** A prompt is a list of pieces. Each piece is a named fixed instruction (`Gemini.Instruction`) or text built at run time. `Gemini.InstructionText` holds the fixed instruction texts verbatim. The string sent is `Gemini.Render(pieces, InstructionText)`. The prompt lemmas hold for any reading of the instruction names, so they do not depend on the texts' wording.

Modules, one per source file plus shared helpers:

| module | file |
|---|---|
| `Breathe` | `breathe.dfy` |
| `Journal` | `journal.dfy` |
| `Calendar` | `calendar.dfy` |
| `Insights` | `insights.dfy` |
| `AuthContext` | `auth_context.dfy` |
| `AuthPage` | `auth_page.dfy` |
| `App` | `app.dfy` |
| `Gemini` | `gemini.dfy` |
| `Chat` | `chat.dfy` |
| `Resources` | `resources.dfy` |
| `Dashboard` | `dashboard.dfy` |
| `Profile` | `profile.dfy` |

The helpers are:

- `Text`: `trim`, ASCII `toLowerCase`, `includes` and `replace` on character sequences.
- `Seqs`: `Array.prototype.filter`.
- `Sorting`: a stable insertion sort.
- `Wrappers`: `Option`.

Behaviour of the code that the model keeps as it is:

- **Saving a breathing session.** `saveSession` returns without writing when no mood is selected.
- **Storage and network failures.** Storage writes have no failure path. Failed network calls resolve to fixed fallback strings.
- **Ties for the top breathing mood.** The stable sort over `Object.entries` picks the first-seen mood among the most frequent.
- **The crisis marker.** The system prompt asks the model for `[REDIRECT_SOS]`. The chat page looks for `[CRISIS_FLAG]`, "help line" or "988".
- **Average mood.** Labels with no ordinal value count as 0 but stay in the denominator.
- **The cycle counter.** `handleStart` sets the cycle counter to 1, so a saved record's `cycles` is the 1-based number of the cycle in progress.

## Model

| member | source | states |
|---|---|---|
| Breathe.ConfiguredTechniquesAreWellFormed | frontend/src/pages/Breathe.jsx:231-235 | every configured technique has non-zero inhale and exhale durations |
| Breathe.Tick | frontend/src/pages/Breathe.jsx:253-284 | a counter above 1 only counts down; the cycle count grows by one exactly on a return to inhale; from a valid state the next state never has a zero-duration phase and has 1 <= counter <= duration |
| Breathe.TickAtExpiry | frontend/src/pages/Breathe.jsx:256-281 | at expiry the phase becomes the next non-empty phase of the cyclic order, with that phase's full duration, and the cycle count grows exactly when that phase is inhale |
| Breathe.RunKeepsInv | frontend/src/pages/Breathe.jsx:249-288 | any number of ticks keeps the phase non-empty and the counter within 1..duration, and never lowers the cycle count |
| Breathe.RunAdd | frontend/src/pages/Breathe.jsx:252-285 | a+b ticks are a ticks followed by b ticks |
| Breathe.RunWithinPhase | frontend/src/pages/Breathe.jsx:254 | fewer ticks than the counter only subtract from it |
| Breathe.PhaseExpires | frontend/src/pages/Breathe.jsx:254-281 | a phase entered with counter c is left after exactly c ticks |
| Breathe.InhaleAndHold | frontend/src/pages/Breathe.jsx:257-267 | inhale plus hold1 seconds after the start of inhale the timer is at the start of exhale, a zero hold1 being skipped |
| Breathe.ExhaleAndHold | frontend/src/pages/Breathe.jsx:268-281 | exhale plus hold2 seconds after the start of exhale the timer is back at inhale with one more cycle |
| Breathe.FullCycle | frontend/src/pages/Breathe.jsx:253-284 | one cycle length of ticks from the start of inhale returns to the start of inhale with the cycle count one higher |
| Breathe.ManyCycles | frontend/src/pages/Breathe.jsx:253-284 | k cycle lengths of ticks add exactly k cycles |
| Breathe.NewRecord | frontend/src/pages/Breathe.jsx:323-329 | the saved record carries the technique's name, the cycle count and the chosen mood |
| Breathe.BreathePage.constructor | frontend/src/pages/Breathe.jsx:237-245 | box breathing, inactive, at the start of inhale with 0 cycles, no dialog, no mood |
| Breathe.BreathePage.TickSecond | frontend/src/pages/Breathe.jsx:249-288 | while active the state follows `Tick`; while inactive nothing changes; the timer invariant is kept |
| Breathe.BreathePage.Start | frontend/src/pages/Breathe.jsx:290-293 | active; a cycle count of 0 becomes 1, any other is kept |
| Breathe.BreathePage.Pause | frontend/src/pages/Breathe.jsx:295-297 | only the active flag is cleared |
| Breathe.BreathePage.Reset | frontend/src/pages/Breathe.jsx:299-305 | inactive, dialog closed, at the start of inhale of the current technique with 0 cycles |
| Breathe.BreathePage.ChangeTechnique | frontend/src/pages/Breathe.jsx:307-313 | the new technique, inactive, at the start of its inhale with 0 cycles |
| Breathe.BreathePage.Finish | frontend/src/pages/Breathe.jsx:315-318 | inactive with the feedback dialog open |
| Breathe.BreathePage.ChooseMood | frontend/src/pages/Breathe.jsx:401 | the chosen mood is selected |
| Breathe.BreathePage.Skip | frontend/src/pages/Breathe.jsx:409 | the dialog closes and nothing is recorded |
| Breathe.BreathePage.SaveSession | frontend/src/pages/Breathe.jsx:320-337 | without a mood nothing changes; with one exactly one record is appended after the earlier ones and the page resets |
| Calendar.DaysInMonth | frontend/src/pages/Journal.jsx:306 | February has 29 days in a leap year of the `Date` year and 28 otherwise; April, June, September and November have 30; the other seven months have 31 |
| Calendar.YearLength | frontend/src/pages/Journal.jsx:306 | the twelve month lengths add up to 365 or, in a leap year, 366 |
| Calendar.YearWraps | frontend/src/pages/Journal.jsx:375-391 | January steps back to December of the previous year, December forward to January of the next; other months keep the year |
| Calendar.SameIndexSameMonth | frontend/src/pages/Journal.jsx:375-391 | two valid months with the same month count are the same month |
| Calendar.StepsMoveByOneMonth | frontend/src/pages/Journal.jsx:375-391 | both steps keep the month in 0..11 and move the month count by exactly one |
| Calendar.NextThenPrev | frontend/src/pages/Journal.jsx:375-391 | next followed by previous is the identity |
| Calendar.PrevThenNext | frontend/src/pages/Journal.jsx:375-391 | previous followed by next is the identity |
| Calendar.MonthsBack | frontend/src/pages/Insights.jsx:159-167 | k steps back give a valid month whose month count is k lower |
| Journal.Find | frontend/src/pages/Journal.jsx:332 | the position found holds the key; no position means no pair has the key |
| Journal.Get | frontend/src/pages/Journal.jsx:366-369 | `entries[key]`: an entry found is stored under that key; none found means no stored key equals it |
| Journal.Upsert | frontend/src/pages/Journal.jsx:366-369 | `{ ...entries, [key]: e }`: an existing key keeps its position and the key order is unchanged; a new key is appended after all earlier pairs; every pair under another key stays where it was |
| Journal.UpsertGetAll | frontend/src/pages/Journal.jsx:366-369 | after an upsert the key reads back the new entry, keys stay distinct, and every other key reads as before |
| Journal.UpsertGet | frontend/src/pages/Journal.jsx:366-369 | after an upsert the key reads back the new entry, every other key reads as before, keys stay distinct, and the size grows by one only for a new key |
| Journal.FindUnique | frontend/src/pages/Journal.jsx:332 | with distinct keys a key is found at the one position holding it |
| Journal.Values | frontend/src/pages/Journal.jsx:478 | `Object.values`: the entries in key order |
| Journal.EditorFor | frontend/src/pages/Journal.jsx:330-346 | a day with an entry loads its text and mood, a falsy sleep as 7 and a falsy stress as 3, saved; other days show '', null, 7, 3, unsaved |
| Journal.SaveDisabled | frontend/src/pages/Journal.jsx:578 | disabled exactly when the text is blank or already saved |
| Journal.SleepDown | frontend/src/pages/Journal.jsx:528 | half an hour less, or 0 when that would go below 0 |
| Journal.SleepUp | frontend/src/pages/Journal.jsx:530 | half an hour more, or 14 when that would go above 14 |
| Journal.SleepButtonsStayOnGrid | frontend/src/pages/Journal.jsx:528-530 | from a half-hour value in 0..14 both buttons stay in 0..14 on the half-hour grid |
| Journal.SleepButtonsUndo | frontend/src/pages/Journal.jsx:528-530 | between 0.5 and 14 the + button undoes the - button, and between 0 and 13.5 the - button undoes the + button |
| Journal.IsFutureDateAsWritten | frontend/src/pages/Journal.jsx:393-397 | definition: `date > today` with today set to midnight, so a later day or any moment of today after midnight is the future |
| Journal.OpeningSelectionIsFutureAsWritten | frontend/src/pages/Journal.jsx:393-400 | as written, any moment of today after midnight counts as the future, so the page opens on "You cannot journal for the future." |
| Journal.IsFutureDay | frontend/src/pages/Journal.jsx:393-398 | future exactly when the calendar day is after today; agrees with the source at midnight |
| Journal.TodayIsNotFuture | frontend/src/pages/Journal.jsx:393-400 | compared by day, today is never in the future |
| Journal.JournalPage.EditorShownAsWritten | frontend/src/pages/Journal.jsx:393-400 | as written, the editor shows only for a selected instant no later than midnight of today |
| Journal.JournalPage.EditorShown | frontend/src/pages/Journal.jsx:500-504 | with days compared, the editor shows exactly for a selected day up to today, and agrees with the switch as written at midnight |
| Journal.RenderCalendarDays | frontend/src/pages/Journal.jsx:402-433 | startDay empty cells, then exactly daysInMonth day cells for days 1.. in order, each with its key, selection, entry and future flags |
| Journal.FutureCellsAreNotSelectable | frontend/src/pages/Journal.jsx:418-426 | a day cell can be clicked exactly when its day is not after today |
| Journal.RecentEntries | frontend/src/pages/Journal.jsx:478-480 | at most 3 entries, newest first, drawn from the stored values |
| Journal.RecentAreNewest | frontend/src/pages/Journal.jsx:478-480 | every entry not shown is no newer than the last one shown |
| Journal.JournalPage.constructor | frontend/src/pages/Journal.jsx:311-346 | the opening instant is selected, the current month shown, storage loaded, and the editor holds today's entry; after midnight the switch as written hides the editor, while the day comparison shows it |
| Journal.JournalPage.LoadEditor | frontend/src/pages/Journal.jsx:330-346 | the editor shows `EditorFor` of the selected day |
| Journal.JournalPage.ClickDay | frontend/src/pages/Journal.jsx:425 | a future day is ignored; another day is selected and loaded |
| Journal.JournalPage.OpenEntry | frontend/src/pages/Journal.jsx:482 | a recent entry's day is selected and loaded |
| Journal.JournalPage.ChangeText | frontend/src/pages/Journal.jsx:348-351 | the text changes and the saved flag clears |
| Journal.JournalPage.ChangeMood | frontend/src/pages/Journal.jsx:353-356 | the mood changes and the saved flag clears |
| Journal.JournalPage.DecreaseSleep | frontend/src/pages/Journal.jsx:528 | sleep steps down and the saved flag clears |
| Journal.JournalPage.IncreaseSleep | frontend/src/pages/Journal.jsx:530 | sleep steps up and the saved flag clears |
| Journal.JournalPage.ChooseStress | frontend/src/pages/Journal.jsx:539-542 | stress becomes the chosen level 1..5 and the saved flag clears |
| Journal.JournalPage.Save | frontend/src/pages/Journal.jsx:364-373 | the new object is the old one upserted with {text, mood, sleep, stress, date} under the selected day (an existing day keeps its place, a new day goes last); that key reads back the entry, every other key is unchanged, storage holds the new object, and the entry is saved |
| Journal.JournalPage.PrevMonth | frontend/src/pages/Journal.jsx:375-382 | the view moves one month back and stays valid |
| Journal.JournalPage.NextMonth | frontend/src/pages/Journal.jsx:384-391 | the view moves one month forward and stays valid |
| Insights.MoodValue | frontend/src/pages/Insights.jsx:119 | defined exactly for Great, Okay, Dreamy, Low and Anxious, with values in 1..5 |
| Insights.ReverseMood | frontend/src/pages/Insights.jsx:120 | defined exactly for 1..5 |
| Insights.MoodScaleRoundTrip | frontend/src/pages/Insights.jsx:119-120 | a mapped label reads back as itself, except that Dreamy reads back as Okay |
| Insights.PointFor | frontend/src/pages/Insights.jsx:146-156 | a day without an entry has all-null fields; otherwise the mood value is the mapped label or null, and a falsy sleep or stress is null |
| Insights.DailySeries | frontend/src/pages/Insights.jsx:137-156 | exactly `days` buckets, bucket i being the day `days-1-i` days before today |
| Insights.DailySeriesCoversWindow | frontend/src/pages/Insights.jsx:140-144 | every day of the window has its bucket, at its distance from the first day |
| Insights.DailySeriesOrder | frontend/src/pages/Insights.jsx:140-144 | the last bucket is today and the buckets are oldest first |
| Insights.CountPresent | frontend/src/pages/Insights.jsx:178 | the number of present values is 0 exactly when all are null |
| Insights.AvgVal | frontend/src/pages/Insights.jsx:177-181 | null exactly when no value is present; otherwise the mean times the count is the sum |
| Insights.ScaledCountIsProduct | frontend/src/pages/Insights.jsx:180 | adding x once per present value is x times the count |
| Insights.SumPresentBounds | frontend/src/pages/Insights.jsx:180 | values within [lo, hi] sum to between lo and hi times their count |
| Insights.ScaleStep | frontend/src/pages/Insights.jsx:180 | one more value adds x to x times the count |
| Insights.MeanBounds | frontend/src/pages/Insights.jsx:180 | a sum between lo·n and hi·n has its mean between lo and hi |
| Insights.SumBetweenScaledCounts | frontend/src/pages/Insights.jsx:177-181 | the sum of the kept values lies between the lower and the upper bound times their number |
| Insights.AvgValWithinBounds | frontend/src/pages/Insights.jsx:177-181 | a mean lies between the smallest and largest bound of its values |
| Insights.AvgValOfTwoSleeps | frontend/src/pages/Insights.jsx:177-184 | sleeps 6 and 8 average to 7, with or without a null between them |
| Insights.RoundReal | frontend/src/pages/Insights.jsx:193 | `Math.round`: the nearest integer, halves up |
| Insights.TrailingMonths | frontend/src/pages/Insights.jsx:159-167 | 12 valid months, the last the current one, consecutive and oldest first |
| Insights.TrailingMonthsDistinct | frontend/src/pages/Insights.jsx:159-167 | the twelve months are pairwise different |
| Insights.TrailingMonthsAsWritten | frontend/src/pages/Insights.jsx:159-167 | as written, 12 buckets; bucket i is the intended month i when that month has today's day of the month, and the month after it otherwise |
| Insights.Landing | frontend/src/pages/Insights.jsx:160-161 | `setMonth` keeps the target month exactly when it has the day of the month, and otherwise lands in the month after it |
| Insights.AsWrittenAgreesUpToThe28th | frontend/src/pages/Insights.jsx:159-167 | up to the 28th of the month the list as written is the intended one |
| Insights.YearBucketsAsWrittenSkipFebruary | frontend/src/pages/Insights.jsx:159-167 | as written, on 31 March 2025 March appears twice and February 2025 not at all |
| Insights.MonthEntries | frontend/src/pages/Insights.jsx:171-174 | exactly the entries dated in that month, each as often as it occurs, in their order |
| Insights.MoodValues | frontend/src/pages/Insights.jsx:183 | one value per entry: its mapped mood value, which lies in 1..5, or null when it has no mood or an unmapped one |
| Insights.SleepValues | frontend/src/pages/Insights.jsx:184 | one value per entry: its sleep, or null when the sleep is 0 |
| Insights.StressValues | frontend/src/pages/Insights.jsx:185 | one value per entry: its stress, or null when the stress is 0 |
| Insights.MonthPointFor | frontend/src/pages/Insights.jsx:169-195 | each bar field is the truthy mean of its values over the month's entries; the mood is null exactly when no entry of the month has a mapped mood and lies in 1..5 otherwise; the label is the reverse map of the rounded mood mean; a month without entries is all-null |
| Insights.MonthMoodPresent | frontend/src/pages/Insights.jsx:171-183 | the month has some mood value exactly when one of its entries has a mapped mood |
| Insights.YearSeries | frontend/src/pages/Insights.jsx:157-196 | exactly 12 bars, bar i for the intended trailing month i, ending with the current month |
| Insights.FilledEntries | frontend/src/pages/Insights.jsx:205 | exactly the entries with a mood, sleep or stress; empty exactly when none has one |
| Insights.FilledEntriesKeepsEvery | frontend/src/pages/Insights.jsx:205 | every filled entry is kept, as often as it occurs and in order, and no other entry is |
| Insights.MoodTotal | frontend/src/pages/Insights.jsx:208 | at most 5 per entry with a mood |
| Insights.RoundDiv | frontend/src/pages/Insights.jsx:209 | `Math.round(a / b)` for a non-negative a and positive b |
| Insights.AverageMood | frontend/src/pages/Insights.jsx:207-209 | 0 with no moods; otherwise the rounded mean of the mapped values over all entries with a mood, at most 5 |
| Insights.AverageMoodExample | frontend/src/pages/Insights.jsx:207-235 | Great, Low and a moodless entry average 3.5, rounded to 4, shown as Good |
| Insights.UnmappedMoodCountsAsZero | frontend/src/pages/Insights.jsx:208-209 | an unmapped label adds 0 but counts in the denominator |
| Insights.IsStreakUnique | frontend/src/pages/Insights.jsx:212-232 | the reference definition of the streak fixes a single value |
| Insights.SameMembers | frontend/src/pages/Insights.jsx:212 | sorting keeps the set of dates |
| Insights.LastIsLatest | frontend/src/pages/Insights.jsx:222 | the last sorted date is the unique latest date |
| Insights.DayBeforeRunMissing | frontend/src/pages/Insights.jsx:225-230 | in the sorted dates, the day before the run is absent when the loop stops at a gap or runs off the start |
| Insights.RunEndingAtLatest | frontend/src/pages/Insights.jsx:218-231 | a run of consecutive days ending at the latest date, today or yesterday, and preceded by a missing day, is the streak |
| Insights.ComputeStreak | frontend/src/pages/Insights.jsx:212-232 | the backward loop returns the reference streak: 0 unless the latest day is today or yesterday, else the length of the consecutive run ending there; never more than the number of dates |
| Insights.MoodTally | frontend/src/pages/Insights.jsx:242 | no more than the records |
| Insights.TallyZeroIffAbsent | frontend/src/pages/Insights.jsx:242 | a mood's count is 0 exactly when no record has that mood |
| Insights.SeenMoods | frontend/src/pages/Insights.jsx:241-243 | no key twice, and no keys exactly when no record has a mood |
| Insights.SeenMoodsAreRecorded | frontend/src/pages/Insights.jsx:241-242 | the keys are exactly the moods some record has |
| Insights.UnseenIsUntallied | frontend/src/pages/Insights.jsx:242 | a mood that is not yet a key has been counted 0 times |
| Insights.CountedStep | frontend/src/pages/Insights.jsx:241-242 | one turn of the `forEach` keeps keys and counts in step with the records seen so far |
| Insights.CountMoods | frontend/src/pages/Insights.jsx:241-242 | the `moodCounts` keys in first-seen order, each with its number of records |
| Insights.FirstMax | frontend/src/pages/Insights.jsx:243 | the first key with the largest count |
| Insights.ComputeBreathStats | frontend/src/pages/Insights.jsx:239-245 | with records and an empty previous total: the record count, the sum of cycles, and the first most frequent mood or N/A; otherwise the previous stats stay |
| Insights.SavedSessionCounts | frontend/src/pages/Insights.jsx:239-245 | after one more session is saved, the recomputed totals are one more session, the earlier cycles plus the new ones, the new mood's tally up by one and no other, and a top mood that some record has |
| Insights.InsightsPage.Refresh | frontend/src/pages/Insights.jsx:129-247 | the range's series is built and the other series stays; the stats and the breathing stats are what the effect derives from the previous ones |
| Insights.InsightsPage.constructor | frontend/src/pages/Insights.jsx:124-129 | month range with its daily series, then the stats and breathing stats the effect derives from the defaults |
| Insights.InsightsPage.SetTimeRange | frontend/src/pages/Insights.jsx:127-247 | the range changes, its series is rebuilt (the year series over the intended trailing months) and the other stays, and the stats and breathing stats are what the effect derives from the previous ones |
| Insights.DatesOf | frontend/src/pages/Insights.jsx:212 | one date per filled entry, in order |
| AuthContext.AuthProvider.constructor | frontend/src/context/AuthContext.jsx:10-14 | the current user is the stored record if any; loading is false |
| AuthContext.AuthProvider.Signup | frontend/src/context/AuthContext.jsx:19-24 | stores {name, pin, joinDate}, makes it the current user, returns true |
| AuthContext.AuthProvider.Login | frontend/src/context/AuthContext.jsx:26-33 | true exactly when a stored record has an equal PIN, which then becomes the user; otherwise the user is unchanged |
| AuthContext.AuthProvider.UserExists | frontend/src/context/AuthContext.jsx:42-44 | definition: `userExists` is true exactly when a record is stored, independent of the signed-in user |
| AuthContext.AuthProvider.Logout | frontend/src/context/AuthContext.jsx:35-44 | the user is cleared and `userExists` keeps its value |
| AuthContext.SignupLogoutLogin | frontend/src/context/AuthContext.jsx:19-40 | after signup and logout a different PIN is refused and the signup PIN signs the same user back in |
| AuthPage.SignupError | frontend/src/pages/Auth.jsx:150-157 | no error exactly when the trimmed name has 2+ UTF-16 code units and the PIN 4+; the name is checked first |
| AuthPage.OneEmojiNamePasses | frontend/src/pages/Auth.jsx:150 | a one-character name above U+FFFF passes the name guard, and a one-letter name does not |
| AuthPage.BlankNameIsCheckedFirst | frontend/src/pages/Auth.jsx:150-153 | a blank name gets the name error whatever the PIN |
| AuthPage.CapPin | frontend/src/pages/Auth.jsx:227 | at most 4 characters, a prefix of what was typed, unchanged when short enough |
| AuthPage.SubmittedPinShape | frontend/src/pages/Auth.jsx:225-234 | a PIN the form lets through has 1 to 4 digits, its code-unit length equals its character count, and for any name with 2+ code units after trimming the PIN error fires exactly when it has fewer than 4 |
| AuthPage.AuthScreen.constructor | frontend/src/pages/Auth.jsx:126-137 | login mode exactly when a record is stored; a signed-in user goes to the dashboard |
| AuthPage.AuthScreen.ChangeName | frontend/src/pages/Auth.jsx:128 | the name field holds the text |
| AuthPage.AuthScreen.ChangePin | frontend/src/pages/Auth.jsx:224-227 | the PIN field holds the capped text |
| AuthPage.AuthScreen.Submit | frontend/src/pages/Auth.jsx:139-161 | login mode: success goes to the dashboard, failure sets the PIN error; signup mode: the first failing guard's error and no signup, or a signup and the dashboard |
| App.ProtectedRoute | frontend/src/App.jsx:18-27 | nothing while loading, a redirect to /auth without a user, the child otherwise |
| App.DropTrailingSlashes | frontend/src/App.jsx:37-86 | the router's `\/*$`: the result is a prefix of the path, does not end in '/', and every dropped character is '/' |
| App.RouteKey | frontend/src/App.jsx:37-86 | the key a path is matched by: trailing slashes dropped and letters lowered (matching is case-insensitive), "/" for a path of slashes only; never empty, no capital letters |
| App.LowerPathIsItsKey | frontend/src/App.jsx:38-85 | a non-empty lower-case path without a trailing '/' is its own key, so every listed route path matches itself |
| App.Lookup | frontend/src/App.jsx:37-86 | a route found has the key as its path; none found means no route has it |
| App.Render | frontend/src/App.jsx:34-90 | no match exactly when no route has the path's key; a page shown at a non-public key needs a signed-in user |
| App.TrailingSlashIgnored | frontend/src/App.jsx:41-45 | "/dashboard/" shows the dashboard to a signed-in user |
| App.CaseIgnored | frontend/src/App.jsx:38-39 | "/AUTH" shows the sign-in screen to a signed-out visitor |
| App.LookupFirst | frontend/src/App.jsx:37-86 | the first route with a path is the one matched |
| App.DistinctPaths | frontend/src/App.jsx:38-85 | no two routes share a path |
| App.PublicRoutes | frontend/src/App.jsx:38-85 | a route is unguarded exactly when its path is /, /auth or /emergency |
| App.ResourcesIsGuarded | frontend/src/App.jsx:79-84 | /resources, under the "Public Routes" comment, redirects a signed-out visitor to /auth |
| App.SignedOutSeesOnlyPublicPages | frontend/src/App.jsx:18-85 | signed out, a page shows only at a path whose key (case and trailing slashes ignored) is public |
| App.UnguardedShows | frontend/src/App.jsx:38-85 | an unguarded route shows its page at any path whose key is its path, whoever is signed in |
| App.PublicPagesAlwaysShow | frontend/src/App.jsx:38-85 | a path whose key is public shows its page whether or not anyone is signed in |
| App.SignedInSeesEveryPage | frontend/src/App.jsx:18-85 | signed in and not loading, every path whose key is a listed path shows its page |
| Gemini.ModelFor | frontend/src/services/gemini.js:9-30 | a model exists exactly when the key is set, with the chat or voice configuration |
| Gemini.RoleOf | frontend/src/services/gemini.js:137 | role user exactly for sender 'user' |
| Gemini.TrimHistory | frontend/src/services/gemini.js:136-139 | the last min(6, n) messages in order, each mapped to a turn |
| Gemini.TrimHistoryKeepsLatest | frontend/src/services/gemini.js:136 | a message among the last 6 is forwarded at its place; older ones are not |
| Gemini.CrisisSuspected | frontend/src/services/gemini.js:146 | definition: 'help' or 'unsafe' occurs in the lower-cased message |
| Gemini.EffectiveTone | frontend/src/services/gemini.js:146-149 | calm when 'help' or 'unsafe' occurs in the lower-cased message, the requested tone otherwise |
| Gemini.ToneTextsDiffer | frontend/src/services/gemini.js:60-73 | the calm and the Gen-Z instruction texts are different strings |
| Gemini.RenderFirstTurn | frontend/src/services/gemini.js:152-156 | three instructions and a text render as the four strings concatenated in order |
| Gemini.TonePrompt | frontend/src/services/gemini.js:150 | the Gen-Z instruction exactly for the tone 'genz', the calm one for every other tone |
| Gemini.SystemInstruction | frontend/src/services/gemini.js:152 | definition: the base prompt, then the tone prompt, then the promotion protocol |
| Gemini.Reminder | frontend/src/services/gemini.js:159 | definition: the mid-conversation reminder text naming the tone |
| Gemini.Prompt | frontend/src/services/gemini.js:150-160 | a first turn is the base, tone and promotion instructions and then the user line; a later turn is the reminder naming the effective tone and then the user line |
| Gemini.CrisisForcesCalm | frontend/src/services/gemini.js:146-160 | a suspected crisis selects the calm instruction; the first-turn prompt renders as base, calm and promotion texts and the user line, a later one as the calm reminder and the user line |
| Gemini.GenZOnlyWhenAsked | frontend/src/services/gemini.js:146-156 | the Gen-Z instruction is in the prompt exactly on a first turn that asks for Gen-Z without a suspected crisis; the calm one exactly on the other first turns |
| Gemini.PromptEndsWithMessage | frontend/src/services/gemini.js:154-160 | whatever the instruction texts, both kinds of prompt end with a blank line, "User: " and the message |
| Gemini.SendMessage | frontend/src/services/gemini.js:126-170 | no request and the missing-key error without a key; otherwise one request with the model, trimmed history and prompt, resolving to the answer or the fixed fallback |
| Gemini.NotInitialisedIsUnreachable | frontend/src/services/gemini.js:130-133 | "Model not initialized." is only ever what the service itself answered |
| Gemini.GenerateReflection | frontend/src/services/gemini.js:95-124 | no request and the missing-key error without a key; otherwise the orchestrator instructions and the summary prompt, in that order, resolving to the answer or the fixed fallback |
| Chat.Greeting | frontend/src/pages/Chat.jsx:177-179 | the opening message has id 1 and comes from the AI |
| Chat.CrisisReply | frontend/src/pages/Chat.jsx:212 | definition: the reply holds `[CRISIS_FLAG]`, or 'help line' or '988' in lower case |
| Chat.CleanReply | frontend/src/pages/Chat.jsx:217 | definition: the first `[CRISIS_FLAG]` removed, then trimmed; its properties are in Chat.CleanReplyRemovesFirstFlag |
| Chat.CleanReplyRemovesFirstFlag | frontend/src/pages/Chat.jsx:217 | the displayed reply is the trimmed reply with only its first flag removed, and has no space at either end |
| Chat.FlagIsStripped | frontend/src/pages/Chat.jsx:212-217 | a flagged sentence shows as the sentence and raises the banner |
| Chat.TrimOfUnpadded | frontend/src/pages/Chat.jsx:217 | trimming a text without spaces at its ends leaves it alone |
| Chat.HistoryFor | frontend/src/pages/Chat.jsx:207 | the messages other than the greeting, in order |
| Chat.TextToSend | frontend/src/pages/Chat.jsx:196-198 | `textOverride \|\| input`, failing for a click event |
| Chat.SendButtonAsWrittenNeverSends | frontend/src/pages/Chat.jsx:196-198 | as written, the send button's click event makes `handleSend` throw before anything is sent |
| Chat.ChatPage.constructor | frontend/src/pages/Chat.jsx:176-181 | empty input, only the greeting, no loading, no banner |
| Chat.ChatPage.ChangeInput | frontend/src/pages/Chat.jsx:176 | the input holds the text |
| Chat.ChatPage.HandleSend | frontend/src/pages/Chat.jsx:196-228 | blank or failing text changes nothing; otherwise the user message and then the cleaned reply are appended, the input cleared, the history sent without the greeting, and the banner raised but never lowered |
| Chat.ChatPage.Send | frontend/src/pages/Chat.jsx:200-221 | the request is the one the service call made; the user message and then the cleaned reply are appended, the input cleared, loading over, and the banner raised for a crisis reply and never lowered |
| Chat.ChatPage.ReceiveReply | frontend/src/pages/Chat.jsx:211-221 | the cleaned reply is appended, the banner raised for a crisis reply, loading ends |
| Chat.ChatPage.KeyDown | frontend/src/pages/Chat.jsx:230-235 | Enter without Shift sends the input, with the user message, the cleaned reply, the cleared input and the sticky banner stated as for `handleSend`; a blank input or any other key changes nothing |
| Chat.ChatPage.ClickSendAsWritten | frontend/src/pages/Chat.jsx:380-381 | as written, a click changes nothing and sends nothing |
| Chat.ChatPage.ClickSend | frontend/src/pages/Chat.jsx:380-381 | corrected: disabled while loading or blank; enabled, it sends the input, with the user message, the cleaned reply, the cleared input and the sticky banner stated as for `handleSend` |
| Chat.ChatPage.VoiceFinal | frontend/src/pages/Chat.jsx:248-254 | a non-blank final transcript is sent, with the appended pair, the cleared input and the banner stated in full; a blank one stays in the input and nothing is sent; an empty one changes nothing |
| Resources.EveryCategoryHasAButton | frontend/src/pages/Resources.jsx:8-66 | every resource's category has a button |
| Resources.MatchesSearch | frontend/src/pages/Resources.jsx:243 | definition: the lower-cased search occurs in the lower-cased title or description |
| Resources.MatchesCategory | frontend/src/pages/Resources.jsx:244 | definition: the category is All or the resource's own |
| Resources.Filtered | frontend/src/pages/Resources.jsx:242-246 | a resource is shown exactly when the search occurs case-insensitively in its title or description and the category is All or its own; the order of the table is kept |
| Resources.EmptyPatternOccurs | frontend/src/pages/Resources.jsx:243 | the empty search occurs in every text |
| Resources.EmptySearchShowsAll | frontend/src/pages/Resources.jsx:242-245 | no search with All shows every resource in order |
| Resources.EmptySearchFiltersByCategory | frontend/src/pages/Resources.jsx:242-246 | with no search, only the category decides |
| Resources.CategoryWithinAll | frontend/src/pages/Resources.jsx:244 | for one search, a category's list is picked out of the All list in order |
| Resources.UnusedCategoryShowsNothing | frontend/src/pages/Resources.jsx:244 | a category no resource has shows nothing |
| Resources.BadgeLabel | frontend/src/pages/Resources.jsx:310 | the type with its first character upper-cased and the rest unchanged |
| Resources.BadgeLabels | frontend/src/pages/Resources.jsx:310 | article, video and exercise read Article, Video and Exercise |
| Dashboard.GreetingFor | frontend/src/pages/Dashboard.jsx:305-310 | morning before 12, afternoon from 12 to 17, evening from 18 |
| Dashboard.GreetingAdvancesWithTheDay | frontend/src/pages/Dashboard.jsx:305-310 | a later hour never gets an earlier greeting |
| Dashboard.InitialMood | frontend/src/pages/Dashboard.jsx:287-295 | the saved mood exactly when it was saved today, none otherwise |
| Dashboard.MoodExpiresOvernight | frontend/src/pages/Dashboard.jsx:287-295 | a mood chosen another day is not restored |
| Dashboard.DashboardPage.constructor | frontend/src/pages/Dashboard.jsx:287-310 | the restored selection and the greeting for the hour |
| Dashboard.DashboardPage.SelectMood | frontend/src/pages/Dashboard.jsx:297-301 | the button is selected and saved with today's date |
| Dashboard.SelectThenReopen | frontend/src/pages/Dashboard.jsx:287-301 | reopened the same day the mood is still selected; on another day nothing is |
| Profile.KeysAreCounted | frontend/src/pages/Profile.jsx:171 | with distinct keys the number of keys is the number of entries |
| Profile.StatsOf | frontend/src/pages/Profile.jsx:167-175 | entries is the number of journal keys, sessions the list length, a missing item counting 0 |
| Profile.SavingAnEntryCounts | frontend/src/pages/Profile.jsx:171 | a journal save for a new day raises the count by one; rewriting a day keeps it |
| Profile.Renamed | frontend/src/pages/Profile.jsx:181 | only the name is replaced; PIN and join date stay |
| Profile.RenameKeepsLogin | frontend/src/pages/Profile.jsx:181 | the renamed record accepts exactly the PINs the old one did |
| Profile.InitialName | frontend/src/pages/Profile.jsx:163 | the user's name if non-empty, otherwise 'User' |
| Profile.ProfilePage.constructor | frontend/src/pages/Profile.jsx:161-175 | the initial name, not editing, the loaded counts |
| Profile.ProfilePage.StartEditing | frontend/src/pages/Profile.jsx:223 | editing starts |
| Profile.ProfilePage.ChangeName | frontend/src/pages/Profile.jsx:215 | the field holds the text |
| Profile.ProfilePage.Save | frontend/src/pages/Profile.jsx:177-190 | always leaves editing; with a user stores the renamed user and reloads; without one writes nothing |
| Text.Utf16Length | frontend/src/pages/Auth.jsx:150-154 | `.length`: between the character count and twice it, and equal to the character count exactly when no character is above U+FFFF |
| Text.Trim | frontend/src/pages/Chat.jsx:217 | `trim`: the middle of the text with only white space removed at the ends, empty exactly for a blank text |
| Text.ToLower | frontend/src/pages/Chat.jsx:212 | same length, each ASCII capital lowered |
| Text.IndexOf | frontend/src/pages/Chat.jsx:217 | present exactly when the pattern occurs, at its first occurrence |
| Text.ReplaceFirst | frontend/src/pages/Chat.jsx:217 | `replace` with a string pattern: unchanged without an occurrence, else the first occurrence replaced |
| Text.Capitalize | frontend/src/pages/Resources.jsx:310 | the first character upper-cased, the rest unchanged |
| Sorting.PrefixOfSorted | frontend/src/pages/Journal.jsx:479-480 | the first n of a sorted list are sorted and drawn from it |
| Sorting.SortBy | frontend/src/pages/Journal.jsx:479 | ordered by the key, a permutation of the input |
| Sorting.SortInts | frontend/src/pages/Insights.jsx:212 | ascending, a permutation of the input |
| Seqs.Filter | frontend/src/pages/Chat.jsx:207 | only elements of the input that pass, no more than the input |
| Seqs.FilterIsSubsequence | frontend/src/pages/Resources.jsx:242 | the filtered list keeps the input's order |
| Seqs.FilterCounts | frontend/src/pages/Insights.jsx:205 | each passing element is kept as often as it occurs, and no other element |
| Seqs.FilterAll | frontend/src/pages/Resources.jsx:242-245 | a filter everything passes is the identity |
| Seqs.FilterMonotone | frontend/src/pages/Resources.jsx:244 | a stronger predicate picks a subsequence of a weaker one's result |
| Seqs.FilterCongruent | frontend/src/pages/Resources.jsx:242-246 | predicates that agree on the elements filter alike |

## Left out

- Rendering, styling, animation and charts are not modelled: JSX layout, styled-components, framer-motion, recharts and the heat-map colours. The resource cards' colours are dropped for the same reason.
- LandingPage.jsx, Emergency.jsx and Settings.jsx are not part of this model: they hold static pages and local UI toggles.
- The voice pieces are not part of this model: the live voice client (liveGemini.js), the browser speech wrapper (voice.js) and the dashboard's voice loop. They consist of audio streaming, floating-point PCM conversion and timer-driven callback recursion. In the chat page, voice is only the final transcript, `Chat.ChatPage.VoiceFinal`.
- The chat's automatic read-aloud of replies is not modelled: `voiceUsedRef` is never set to true, so that branch never runs.
- The Generative AI SDK calls are not made: the model records the request that would be sent and takes the reply text as a parameter.
- Network failures are not modelled as such: a failure is an absent `answer`, which resolves to the fixed fallback text.
- Dates are integer day numbers and (year, month) pairs. `Date` objects, the mix of UTC `toISOString` keys and local-time fields, and `toLocaleDateString` labels are not modelled. The weekday of the 1st of a month and the month of an entry's date (`monthOf`) are inputs.
- Insights.MonthPointFor: the year bars keep the exact mean instead of rounding it with `toFixed(1)`.
- Insights.YearSeries, Insights.InsightsPage.Refresh and Insights.InsightsPage.SetTimeRange build the year chart over the intended twelve months (`TrailingMonths`). On the 29th to 31st of a month the code's `setMonth` list (`TrailingMonthsAsWritten`) differs: some months then appear twice and others not at all, and the page as modelled does not show that.
- Insights.InsightsPage.SetTimeRange: switching to the year range builds the year series over the intended trailing months (`TrailingMonths`), not the `setMonth` list the code builds, which differs on the 29th to 31st of a month as the line above says.
- App.RouteKey: percent-encoded characters in the path are not decoded before matching, and only ASCII letters are lowered; every listed route path is ASCII, and without the `u` flag a case-insensitive match never pairs a non-ASCII character with an ASCII one.
- Journal.JournalPage.EditorShown: the page as modelled shows the editor by the day comparison. As written, `isFutureDate` hides it for the opening instant after midnight (`EditorShownAsWritten`).
- AuthPage.CapPin: `maxLength` counts UTF-16 code units, and the cap here counts characters. The two differ only for characters above U+FFFF, which the digit pattern refuses anyway.
- Text.ToLower: it lowers ASCII letters only, not the rest of Unicode. (`Text.IsSpace` is the full set of characters `trim` removes.)
- `JSON.parse` is not modelled: storage holds typed values, and malformed storage, which the code does not guard against, is outside the model.
- Journal.Store: it keeps keys in insertion order. JavaScript lists integer-like object keys first, but date keys never look like integers.
- React scheduling is not modelled: the re-registration of intervals, stale closures and batched updates are out of scope. Each handler is one atomic step.
- Chat.ChatPage.HandleSend: the append of the user message, the request and the reply form one step, so nothing can happen in between.
- Chat.ChatPage.KeyDown: as in the code, Enter sends even while a reply is pending.
- The storage write-failure path is not modelled, because the code has none.
- The HTML form checks are modelled as the predicate `Submits`: `pattern="[0-9]*"` and the disabled button.
- Breathe.SessionRecord: its `date` is the clock parameter, not the ISO string.

## Findings

| source | as written | input that shows it | evidently intended | confidence | as-written member | corrected member |
|---|---|---|---|---|---|---|
| frontend/src/pages/Journal.jsx:311, 393-400 | `isFutureDate` compares the selected `Date` with today's midnight, and the page opens with `selectedDate = new Date()` | opening the journal at any time after 00:00:00.000 | the selected day is in the future only when its calendar day is after today, as the comment says | not executed | Journal.OpeningSelectionIsFutureAsWritten | Journal.IsFutureDay |
| frontend/src/pages/Insights.jsx:159-167 | each year bucket calls `setMonth` on today's date, so a day of the month the target month lacks overflows into the next month | today = 31 March 2025: the buckets hold March 2025 twice and no February 2025 | the twelve distinct months ending with the current one | not executed | Insights.YearBucketsAsWrittenSkipFebruary | Insights.TrailingMonthsDistinct |
| frontend/src/pages/Chat.jsx:196-198, 380 | `onClick={handleSend}` passes the click event as `textOverride`, and `event.trim()` throws | typing "hello" and clicking the send button | the button sends the input, like Enter | not executed | Chat.ChatPage.ClickSendAsWritten | Chat.ChatPage.ClickSend |
