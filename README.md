# Cubo Estratégia — a Dafny model of its session, storage and planning core

Cubo Estratégia is a React/TypeScript front end over a Supabase backend. A
user enters an access code, which opens or creates a *user session*. Within
that session the user can:

- plan an innovation portfolio (projects rated by impact and complexity,
  drawn on an impact/complexity matrix, and saved as strategy sessions
  with their projects);
- compute and save ROI projects, with AI benchmarks that are cached for 30
  minutes;
- have their use of the AI features counted per session.

An administration view lists every session with its counts and totals.

This project models that core in Dafny:

| file | module | source |
|---|---|---|
| `common.dfy` | `Common` | JavaScript helpers the core leans on: `trim`, `toLowerCase`, truthiness, `x \|\| undefined` |
| `ordering.dfy` | `Ordering` | `order('created_at', { ascending: false })` as a sort newest first |
| `backend.dfy` | `Backend` | the four Supabase tables the core reads and writes, as a `Database` object |
| `benchmark_cache.dfy` | `BenchmarkCaching` | `src/hooks/useBenchmarkCache.ts` |
| `click_counter.dfy` | `ClickCounting` | `src/hooks/useClickCounter.ts` |
| `session.dfy` | `Sessions` | `src/hooks/useSession.ts` |
| `roi_storage.dfy` | `RoiStorage` | `src/hooks/useROIStorage.ts` |
| `strategy_storage.dfy` | `StrategyStorage` | `src/hooks/useStrategyStorage.ts` |
| `portfolio_chart.dfy` | `PortfolioCharting` | `src/components/PortfolioChart.tsx` |
| `strategy_platform.dfy` | `StrategyPlatform` | `src/components/StrategyPlatform.tsx` |
| `roi_calculator.dfy` | `RoiCalculator` | `src/components/ROICalculator.tsx` |
| `user_sessions.dfy` | `UserSessionsView` | `src/components/UserSessions.tsx` |

## Modelling choices

- **Hooks and components become classes.** A hook or component whose state
  React updates becomes a `class`:
  - its `useState` variables are fields;
  - each handler is a `method` with a `modifies` clause;
  - what the handler computes is a pure function, about which the lemmas
    speak.
- **The backend is a `Database` object.** Its `tables` field holds the rows
  of `user_sessions`, `roi_projects`, `strategy_sessions` and
  `strategy_projects`. Each Supabase query becomes a function on those rows.
- **Failures are inputs.** Whether a request fails is a boolean parameter,
  for example `fetchFails` or `insertFails`. The model therefore covers
  every error branch.
- **Generated values are inputs.** Ids the database or `Date.now()`
  generates, and timestamps, are parameters: `newId`, `idFor`, `now`,
  `storedAt`. A stored row's `created_at` is `now`.
- **Local storage** is a `LocalStorage` object holding a map from keys to
  strings.
- **JavaScript truthiness of an optional string** (`if (x)`, `x || …`) is
  `Truthy`: present and non-empty.
- **The order of `created_at` ties is fixed.** Rows with equal timestamps
  keep the order an insertion sort gives them. The database promises
  nothing about that order.
- **The chart does not clamp.** The chart code does not clamp a score to
  1..10. `PortfolioCharting.CoordinatesInRange` states that scores outside
  that range are drawn outside the plot area.

## Model

| member | source | states |
|---|---|---|
| `Common.OrUndefined` | src/hooks/useStrategyStorage.ts:80-88 | `x \|\| undefined` keeps a non-empty string and drops an empty or missing one |
| `Common.TrimStart` | src/hooks/useSession.ts:24 | the result is a suffix of the input; what was removed is all whitespace; the result does not start with whitespace |
| `Common.TrimEnd` | src/hooks/useSession.ts:24 | the result is a prefix of the input; what was removed is all whitespace; the result does not end with whitespace |
| `Common.Trim` | src/hooks/useSession.ts:24 | `trim` never lengthens its input; what it removes is described by `Common.TrimStart`, `Common.TrimEnd` and `Common.BlankIsAllWhitespace` |
| `Common.TrimStartAllWhitespace` | src/hooks/useSession.ts:24 | trimming the start leaves nothing exactly when the string is all whitespace |
| `Common.BlankIsAllWhitespace` | src/hooks/useSession.ts:24 | a code that `!code.trim()` rejects consists of whitespace only |
| `Common.BlankIffAllWhitespace` | src/hooks/useSession.ts:24 | `!code.trim()` holds exactly when the code is all whitespace (empty included) |
| `Common.TrimStartPadded` | src/hooks/useSession.ts:40 | leading whitespace does not change the trimmed start |
| `Common.TrimEndPadded` | src/hooks/useSession.ts:40 | trailing whitespace does not change the trimmed end |
| `Common.TrimEndOfWhitespace` | src/hooks/useSession.ts:40 | a string of whitespace trims to empty |
| `Common.TrimStartKeepsTail` | src/hooks/useSession.ts:40 | once non-whitespace has been reached, what follows is kept as is |
| `Common.AllWhitespaceAppend` | src/hooks/useSession.ts:40 | whitespace joined to whitespace is whitespace |
| `Common.TrimPadded` | src/hooks/useSession.ts:40 | `trim` ignores any padding of whitespace on both sides |
| `Common.LowerChar` | src/hooks/useBenchmarkCache.ts:16 | upper-case letters move to their lower-case partner; other characters and whitespace-ness are kept |
| `Common.Lower` | src/components/UserSessions.tsx:87 | `toLowerCase` keeps the length and lowers each character in place |
| `Common.LowerAppend` | src/components/UserSessions.tsx:87 | lower-casing distributes over concatenation |
| `Common.Contains` | src/components/UserSessions.tsx:87 | `includes` holds exactly when the text occurs at some position of the string |
| `Common.TrimStartLower` | src/hooks/useBenchmarkCache.ts:16 | lower-casing and trimming the start commute |
| `Common.TrimEndLower` | src/hooks/useBenchmarkCache.ts:16 | lower-casing and trimming the end commute |
| `Common.TrimLowerCommute` | src/hooks/useBenchmarkCache.ts:16 | `toLowerCase().trim()` equals `trim().toLowerCase()` |
| `Ordering.InsertDesc` | src/hooks/useROIStorage.ts:44 | inserting adds exactly the one element (as multisets) |
| `Ordering.InsertDescSorted` | src/hooks/useROIStorage.ts:44 | inserting into a list sorted newest first keeps it sorted |
| `Ordering.SortDesc` | src/hooks/useROIStorage.ts:44 | ordering by `created_at` descending is a permutation of the rows, sorted newest first |
| `Ordering.NewestFirst` | src/hooks/useStrategyStorage.ts:46-56 | the first row of a non-empty ordered list is a row of the list with the latest timestamp |
| `Backend.RoiRowsOf` | src/hooks/useROIStorage.ts:40-43 | `eq('session_id', …)` keeps exactly the rows of that session |
| `BenchmarkCaching.Key` | src/hooks/useBenchmarkCache.ts:16 | the key is no longer than the description, and it is empty exactly when the description is blank |
| `BenchmarkCaching.Lookup` | src/hooks/useBenchmarkCache.ts:17-23 | an entry is returned exactly when the key is present and less than 30 minutes old, and then it is that entry's data |
| `BenchmarkCaching.Store` | src/hooks/useBenchmarkCache.ts:27-34 | the key maps to the new data and time; every other key keeps its entry and no key is added or dropped |
| `BenchmarkCaching.BenchmarkCache.GetCachedData` | src/hooks/useBenchmarkCache.ts:15-24 | a missing key, or an entry that is 30 minutes old or older, gives nothing; a younger entry gives its data |
| `BenchmarkCaching.BenchmarkCache.SetCachedData` | src/hooks/useBenchmarkCache.ts:26-35 | the cache becomes the old cache with the entry for the description's key set to the data and the time |
| `BenchmarkCaching.BenchmarkCache.ClearCache` | src/hooks/useBenchmarkCache.ts:37-39 | the cache becomes empty |
| `BenchmarkCaching.SharedKey` | src/hooks/useBenchmarkCache.ts:16 | descriptions that differ only in letter case and padding share one cache entry |
| `BenchmarkCaching.KeyIsLowerTrim` | src/hooks/useBenchmarkCache.ts:16 | the key is the trimmed, lower-cased description |
| `BenchmarkCaching.GetAfterSet` | src/hooks/useBenchmarkCache.ts:15-35 | a read after a write under the same key gives the written data while it is fresh and nothing after 30 minutes |
| `BenchmarkCaching.ExpiredIsAbsent` | src/hooks/useBenchmarkCache.ts:19-23 | an expired entry reads as absent |
| `BenchmarkCaching.SetLeavesOtherKeys` | src/hooks/useBenchmarkCache.ts:26-35 | a write sets its own key and leaves every other key and its reads unchanged |
| `BenchmarkCaching.ClearedFindsNothing` | src/hooks/useBenchmarkCache.ts:37-39 | after `clearCache` no key reads anything |
| `ClickCounting.WithCounter` | src/hooks/useClickCounter.ts:29-34 | the updated row holds the new counter value |
| `ClickCounting.AfterIncrement` | src/hooks/useClickCounter.ts:10-44 | the table keeps its length, every id and access code, and every row of another session |
| `ClickCounting.SetCounter` | src/hooks/useClickCounter.ts:29-34 | `update … eq('id', sessionId)` changes the counter of the rows with that id and no other row |
| `ClickCounting.ClickCounter.IncrementBenchmarkClicks` | src/hooks/useClickCounter.ts:10-44 | the sessions table becomes the table after the benchmark counter of the session is incremented |
| `ClickCounting.ClickCounter.IncrementProjectSuggestionsClicks` | src/hooks/useClickCounter.ts:46-80 | the same for the project-suggestions counter |
| `ClickCounting.ClickCounter.Increment` | src/hooks/useClickCounter.ts:11-34 | the shared body of both: no session, a failed read or a failed write changes nothing |
| `ClickCounting.FirstWithIdIsTheRow` | src/hooks/useClickCounter.ts:14-20 | `single()` on a unique id returns that row |
| `ClickCounting.CountIdPositive` | src/hooks/useClickCounter.ts:14-20 | a row present with the id makes the id's count positive |
| `ClickCounting.IncrementEffect` | src/hooks/useClickCounter.ts:27-34 | a successful increment sets the session's counter to its old value (null read as 0) plus 1 and leaves the other rows alone |
| `ClickCounting.IncrementNoop` | src/hooks/useClickCounter.ts:11-25 | with no session id, a failed read or a failed update, the table is unchanged |
| `ClickCounting.IncrementKeepsOtherCounter` | src/hooks/useClickCounter.ts:29-34 | incrementing one counter never changes the other |
| `ClickCounting.SetCounterKeepsIds` | src/hooks/useClickCounter.ts:29-34 | an update keeps every id count, so a unique session stays unique |
| `ClickCounting.TwoIncrementsAddTwo` | src/hooks/useClickCounter.ts:27-34 | two successful increments add 2 to the counter |
| `Sessions.SessionStore.constructor` | src/hooks/useSession.ts:12-21 | a session is restored from local storage only when both keys hold values |
| `Sessions.SessionStore.CreateOrLoadSession` | src/hooks/useSession.ts:23-105 | on success the table, the session id, the trimmed code and local storage are set from the outcome; on failure nothing changes |
| `Sessions.SessionStore.ClearSession` | src/hooks/useSession.ts:107-116 | the session is forgotten and both local-storage keys are removed |
| `Sessions.FindByCode` | src/hooks/useSession.ts:37-51 | `maybeSingle` finds a row exactly when one row has the code, reports none exactly when none has it, and the id found is that row's |
| `Sessions.CreateOrLoad` | src/hooks/useSession.ts:23-85 | a blank code, and only a blank code, is rejected; an opened session either reuses a row with the trimmed code or appends one new row under the new id, with the trimmed code and null counters |
| `Sessions.Saved` | src/hooks/useSession.ts:88-91 | the two keys hold the session id and the code; every other key is kept with its value |
| `Sessions.Cleared` | src/hooks/useSession.ts:107-111 | both keys are removed; every other key is kept with its value |
| `Sessions.Restored` | src/hooks/useSession.ts:12-21 | a session is restored only from two non-empty stored values; without one the code is empty |
| `Sessions.CountCodeAppend` | src/hooks/useSession.ts:37-51 | adding a row adds one to its code's count and nothing to the others |
| `Sessions.FirstWithCodeOfNew` | src/hooks/useSession.ts:62-85 | a newly created code is unique and found as the new row |
| `Sessions.BlankCodeRejected` | src/hooks/useSession.ts:24-31 | a blank code is refused before any query |
| `Sessions.ExistingSessionReused` | src/hooks/useSession.ts:55-61 | an existing code opens that session's id without inserting a row |
| `Sessions.FirstWithCodeIn` | src/hooks/useSession.ts:37-51 | `maybeSingle` on a unique code returns a row of the table with that code |
| `Sessions.NewSessionCreated` | src/hooks/useSession.ts:62-85 | an unknown code inserts one new row with the trimmed code, after which the code is unique |
| `Sessions.BackendErrorFails` | src/hooks/useSession.ts:43-77 | a failed lookup, or a failed insert for an unknown code, is a failure |
| `Sessions.SecondCallSameSession` | src/hooks/useSession.ts:37-85 | opening the same code again gives the same session and adds no row |
| `Sessions.RestoreAfterSave` | src/hooks/useSession.ts:12-93 | what is saved to local storage is what is restored on the next start |
| `Sessions.RestoreAfterClear` | src/hooks/useSession.ts:107-111 | after clearing, the next start has no session |
| `Sessions.RestoredHasSession` | src/hooks/useSession.ts:124 | `hasSession` is true exactly when an id was restored, and with no id the code is empty |
| `RoiStorage.SessionProjects` | src/hooks/useROIStorage.ts:38-56 | the listed projects are exactly the session's rows, newest first |
| `RoiStorage.DeleteRows` | src/hooks/useROIStorage.ts:106-110 | the delete removes exactly the rows with that id and that session |
| `RoiStorage.InsertedRow` | src/hooks/useROIStorage.ts:68-77 | the stored row carries the session, the time and the project's fields, under the project's own id when it has one and the generated id otherwise |
| `RoiStorage.RoiStore.LoadProjects` | src/hooks/useROIStorage.ts:35-62 | the list becomes the session's projects, or stays as it was with no session or on an error |
| `RoiStorage.RoiStore.SaveProject` | src/hooks/useROIStorage.ts:64-100 | with no session or on an insert error nothing is stored; otherwise one row is appended, returned and the list reloaded |
| `RoiStorage.RoiStore.DeleteProject` | src/hooks/useROIStorage.ts:102-130 | with no session or on an error nothing changes; otherwise the rows are deleted and the list reloaded |
| `RoiStorage.RoiRowsOfAppend` | src/hooks/useROIStorage.ts:40-44 | a new row appears in its own session's rows only |
| `RoiStorage.SaveThenLoad` | src/hooks/useROIStorage.ts:64-100 | after a save, the session's list holds exactly one more project, the saved row, and no other session's list changes |
| `RoiStorage.DeleteKeepsOtherSessions` | src/hooks/useROIStorage.ts:106-110 | a delete never touches another session's rows |
| `RoiStorage.DeleteOnlyOwnRows` | src/hooks/useROIStorage.ts:102-130 | another session's list is unchanged, and the session's list loses exactly the deleted id |
| `StrategyStorage.SessionsOf` | src/hooks/useStrategyStorage.ts:42-47 | exactly the strategy sessions of the user session |
| `StrategyStorage.ProjectsOf` | src/hooks/useStrategyStorage.ts:63-67 | exactly the projects of the strategy session |
| `StrategyStorage.RemoveProjectsOf` | src/hooks/useStrategyStorage.ts:145-148 | the delete removes exactly the strategy session's projects |
| `StrategyStorage.FromRows` | src/hooks/useStrategyStorage.ts:73-82 | each row becomes one project, in order |
| `StrategyStorage.FromRow` | src/hooks/useStrategyStorage.ts:73-82 | a project keeps its row's id, name, impact, complexity, category and selection; the description and expected return are kept when non-empty and read as absent otherwise (`x \|\| undefined`) |
| `StrategyStorage.Loaded` | src/hooks/useStrategyStorage.ts:36-97 | no session or a failed query keeps the current portfolio; a new one is a stored strategy session of the user session, with no projects when their query fails (the newest pick is `StrategyStorage.LoadPicksNewest`) |
| `StrategyStorage.PortfolioName` | src/hooks/useStrategyStorage.ts:111 | the stored name is never empty and a given non-empty name is kept |
| `StrategyStorage.UpdatedRow` | src/hooks/useStrategyStorage.ts:108-115 | the update keeps the row's id, owner and time, stores a non-empty name, and leaves an omitted context as stored |
| `StrategyStorage.ProjectsAfterSave` | src/hooks/useStrategyStorage.ts:143-168 | the project rows of every other strategy session survive the save, and none is added for them |
| `StrategyStorage.TargetOf` | src/hooks/useStrategyStorage.ts:104-106 | the update targets exactly the current portfolio's id when it is non-empty, and nothing otherwise |
| `StrategyStorage.SaveEffect` | src/hooks/useStrategyStorage.ts:99-177 | a save succeeds exactly when there is a session and the update (of a held portfolio) or the insert (of a new one) succeeds; a failure leaves every table as it was; on success the held row is updated or one new row is appended, and the project rows are those after the project step; the other two tables never change; the id returned is the held portfolio's or the new one |
| `StrategyStorage.UpdateSessionRows` | src/hooks/useStrategyStorage.ts:108-115 | the update changes the row with the target id and no other row |
| `StrategyStorage.NewProjectRows` | src/hooks/useStrategyStorage.ts:151-164 | one row per project, in order, all for the strategy session |
| `StrategyStorage.StrategyStore.LoadStrategyData` | src/hooks/useStrategyStorage.ts:36-97 | the current portfolio becomes the value of `StrategyStorage.Loaded`: unchanged with no session, on an error or with no portfolio stored, otherwise the newest portfolio with its projects newest first (`StrategyStorage.LoadPicksNewest`) |
| `StrategyStorage.StrategyStore.SaveStrategySession` | src/hooks/useStrategyStorage.ts:99-177 | the result and the new tables are those of `StrategyStorage.SaveEffect`, for a first save and for an update alike; the current portfolio is reloaded after a save and untouched after a failure |
| `StrategyStorage.ProjectsOfAppend` | src/hooks/useStrategyStorage.ts:63-67 | the projects of a joined table are the projects of each part, joined |
| `StrategyStorage.ProjectsOfRemoved` | src/hooks/useStrategyStorage.ts:145-148 | after the delete the session has no projects and every other session keeps its own |
| `StrategyStorage.ProjectsOfNew` | src/hooks/useStrategyStorage.ts:151-164 | the new rows all belong to the saved strategy session |
| `StrategyStorage.AllOfOneSession` | src/hooks/useStrategyStorage.ts:63-67 | rows all of one session are that session's projects and no other's |
| `StrategyStorage.SaveReplacesProjects` | src/hooks/useStrategyStorage.ts:143-169 | a successful save replaces the session's projects with the new list and leaves other sessions' projects alone |
| `StrategyStorage.EmptyListKeepsProjects` | src/hooks/useStrategyStorage.ts:143 | with no projects or an empty list, the stored projects are left as they were |
| `StrategyStorage.FailedDeleteMerges` | src/hooks/useStrategyStorage.ts:143-168 | when the delete fails the new rows are still inserted, so old and new projects are merged |
| `StrategyStorage.DefaultNameApplied` | src/hooks/useStrategyStorage.ts:111-127 | a missing or empty portfolio name is stored as "Novo Portfólio"; the stored name is never empty |
| `StrategyStorage.SaveFailsCleanly` | src/hooks/useStrategyStorage.ts:100-120 | with no session, or a failed update of an existing portfolio, nothing is returned and no table changes |
| `StrategyStorage.ProjectInsertErrorStillReturnsId` | src/hooks/useStrategyStorage.ts:166-172 | a failed insert of the projects is only logged: the save still returns the portfolio id |
| `StrategyStorage.SortDescOfEqualKeys` | src/hooks/useStrategyStorage.ts:63-67 | projects saved in one batch, with one timestamp, are listed in the model's tie order, which keeps the batch order |
| `StrategyStorage.NewestIsUniqueMax` | src/hooks/useStrategyStorage.ts:46-56 | the row with the strictly latest timestamp is the one loaded |
| `StrategyStorage.SessionsOfAppend` | src/hooks/useStrategyStorage.ts:122-139 | a new strategy session joins its user session's list |
| `StrategyStorage.SaveThenLoad` | src/hooks/useStrategyStorage.ts:36-177 | saving a new portfolio and loading again gives back its id, name, contexts and projects, each under its new id, the projects in the model's tie order |
| `StrategyStorage.SaveUpdatesExisting` | src/hooks/useStrategyStorage.ts:104-164 | a save over the held portfolio returns its id, updates that row in place and replaces its project rows with the new list; every other portfolio keeps its projects |
| `StrategyStorage.LoadPicksNewest` | src/hooks/useStrategyStorage.ts:42-90 | for every table: no portfolio keeps the held one; otherwise the load returns a portfolio of the session that none of its others is newer than, with its name, contexts and project rows newest first (none when that query fails) |
| `StrategyStorage.LoadOfNewest` | src/hooks/useStrategyStorage.ts:42-90 | when one portfolio is strictly the newest of the session, the load returns exactly it with its projects newest first |
| `StrategyStorage.UpdatedStaysNewest` | src/hooks/useStrategyStorage.ts:108-115 | updating the newest portfolio, stored once under its id, keeps it the newest of its session |
| `StrategyStorage.ReloadedBatch` | src/hooks/useStrategyStorage.ts:151-164 | a saved batch read back gives each project under the id it was given, in order, with empty texts absent |
| `StrategyStorage.UpdateThenLoad` | src/hooks/useStrategyStorage.ts:36-177 | saving over the held newest portfolio and loading again gives back the same id, the new name, the given contexts (the stored ones where none is given) and the new projects in order |
| `PortfolioCharting.ChartDots` | src/components/PortfolioChart.tsx:24-40 | one dot per project in list order, at its complexity and impact, in its category's colour |
| `PortfolioCharting.Colour` | src/components/PortfolioChart.tsx:18-22 | each category's colour is a seven-character code starting with `#` |
| `PortfolioCharting.Cx` | src/components/PortfolioChart.tsx:25 | the x position lies in 10..90 exactly when the complexity lies in 1..10 |
| `PortfolioCharting.Cy` | src/components/PortfolioChart.tsx:26 | the y position lies in 10..90 exactly when the impact lies in 1..10 |
| `PortfolioCharting.DotOf` | src/components/PortfolioChart.tsx:24-40 | a dot has its category's colour and its project's name, and lies inside the plot area on each axis exactly when that score is in 1..10 |
| `PortfolioCharting.GridLines` | src/components/PortfolioChart.tsx:43-71 | nine vertical and nine horizontal lines at 10 + 8i, all strictly inside the plot area |
| `PortfolioCharting.TickMarks` | src/components/PortfolioChart.tsx:74-122 | ten ticks on each axis, labelled 1 to 10, at their positions |
| `PortfolioCharting.Render` | src/components/PortfolioChart.tsx:124-200 | the drawing has both axes; the nine vertical and nine horizontal grid lines at 10 + 8i, all inside the plot area; the ten ticks of each axis at their positions; and one dot per project at its place |
| `PortfolioCharting.Endpoints` | src/components/PortfolioChart.tsx:25-26 | score 1 sits at the lower/left end of each axis and 10 at the upper/right end |
| `PortfolioCharting.CoordinatesInRange` | src/components/PortfolioChart.tsx:25-26 | a score lands inside the plot area exactly when it is in 1..10; nothing clamps the others |
| `PortfolioCharting.Monotone` | src/components/PortfolioChart.tsx:25-26 | more complexity is strictly further right and more impact strictly higher, and back |
| `PortfolioCharting.ColoursDistinct` | src/components/PortfolioChart.tsx:18-22 | two categories share a colour exactly when they are the same |
| `PortfolioCharting.TicksMatchDotsOnlyAtOne` | src/components/PortfolioChart.tsx:25-122 | the tick labelled i is at the position of score i only for i = 1 |
| `StrategyPlatform.DigitRun` | src/components/StrategyPlatform.tsx:453 | the run is the longest prefix of digits |
| `StrategyPlatform.ParseInt` | src/components/StrategyPlatform.tsx:453 | `parseInt` yields no number exactly when no digit follows the leading whitespace and sign |
| `StrategyPlatform.ParseScore` | src/components/StrategyPlatform.tsx:453 | `parseInt(v) \|\| 1` is never 0: a parsed non-zero number is kept, and both no number and a parsed 0 ("0", "00", "-0", "0abc") give 1 |
| `StrategyPlatform.DigitChar` | src/components/StrategyPlatform.tsx:453 | each digit value has a digit character |
| `StrategyPlatform.Digits` | src/components/StrategyPlatform.tsx:453 | the decimal spelling of a number is non-empty and all digits |
| `StrategyPlatform.DigitsValueOfDigits` | src/components/StrategyPlatform.tsx:453 | reading the digits of n gives n back |
| `StrategyPlatform.DigitRunOfDigits` | src/components/StrategyPlatform.tsx:453 | a string of digits is read in full |
| `StrategyPlatform.ParseDigits` | src/components/StrategyPlatform.tsx:453 | `parseInt` reads back any natural number written in decimal |
| `StrategyPlatform.ParseNegative` | src/components/StrategyPlatform.tsx:453 | `parseInt` reads back any negative number written in decimal |
| `StrategyPlatform.ParseDecimal` | src/components/StrategyPlatform.tsx:453 | `parseInt` reads back any integer written in decimal |
| `StrategyPlatform.ScoreKeptUnclamped` | src/components/StrategyPlatform.tsx:453 | a typed non-zero integer is kept as the score even outside 1..10; 0 becomes 1 |
| `StrategyPlatform.NonNumericScoreIsOne` | src/components/StrategyPlatform.tsx:464 | text without digits gives the score 1 |
| `StrategyPlatform.Toggled` | src/components/StrategyPlatform.tsx:115-121 | only the `selected` flag of the projects with the id flips; every other field and project is kept |
| `StrategyPlatform.ManualProject` | src/components/StrategyPlatform.tsx:133-142 | the new project carries the form's name, impact, complexity, category and expected return, an empty description, its own id, and starts checked |
| `StrategyPlatform.MoveSelected` | src/components/StrategyPlatform.tsx:274-286 | either nothing changes or the suggestions are emptied; the portfolio keeps its projects at the front and gains exactly the checked suggestions |
| `StrategyPlatform.AfterSuggestions` | src/components/StrategyPlatform.tsx:240-255 | a failed call or a reply without projects keeps the suggestions; otherwise there is one checked suggestion per project of the reply |
| `StrategyPlatform.ContextGiven` | src/components/StrategyPlatform.tsx:217 | suggestions are asked for exactly when neither context is whitespace only |
| `StrategyPlatform.Selected` | src/components/StrategyPlatform.tsx:275 | exactly the checked projects |
| `StrategyPlatform.AddManual` | src/components/StrategyPlatform.tsx:123-157 | a blank name changes nothing; otherwise the project is appended and the form is reset |
| `StrategyPlatform.Suggested` | src/components/StrategyPlatform.tsx:250-255 | each suggestion gets its own id and starts checked, in order |
| `StrategyPlatform.Platform.HandleProjectSelection` | src/components/StrategyPlatform.tsx:115-121 | the suggestions become the toggled list; the portfolio, the form, the contexts and the portfolio name are unchanged |
| `StrategyPlatform.Platform.AddManualProject` | src/components/StrategyPlatform.tsx:123-157 | the portfolio and the form become those of `AddManual`; the suggestions, the contexts and the portfolio name are kept |
| `StrategyPlatform.Platform.SaveSuggestedProjects` | src/components/StrategyPlatform.tsx:274-292 | the checked suggestions move to the portfolio, or nothing happens when none is checked; the form, the contexts and the portfolio name are kept |
| `StrategyPlatform.Platform.GenerateSuggestions` | src/components/StrategyPlatform.tsx:216-272 | without both contexts nothing is asked; otherwise the suggestion counter is incremented and the reply's projects, if any, replace the suggestions; the portfolio, the form, the contexts and the portfolio name are kept |
| `StrategyPlatform.Platform.SetImpact` | src/components/StrategyPlatform.tsx:453 | the form's impact becomes `parseInt(v) \|\| 1`; the rest of the form, the lists, the contexts and the portfolio name are kept |
| `StrategyPlatform.Platform.SetComplexity` | src/components/StrategyPlatform.tsx:464 | the form's complexity becomes `parseInt(v) \|\| 1`; the rest of the form, the lists, the contexts and the portfolio name are kept |
| `StrategyPlatform.ToggleTwice` | src/components/StrategyPlatform.tsx:115-121 | clicking a checkbox twice restores the list |
| `StrategyPlatform.ToggleAbsentId` | src/components/StrategyPlatform.tsx:115-121 | an unknown id changes nothing |
| `StrategyPlatform.SelectedAppend` | src/components/StrategyPlatform.tsx:275 | the checked projects of a joined list are those of each part, joined |
| `StrategyPlatform.AllCheckedSelected` | src/components/StrategyPlatform.tsx:250-275 | when every suggestion is checked, all of them are taken |
| `StrategyPlatform.NothingSelected` | src/components/StrategyPlatform.tsx:275-283 | the selection is empty exactly when no project is checked |
| `StrategyPlatform.MoveSelectedEffect` | src/components/StrategyPlatform.tsx:274-292 | with nothing checked both lists stay; otherwise the checked ones are appended and the suggestions emptied |
| `StrategyPlatform.SuggestionsStartChecked` | src/components/StrategyPlatform.tsx:250-292 | fresh suggestions are all checked, so saving at once moves all of them |
| `StrategyPlatform.BlankNameRefused` | src/components/StrategyPlatform.tsx:124-131 | a whitespace-only name adds nothing and keeps the form |
| `StrategyPlatform.SuggestionsKeptWithoutProjects` | src/components/StrategyPlatform.tsx:246-262 | a failed call or a reply without projects keeps the current suggestions |
| `RoiCalculator.ReplaceNewlines` | src/components/ROICalculator.tsx:320 | the result has no newline, and text without newlines is unchanged |
| `RoiCalculator.ReplaceNewlinesAppend` | src/components/ROICalculator.tsx:320 | the newline replacement works piece by piece over a concatenation |
| `RoiCalculator.NewlineBecomesBreak` | src/components/ROICalculator.tsx:320 | every newline, wherever it is, becomes `<br/>` and the text around it is replaced on its own |
| `RoiCalculator.CloseAt` | src/components/ROICalculator.tsx:320 | the closing `**` found is the first one, with no line terminator before it |
| `RoiCalculator.BoldFrom` | src/components/ROICalculator.tsx:320 | the bold replacement leaves text without `**` as it is |
| `RoiCalculator.FormatBenchmark` | src/components/ROICalculator.tsx:320 | the formatted benchmark has no raw newline left |
| `RoiCalculator.CloseAtWithoutStars` | src/components/ROICalculator.tsx:320 | with no `*` left there is no closing `**` to find |
| `RoiCalculator.BoldWithoutStars` | src/components/ROICalculator.tsx:320 | with no `*` left the bold replacement copies the rest unchanged |
| `RoiCalculator.UnclosedStarsStay` | src/components/ROICalculator.tsx:320 | an opening `**` that is never closed is shown as typed |
| `RoiCalculator.BoldKeepsNoNewline` | src/components/ROICalculator.tsx:320 | the bold replacement introduces no newline |
| `RoiCalculator.PlainTextUnchanged` | src/components/ROICalculator.tsx:388 | text with no newline and no `**` is shown unchanged |
| `RoiCalculator.CloseAtFindsEnd` | src/components/ROICalculator.tsx:320 | the lazy match closes at the first `**` |
| `RoiCalculator.BoldPhrase` | src/components/ROICalculator.tsx:320 | `**w**` becomes `<strong>w</strong>` when w has no `*` and no line terminator |
| `RoiCalculator.RemoteOutcome` | src/components/ROICalculator.tsx:83-114 | a reply is always a remote call, and it yields a text to show exactly when it carries a non-empty text |
| `RoiCalculator.FetchDecision` | src/components/ROICalculator.tsx:52-129 | a blank description, and only that, stops the fetch; a cached text is fresh and non-empty; a fetched text is the reply's non-empty text |
| `RoiCalculator.FormProject` | src/components/ROICalculator.tsx:151-163 | the inserted row holds the form's name, description, investment, revenue, risk level and model, and leaves the other columns null |
| `RoiCalculator.SaveDecision` | src/components/ROICalculator.tsx:131-186 | no session comes first, then a blank name, then an insert error; otherwise the row is stored |
| `RoiCalculator.Calculator.constructor` | src/components/ROICalculator.tsx:24-39 | all form fields start empty or 0 with no benchmark shown |
| `RoiCalculator.Calculator.FetchBenchmarkData` | src/components/ROICalculator.tsx:52-129 | the outcome is the fetch decision; the cache is written only after a fetched text; the counter is incremented only on a remote call; only the chosen form's benchmark changes, and every form field is kept |
| `RoiCalculator.Calculator.FetchValidated` | src/components/ROICalculator.tsx:62-129 | the same, for a description that is not blank |
| `RoiCalculator.Calculator.FetchRemote` | src/components/ROICalculator.tsx:79-114 | a remote call increments the counter, and caches and shows the text only when the reply has one; the form fields are kept |
| `RoiCalculator.Calculator.SetBenchmarkData` | src/components/ROICalculator.tsx:65-105 | the chosen form shows the text; the other form's benchmark and every form field are kept |
| `RoiCalculator.Calculator.SaveSimpleProject` | src/components/ROICalculator.tsx:131-186 | the simple form is saved with risk "Baixo" and model "Simples", or nothing is stored |
| `RoiCalculator.Calculator.SaveStrategicProject` | src/components/ROICalculator.tsx:188-243 | the strategic form is saved with risk "Alto" and model "Estratégico", or nothing is stored |
| `RoiCalculator.Calculator.Insert` | src/components/ROICalculator.tsx:150-163 | the outcome is the save decision and the table grows by the saved row only |
| `RoiCalculator.BlankDescriptionStops` | src/components/ROICalculator.tsx:53-60 | a blank description stops before the cache and before any remote call |
| `RoiCalculator.CacheHitStaysLocal` | src/components/ROICalculator.tsx:63-71 | a fresh, non-empty cached text is shown without a remote call |
| `RoiCalculator.CacheWrittenOnlyWithText` | src/components/ROICalculator.tsx:90-114 | the cache is written only after a reply with a non-empty text; an error or an empty reply writes nothing |
| `RoiCalculator.FetchedThenCached` | src/components/ROICalculator.tsx:63-105 | a fetched text is served from the cache for the next 30 minutes |
| `RoiCalculator.SaveValidationOrder` | src/components/ROICalculator.tsx:132-148 | the session check comes before the name check, and a save fails exactly when one of the checks or the insert fails |
| `RoiCalculator.FormsDifferOnlyInLabels` | src/components/ROICalculator.tsx:151-220 | the two forms build the same row except for the risk level and the model name |
| `RoiCalculator.SavedProjectIsListed` | src/components/ROICalculator.tsx:151-163 | a saved project appears in its session's project list and in no other |
| `UserSessionsView.Summarize` | src/components/UserSessions.tsx:65-69 | a missing count is shown as 0; a present one as is |
| `UserSessionsView.CountedAll` | src/components/UserSessions.tsx:43-71 | each listed session carries its own counts, in order |
| `UserSessionsView.LoadSessions` | src/components/UserSessions.tsx:31-84 | an error leaves the list as it was; otherwise every session is listed |
| `UserSessionsView.FilterByCode` | src/components/UserSessions.tsx:86-88 | the sessions kept are exactly those whose code contains the search, ignoring case |
| `UserSessionsView.Stats` | src/components/UserSessions.tsx:90 | the user total is the number of all sessions |
| `UserSessionsView.Amount` | src/components/UserSessions.tsx:91-94 | a null click counter counts as 0, and the project counts are counted as listed |
| `UserSessionsView.Total` | src/components/UserSessions.tsx:91-94 | the total of no sessions is 0 and of one session is its amount |
| `UserSessionsView.FilterAppend` | src/components/UserSessions.tsx:86-88 | the filter keeps order and works element by element |
| `UserSessionsView.EmptySearchKeepsAll` | src/components/UserSessions.tsx:86-88 | an empty search shows every session |
| `UserSessionsView.SearchIgnoresCase` | src/components/UserSessions.tsx:87 | searches that differ only in case show the same sessions |
| `UserSessionsView.FilterIdempotent` | src/components/UserSessions.tsx:86-88 | filtering again with the same text changes nothing |
| `UserSessionsView.TotalAppend` | src/components/UserSessions.tsx:91-94 | totals add up over joined lists |
| `UserSessionsView.TotalNonNegative` | src/components/UserSessions.tsx:91-94 | with no negative count, a total is at least 0 and at least each session's share |
| `UserSessionsView.FilteredTotalAtMost` | src/components/UserSessions.tsx:86-94 | the shown sessions never add up to more than all sessions |
| `UserSessionsView.NullCountersAddNothing` | src/components/UserSessions.tsx:91-92 | a session with null click counters adds 0 to the click totals |
| `UserSessionsView.LoadedSessions` | src/components/UserSessions.tsx:31-84 | every session is listed once, newest first, with its exact project counts |
| `UserSessionsView.StatsIgnoreSearch` | src/components/UserSessions.tsx:86-90 | the user total counts all sessions, never fewer than the search shows |

## Left out

- **Not part of this model:**
  - `supabase/functions/ai-benchmarks/index.ts`, the server function that
    calls the language model. Its reply is an input (`BenchmarkReply`,
    `SuggestionsReply`).
  - The generated Supabase types.
  - The UI-only components (sidebar, header, dashboard, access-code form).
- **Rendering details.** Toasts, `console` logging, loading flags and the
  JSX markup are left out. Only the chart's geometry is modelled.
- **Concurrency.** React state updates, awaits and `Promise.all` are
  modelled as happening in sequence. A stale closure reading an old state
  is not modelled.
- **Parts of `StrategyPlatform.tsx` not modelled:**
  - `loadExistingData` and `saveConfiguration` (lines 63-113 and 159-214).
    They query Supabase directly and do not go through `useStrategyStorage`.
    `saveConfiguration` reads with `.single()` and writes no projects, so it
    is a separate code path from the hook's save, and it is not modelled.
  - `generateReport`, which only shows a toast.
  - The plain setters of the text fields.
- **Chart ids.** `PortfolioChart` receives `parseInt(p.id, 36)` as the
  project id. Ids only serve as React keys, so the chart model does not
  carry them.
- **`StrategyPlatform.ParseInt`:** models decimal `parseInt` on ASCII
  digits, with the leading whitespace `trim` also skips (the ECMAScript
  WhiteSpace and LineTerminator characters of `Common.IsWhitespace`).
  - The `0x` hexadecimal prefix, which `parseInt` without a radix accepts,
    is not modelled.
  - JavaScript's `parseInt` returns a double. It is exact only up to 2^53,
    rounds larger values, and gives `Infinity` past about 1.8e308. The
    model returns the unbounded integer the digits spell.
- **`StrategyPlatform.ScoreKeptUnclamped`:** keeps the typed integer
  exactly, whatever its size. The source keeps the double `parseInt`
  returns, which differs from it beyond 2^53 (see `StrategyPlatform.ParseInt`).
- **`Common.Lower`:** lowers A–Z and the Latin-1 capitals only. Other
  Unicode case mappings are not modelled.
- **The ROI calculator's numeric fields** are `real`. `Number(…)` of the
  inputs and `NaN` are not modelled.
- **The strategic form's cash-flow and scenario texts**
  (`ROICalculator.tsx`, lines 36-37 and 417-433) are held in state but
  neither saved nor sent anywhere, so they are not modelled.
- **Count queries.** The admin view's `count: 'exact'` queries are modelled
  as always succeeding with the exact count. A count query that fails (its
  count is then null and shown as 0) is covered only through
  `UserSessionsView.Summarize`.
- **Categories.** `StrategyStorage` keeps a project's category as the string
  the table stores. The platform and chart use the three-valued
  `Category`, as their TypeScript type does.
- **`StrategyStorage.SaveThenLoad`** and **`StrategyStorage.UpdateThenLoad`:**
  assume the saved portfolio is the newest of its user session (every older one has an earlier
  `created_at`). When two portfolios share a timestamp, which one the
  database returns first is not fixed, so this case is excluded.
