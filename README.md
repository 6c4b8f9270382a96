# Step-count resolver and activity view model, in Dafny

This project models the core of an Android step-counter app. The app reads the user's daily step count from Google Fit and shows it on one screen. Two pieces hold the logic:

- **`FitApiService`** gets today's steps (`getDailyStepCount`). It tries four Google Fit queries in a fixed order: the aggregated history read, a raw step-delta read, the daily total, and the daily total again. It keeps the first usable answer and otherwise answers with an explicit zero entry. `getStepCount` answers per day bucket. `hasPermissions` says whether the signed-in account holds the requested fitness consent.
- **`ActivityViewModel`** (`ui/ActivityViewModel.kt`) owns one piece of observable state, `_uiState`. That state is one of `Initial`, `Loading`, `NeedsPermission`, `Success` or `Error`. The view model's operations overwrite it: fetch, initial check, error report and sign-out.

The older screen file `ui/screens/ActivityScreen.kt` adds:

- a two-field state record;
- a view model that updates one field and keeps the other;
- `formatNumber`, which writes a number with ',' between groups of three digits.

Files, one module per source file:

- `wrappers.dfy` (`Wrappers`): `Option`, `Result`.
- `kotlin.dfy` (`Kotlin`): the Kotlin behaviour the model needs:
  - the 32-bit `Int` and its wrap-around on `+`;
  - `Exception` with its nullable message, and how a string template prints `null`;
  - `String.contains`.
- `fit.dfy` (`Fit`): `FitApiService.kt` and the `ActivityData` record.
- `ui.dfy` (`Ui`): `ui/ActivityViewModel.kt`.
- `screens.dfy` (`Screens`): `ui/screens/ActivityScreen.kt`.

How the model is built:

- **Provider calls are inputs.** Each Google Fit call is a `Reply`: the payload it returned, or the exception it threw. The signed-in account is an `Option<Account>`, and the clock is the `startTime`/`endTime` pair.
- **Summing loops become methods.** The source adds up step fields in nested `forEach` loops over buckets, data sets and points. Each of these (`GetStepHistoryData`, `GetSessionStepData`, `GetStepCount`) is a method with loops, proved equal to a function that states what it computes.
- **`getDailyStepCount` is a function.** It is a pure early-return chain, so `DailyStepCount` models it. The method `GetDailyStepCount` repeats that chain only to call the two loop methods in place of their specification functions. It is proved equal to `DailyStepCount`, so the loops compose into the resolver.
- **The view models are classes.** Each keeps its state in a field, and its methods say exactly what the new state is. The `Ui` view model also keeps a ghost `trace` of every assignment to `_uiState.value`, in order, so the intermediate `Loading` write is stated too.
- **Step sums wrap like Kotlin `Int`.** `Wrap32` models the overflow. Lemmas show the wrapped running total is the wrap of the true sum.

Behaviour of the code that is easy to miss, and that the model follows:

- A failed history read is swallowed (`FitApiService.kt:68`), including one that reports 401 or 403. Only a missing account makes `getDailyStepCount` fail. There is no "all sources failed" error. When every stage throws, the answer is a zero entry.
- The last-resort stage returns its entry whenever the daily total has a point, even when that value is 0 or negative (`FitApiService.kt:217-219`).
- Point values are never checked. The history, session and sensor counts are used only when positive, so a negative or wrapped-negative sum just falls through to the next stage. Only the last-resort stage can make the answer negative (`Fit.NegativeOnlyFromLastResort`). Wrap-around can still make a positive answer differ from the true sum.
- With the real resolver behind the repository and one account snapshot, `checkPermissionsAndFetchData` can never end in `Error` (`Ui.FetchFromResolver`). A missing account already fails the permission check.

## Model

| member | source | states |
|---|---|---|
| `Kotlin.Wrap32` | app/src/main/java/com/example/rssreader/fit/FitApiService.kt:120-128 | the Kotlin `Int` value of an accumulated sum: in range and congruent to the true sum modulo 2^32, equal to it when it fits |
| `Kotlin.WrapAbsorbs` | app/src/main/java/com/example/rssreader/fit/FitApiService.kt:125-129 | wrapping after every `totalSteps += steps` gives the same value as wrapping the true total once |
| `Kotlin.Template` | app/src/main/java/com/example/rssreader/ui/ActivityViewModel.kt:91 | a null message prints as "null" and a present message prints as itself |
| `Kotlin.Contains` | app/src/main/java/com/example/rssreader/ui/ActivityViewModel.kt:88-90 | `String.contains`: the empty pattern is contained in every string, and a contained pattern is no longer than the string |
| `Kotlin.MissingCharNotContained` | app/src/main/java/com/example/rssreader/ui/ActivityViewModel.kt:88-90 | `contains` is false whenever the string lacks one of the pattern's characters |
| `Fit.HasPermissions` | app/src/main/java/com/example/rssreader/fit/FitApiService.kt:25-35 | true iff an account is signed in and it holds every scope the fitness options request |
| `Fit.MissingScopeDenies` | app/src/main/java/com/example/rssreader/fit/FitApiService.kt:25-34 | consent lacking any one requested scope makes `hasPermissions` false |
| `Fit.AllDataSets` | app/src/main/java/com/example/rssreader/fit/FitApiService.kt:122-124 | a data set is in the flattened list iff some bucket holds it (membership only; `Fit.FlattenedSum` carries the sum) |
| `Fit.FlattenedSum` | app/src/main/java/com/example/rssreader/fit/FitApiService.kt:122-130 | summing over the flattened data sets equals summing bucket by bucket |
| `Fit.StepHistoryData` | app/src/main/java/com/example/rssreader/fit/FitApiService.kt:102-141 | a failed read propagates its exception; a successful one gives exactly one entry spanning `[startTime, endTime]` |
| `Fit.GetStepHistoryData` | app/src/main/java/com/example/rssreader/fit/FitApiService.kt:114-140 | the accumulating nested loop computes exactly the wrapped total over all points of all flattened data sets |
| `Fit.HistoryTotalIsBucketSum` | app/src/main/java/com/example/rssreader/fit/FitApiService.kt:120-138 | the history entry's steps are the wrapped sum of every point of every data set of every bucket |
| `Fit.SessionStepData` | app/src/main/java/com/example/rssreader/fit/FitApiService.kt:143-174 | at most one entry; empty exactly when the read throws; otherwise the entry spans `[startTime, endTime]` |
| `Fit.GetSessionStepData` | app/src/main/java/com/example/rssreader/fit/FitApiService.kt:149-173 | the nested loop computes exactly the wrapped sum over the response's data sets, and a failure gives an empty list |
| `Fit.FirstPointSteps` | app/src/main/java/com/example/rssreader/fit/FitApiService.kt:192-196 | the daily total's first point, or 0 when it has no point |
| `Fit.SensorStepData` | app/src/main/java/com/example/rssreader/fit/FitApiService.kt:176-203 | 0 when the daily-total call throws, otherwise the total's first point or 0 |
| `Fit.AnyStepData` | app/src/main/java/com/example/rssreader/fit/FitApiService.kt:205-227 | empty iff the call throws or the total has no point; otherwise one range-spanning entry with the first point's value, whatever its sign |
| `Fit.DailyStepCount` | app/src/main/java/com/example/rssreader/fit/FitApiService.kt:43-100 | the early-return chain itself; its partner lemmas `DailyIsFirstPositive`, `DailyFailsOnlyWhenSignedOut` and `DailyResultShape` state what it computes |
| `Fit.GetDailyStepCount` | app/src/main/java/com/example/rssreader/fit/FitApiService.kt:43-100 | the early-return chain over the four stage helpers equals the resolver function `DailyStepCount` |
| `Fit.SignedOutFails` | app/src/main/java/com/example/rssreader/fit/FitApiService.kt:47-48 | with no account the result is the "Not signed in to Google Account" error, whatever every provider would answer |
| `Fit.DailyFailsOnlyWhenSignedOut` | app/src/main/java/com/example/rssreader/fit/FitApiService.kt:62-99 | the result is an error iff no account is signed in, and that error is the not-signed-in exception: stage failures never propagate |
| `Fit.PermittedNeverFails` | app/src/main/java/com/example/rssreader/fit/FitApiService.kt:32-48 | when `hasPermissions` holds, `getDailyStepCount` succeeds for every provider behaviour |
| `Fit.FailedStageActsEmpty` | app/src/main/java/com/example/rssreader/fit/FitApiService.kt:62-91 | for each of the four calls, throwing gives the same result as returning no data points |
| `Fit.StageOffers` | app/src/main/java/com/example/rssreader/fit/FitApiService.kt:62-85 | the three counts the history, session and sensor stages offer, a failed stage offering 0 |
| `Fit.LastResortSteps` | app/src/main/java/com/example/rssreader/fit/FitApiService.kt:88-91 | the fallback count: the last-resort total's first point, or 0 when the call throws or there is no point |
| `Fit.FirstPositiveOr` | app/src/main/java/com/example/rssreader/fit/FitApiService.kt:62-94 | the reference resolver returns the fallback or a positive offer from the list, and a positive value whenever some offer is positive |
| `Fit.FirstPositiveOrPicksFirst` | app/src/main/java/com/example/rssreader/fit/FitApiService.kt:62-85 | the reference resolver returns the offer at the first positive position |
| `Fit.FirstPositiveOrFallsBack` | app/src/main/java/com/example/rssreader/fit/FitApiService.kt:87-94 | the reference resolver returns the fallback when no offer is positive |
| `Fit.DailyIsFirstPositive` | app/src/main/java/com/example/rssreader/fit/FitApiService.kt:62-94 | with an account, the answer is one range-spanning entry carrying the first positive of the history, session and sensor offers, otherwise the last-resort count |
| `Fit.DailyResultShape` | app/src/main/java/com/example/rssreader/fit/FitApiService.kt:64-94 | every successful answer is a one-element list whose entry spans exactly `[startTime, endTime]` |
| `Fit.HistoryHasPriority` | app/src/main/java/com/example/rssreader/fit/FitApiService.kt:62-65 | a positive history total is the answer, whatever the later stages would return |
| `Fit.LaterStageNeedsEarlierNonPositive` | app/src/main/java/com/example/rssreader/fit/FitApiService.kt:62-85 | a stage with a positive offer decides the answer when every earlier stage offered nothing positive |
| `Fit.NothingPositiveGivesZero` | app/src/main/java/com/example/rssreader/fit/FitApiService.kt:87-94 | when no stage is positive and the last resort yields 0 or nothing, the answer is `[ActivityData(startTime, endTime, 0)]` |
| `Fit.ThreeBucketScenario` | app/src/main/java/com/example/rssreader/fit/FitApiService.kt:62-65 | history buckets summing to 1200, 0 and 0 resolve to 1200 |
| `Fit.NegativeOnlyFromLastResort` | app/src/main/java/com/example/rssreader/fit/FitApiService.kt:62-99 | the answer is negative iff no earlier stage offers a positive count and the last-resort total's first point is negative |
| `Fit.DailyStepsNonNegative` | app/src/main/java/com/example/rssreader/fit/FitApiService.kt:205-227 | when the last-resort daily total's first point (if any) is non-negative, the resolved count is non-negative |
| `Fit.DailySteps` | app/src/main/java/com/example/rssreader/fit/FitApiService.kt:250-256 | the per-bucket `dailySteps`: the wrapped sum of the bucket's points; `Fit.SumBucket` is the loop proved equal to it |
| `Fit.DayEntries` | app/src/main/java/com/example/rssreader/fit/FitApiService.kt:249-267 | no more entries than buckets, each with a positive count; `DayEntriesAppend` and `DayEntriesMembers` give the per-bucket, in-order structure |
| `Fit.SumBucket` | app/src/main/java/com/example/rssreader/fit/FitApiService.kt:250-256 | the inner loops compute exactly the wrapped sum of one bucket's points |
| `Fit.StepCount` | app/src/main/java/com/example/rssreader/fit/FitApiService.kt:229-278 | fails iff no account is signed in or the read throws, with the not-signed-in error or the read's own exception |
| `Fit.GetStepCount` | app/src/main/java/com/example/rssreader/fit/FitApiService.kt:229-278 | fails on a missing account or a failed read; otherwise the bucket loop builds exactly the positive day entries, or one zero entry when there is none |
| `Fit.DayEntriesAppend` | app/src/main/java/com/example/rssreader/fit/FitApiService.kt:249-267 | buckets are filtered one at a time, so entries keep the response's order |
| `Fit.DayEntriesMembers` | app/src/main/java/com/example/rssreader/fit/FitApiService.kt:258-266 | an entry is kept iff it is some bucket's own start, end and positive summed steps |
| `Fit.DayEntriesEmpty` | app/src/main/java/com/example/rssreader/fit/FitApiService.kt:249-267 | no entry is kept iff no bucket's sum is positive |
| `Fit.StepCountShape` | app/src/main/java/com/example/rssreader/fit/FitApiService.kt:247-273 | the answer is never empty; it is the single zero entry over the whole range iff no bucket is positive, and otherwise the positive day entries |
| `Ui.ErrorText` | app/src/main/java/com/example/rssreader/ui/ActivityViewModel.kt:87-92 | a null message falls through to "Error: null" |
| `Ui.ForbiddenWins` | app/src/main/java/com/example/rssreader/ui/ActivityViewModel.kt:88 | a message containing "403" gives the permission-denied text, whatever else it contains |
| `Ui.ClassificationOrder` | app/src/main/java/com/example/rssreader/ui/ActivityViewModel.kt:87-92 | "401" wins only without "403", and "ACTIVITY_RECOGNITION" only without both; with none of them, the text is "Error: " plus the message |
| `Ui.UnmarkedShownVerbatim` | app/src/main/java/com/example/rssreader/ui/ActivityViewModel.kt:87-92 | a message lacking '3', '1' and '_' contains no marker and is shown as "Error: " plus the message |
| `Ui.NotSignedInShownVerbatim` | app/src/main/java/com/example/rssreader/ui/ActivityViewModel.kt:85-93 | the resolver's not-signed-in error is shown as "Error: Not signed in to Google Account" |
| `Ui.TotalSteps` | app/src/main/java/com/example/rssreader/ui/ActivityViewModel.kt:68 | the `sumOf` over any list is the wrapped true sum of the entries' steps; over a one-entry list it is that entry's steps |
| `Ui.RecognitionMissing` | app/src/main/java/com/example/rssreader/ui/ActivityViewModel.kt:51-52 | the recognition guard: SDK level at least Q (29) and the runtime permission not granted; `OldSdkIgnoresRecognition` and `PermissionGate` state its effect |
| `Ui.FetchOutcome` | app/src/main/java/com/example/rssreader/ui/ActivityViewModel.kt:51-93 | the settled state: `Success` only from a successful fetch, with the given time and goal 10000; `Error` only from a failed fetch, with the classified text |
| `Ui.FetchSettles` | app/src/main/java/com/example/rssreader/ui/ActivityViewModel.kt:47-93 | a fetch ends in `NeedsPermission`, `Success` or `Error`, never in `Loading` or `Initial` |
| `Ui.PermissionGate` | app/src/main/java/com/example/rssreader/ui/ActivityViewModel.kt:51-63 | the state becomes `NeedsPermission` iff recognition is missing (SDK at least Q and not granted) or consent is missing, and then the repository's answer does not matter |
| `Ui.OldSdkIgnoresRecognition` | app/src/main/java/com/example/rssreader/ui/ActivityViewModel.kt:51-52 | below Android Q the recognition grant does not affect the outcome |
| `Ui.SuccessCarriesTotal` | app/src/main/java/com/example/rssreader/ui/ActivityViewModel.kt:67-84 | with permissions and a successful fetch, the state is `Success` with the entries' summed steps, the given time and goal 10000 |
| `Ui.FetchFromResolver` | app/src/main/java/com/example/rssreader/ui/ActivityViewModel.kt:59-93 | with the real resolver and one account snapshot, a fetch never ends in `Error`; on success it shows the resolved entry's steps and the goal |
| `Ui.NoDataShowsZero` | app/src/main/java/com/example/rssreader/ui/ActivityViewModel.kt:67-84 | with consent and no steps at any provider, the state is `Success(0, lastUpdated, 10000)` |
| `Ui.ActivityViewModel.constructor` | app/src/main/java/com/example/rssreader/ui/ActivityViewModel.kt:36 | a fresh view model is in state `Initial` |
| `Ui.ActivityViewModel.Emit` | app/src/main/java/com/example/rssreader/ui/ActivityViewModel.kt:47 | one assignment to `_uiState.value`: the state becomes the value and the trace gains exactly it |
| `Ui.ActivityViewModel.CheckPermissionsAndFetchData` | app/src/main/java/com/example/rssreader/ui/ActivityViewModel.kt:44-96 | writes `Loading` and then exactly one settled state, the one the permission checks and the repository's answer determine |
| `Ui.ActivityViewModel.CheckInitialState` | app/src/main/java/com/example/rssreader/ui/ActivityViewModel.kt:101-119 | a missing permission writes only `NeedsPermission`; otherwise the full fetch runs; either way the state is that of a fetch and never `Initial` or `Loading` |
| `Ui.ActivityViewModel.HandleError` | app/src/main/java/com/example/rssreader/ui/ActivityViewModel.kt:124-127 | from any state, writes `Error` with exactly the given message |
| `Ui.ActivityViewModel.SignOut` | app/src/main/java/com/example/rssreader/ui/ActivityViewModel.kt:139-163 | writes `Loading` first; completion ends in `NeedsPermission`; a failed task writes `Error("Failed to sign out: …")` and `NeedsPermission`, in one of the two orders; a throw ends in `Error("Error signing out: …")` |
| `Ui.FreshThenFetch` | app/src/main/java/com/example/rssreader/ui/ActivityViewModel.kt:101-119 | a new view model shows `Initial`, and after the initial check it shows a settled state |
| `Screens.DefaultState` | app/src/main/java/com/example/rssreader/ui/screens/ActivityScreen.kt:24-27 | the record's defaults are steps 0 and goal 5000 |
| `Screens.ActivityViewModel.constructor` | app/src/main/java/com/example/rssreader/ui/screens/ActivityScreen.kt:30-33 | the view model starts at 4900 steps with a goal of 10000 |
| `Screens.ActivityViewModel.UpdateSteps` | app/src/main/java/com/example/rssreader/ui/screens/ActivityScreen.kt:36-38 | sets steps to the argument and keeps the goal |
| `Screens.ActivityViewModel.UpdateDailyGoal` | app/src/main/java/com/example/rssreader/ui/screens/ActivityScreen.kt:40-42 | sets the goal to the argument and keeps the steps |
| `Screens.UpdatesAreIdempotent` | app/src/main/java/com/example/rssreader/ui/screens/ActivityScreen.kt:36-42 | from any state, applying either update twice leaves the same state as applying it once, with the argument in the updated field and the other field unchanged |
| `Screens.Decimal` | app/src/main/java/com/example/rssreader/ui/screens/ActivityScreen.kt:45-50 | the plain decimal form is non-empty and starts with a digit |
| `Screens.Grouped` | app/src/main/java/com/example/rssreader/ui/screens/ActivityScreen.kt:49 | the "#,###" form starts with a digit, and has at most three characters iff the number is below 1000 |
| `Screens.FormatNumber` | app/src/main/java/com/example/rssreader/ui/screens/ActivityScreen.kt:45-50 | the output is non-empty, starts with '-' iff the number is negative, and otherwise starts with a digit and has at most three characters iff the number is below 1000 |
| `Screens.DecimalDigits` | app/src/main/java/com/example/rssreader/ui/screens/ActivityScreen.kt:45-50 | a number's decimal form is a non-empty digit string, of at most three digits below 1000 |
| `Screens.DecimalValue` | app/src/main/java/com/example/rssreader/ui/screens/ActivityScreen.kt:45-50 | reading the decimal form back gives the number |
| `Screens.DecimalNoLeadingZero` | app/src/main/java/com/example/rssreader/ui/screens/ActivityScreen.kt:45-50 | a positive number's decimal form does not start with '0' |
| `Screens.DecimalSplit` | app/src/main/java/com/example/rssreader/ui/screens/ActivityScreen.kt:49 | a number of four or more digits is its thousands' digits followed by its last three digits zero-padded |
| `Screens.GroupedUncomma` | app/src/main/java/com/example/rssreader/ui/screens/ActivityScreen.kt:49 | deleting the separators from the "#,###" form gives the plain decimal form |
| `Screens.GroupedShape` | app/src/main/java/com/example/rssreader/ui/screens/ActivityScreen.kt:49 | in the "#,###" form, ',' stands at exactly every fourth place from the right, every other character is a digit, and the first group is non-empty |
| `Screens.FormatNumberNonNegative` | app/src/main/java/com/example/rssreader/ui/screens/ActivityScreen.kt:45-50 | for a non-negative number, the output is grouped in threes from the right; every group after the first has exactly three digits; deleting the commas gives the decimal form, whose value is the number |
| `Screens.FormatNumberNegative` | app/src/main/java/com/example/rssreader/ui/screens/ActivityScreen.kt:45-50 | a negative number is written as '-' followed by its magnitude in the same grouped form |

## Left out

- Logging (`Log.d`, `Log.e`): no effect on results.
- Coroutines (`withContext(Dispatchers.IO)`, `viewModelScope.launch`, `await`): every operation completes synchronously. Overlapping fetches and their last-writer-wins behaviour are not modelled.
- The wall clock and calendar (`FitApiService.kt:51-58`): the midnight start and the current end are the inputs `startTime` and `endTime`. The `HH:mm:ss` text (`ActivityViewModel.kt:39, 71`) is the input `lastUpdated`. Times are unbounded integers because the code does no arithmetic on them.
- Google Fit and GoogleSignIn behaviour: every call is an input reply.
  - `GoogleSignIn.hasPermissions` is taken to mean "every requested (data type, access) pair is granted"; the SDK's mapping of these pairs to OAuth scopes is not modelled.
  - The model assumes every data point carries an `Int` steps field. A point without one makes `getValue(...).asInt()` throw. The history and session stages would catch that. `getStepCount` would propagate it.
- The unused `DataSource` builder at `FitApiService.kt:181-186`: it has no effect.
- `getUserInfo` (`FitApiService.kt:280-294`): a field copy off the SDK account object.
- `getFitnessOptions` in both files, and `ActivityViewModel.Factory`: SDK handles and dependency-injection glue.
- Ui.ActivityViewModel.CheckInitialState: assumes the permission answers do not change between the initial check and the fetch it starts. The source asks the platform twice.
- Ui.ActivityViewModel.SignOut: the order of the two listeners on a failed task is an input (`failureFirst`). The contract states both possible traces, `Loading` then the failure's `Error` and `NeedsPermission` in either order, and does not say which write is last.
- Screens.FormatNumberNonNegative: assumes the default locale writes ASCII digits and '-' as the minus sign. The grouping separator is forced to ',' by the source. Other symbols come from `DecimalFormatSymbols(Locale.getDefault())`.
- Fit.DailyStepsNonNegative: the lemma assumes the last-resort daily total does not start with a negative point; it is a sufficient condition, not the exact one. The exact condition is `Fit.NegativeOnlyFromLastResort`: the count is negative iff no earlier stage offers a positive count and that total's first point is negative.
- StateFlow conflation: `Ui.ActivityViewModel.trace` is the sequence of assignments to `_uiState.value`. A `StateFlow` collector sees a conflated subsequence of it: an assignment equal to the current value is dropped, and values overwritten before the collector resumes are skipped. The model does not state which subsequence.
- Compose rendering, the progress bar's floating-point ratio, `MainActivity`, the mock service and repository, and the build files: UI, I/O and configuration.
