/**
 * `ActivityViewModel` and its five-variant `ActivityUiState`.
 *
 * The view model owns one mutable cell, `_uiState`, modelled as the field
 * `uiState`; the ghost field `trace` records every assignment to
 * `_uiState.value`, in order. A collector of the state flow sees a conflated
 * subsequence of it: repeated equal values and quickly overwritten ones may
 * be skipped. Coroutine
 * launches complete synchronously. Platform answers (the SDK level, the
 * runtime-permission check, the repository's permission check and fetch,
 * the formatted clock, the sign-out task's outcome) are method parameters.
 */
module Ui {
  import opened Wrappers
  import opened Kotlin
  import Fit

  const DailyStepGoal: Int32 := 10000

  /** `Build.VERSION_CODES.Q`, from which activity recognition is a runtime permission. */
  const VersionCodeQ: int := 29

  datatype ActivityUiState =
    | Initial
    | Loading
    | NeedsPermission
    | Success(steps: Int32, lastUpdated: string := "", dailyGoal: Int32 := 10000)
    | Error(message: string)

  const PermissionDeniedText: string := "Permission denied. Please check your Google Cloud Console settings."
  const AuthFailedText: string := "Authentication failed. Please sign in again."
  const RecognitionText: string := "Activity recognition permission is required to track steps."

  /** The user-facing text for a failed fetch, by the first marker the exception message contains. */
  function ErrorText(message: Option<string>): (r: string)
    ensures message.None? ==> r == "Error: null"
  {
    if message.Some? && Contains(message.value, "403") then PermissionDeniedText
    else if message.Some? && Contains(message.value, "401") then AuthFailedText
    else if message.Some? && Contains(message.value, "ACTIVITY_RECOGNITION") then RecognitionText
    else "Error: " + Template(message)
  }

  /** A "403" marker wins over every other marker. */
  lemma ForbiddenWins(m: string)
    requires Contains(m, "403")
    ensures ErrorText(Some(m)) == PermissionDeniedText
  {
  }

  /** "401" counts only when "403" is absent; "ACTIVITY_RECOGNITION" only when both are. */
  lemma ClassificationOrder(m: string)
    ensures !Contains(m, "403") && Contains(m, "401") ==> ErrorText(Some(m)) == AuthFailedText
    ensures (!Contains(m, "403") && !Contains(m, "401") && Contains(m, "ACTIVITY_RECOGNITION"))
              ==> ErrorText(Some(m)) == RecognitionText
    ensures (!Contains(m, "403") && !Contains(m, "401") && !Contains(m, "ACTIVITY_RECOGNITION"))
              ==> ErrorText(Some(m)) == "Error: " + m
  {
  }

  /** A message without the characters '3', '1' and '_' carries no marker and is shown verbatim. */
  lemma UnmarkedShownVerbatim(m: string)
    requires '3' !in m && '1' !in m && '_' !in m
    ensures ErrorText(Some(m)) == "Error: " + m
  {
    MissingCharNotContained(m, "403", 2);
    MissingCharNotContained(m, "401", 2);
    MissingCharNotContained(m, "ACTIVITY_RECOGNITION", 8);
  }

  /** The resolver's own error is shown as "Error: Not signed in to Google Account". */
  lemma NotSignedInShownVerbatim()
    ensures ErrorText(Fit.NotSignedIn.message) == "Error: " + Fit.NotSignedInMessage
  {
    UnmarkedShownVerbatim(Fit.NotSignedInMessage);
  }

  /** The true (unbounded) sum of the entries' steps. */
  function EntriesSteps(entries: seq<Fit.ActivityData>): int {
    if entries == [] then 0 else EntriesSteps(entries[..|entries| - 1]) + entries[|entries| - 1].steps
  }

  /** `activityDataList.sumOf { it.steps }`, with `Int` wrap-around. */
  function TotalSteps(entries: seq<Fit.ActivityData>): (r: Int32)
    ensures r == Wrap32(EntriesSteps(entries))
    ensures |entries| == 1 ==> r == entries[0].steps
  {
    if entries == [] then 0
    else
      var init := entries[..|entries| - 1];
      WrapAbsorbs(EntriesSteps(init), entries[|entries| - 1].steps);
      Wrap32(TotalSteps(init) + entries[|entries| - 1].steps)
  }

  /** SDK at least Q and `ACTIVITY_RECOGNITION` not granted. */
  predicate RecognitionMissing(sdkInt: int, recognitionGranted: bool) {
    sdkInt >= VersionCodeQ && !recognitionGranted
  }

  /** The state `checkPermissionsAndFetchData` settles in. */
  function FetchOutcome(sdkInt: int, recognitionGranted: bool, fitPermissions: bool,
                        fetched: Result<seq<Fit.ActivityData>, Exception>, lastUpdated: string)
    : (r: ActivityUiState)
    ensures r.Success? ==> fetched.Ok? && r.lastUpdated == lastUpdated && r.dailyGoal == DailyStepGoal
    ensures r.Error? ==> fetched.Err? && r.message == ErrorText(fetched.error.message)
  {
    if RecognitionMissing(sdkInt, recognitionGranted) || !fitPermissions then NeedsPermission
    else
      match fetched
      case Ok(entries) => Success(TotalSteps(entries), lastUpdated, DailyStepGoal)
      case Err(e) => Error(ErrorText(e.message))
  }

  /** A fetch settles in `NeedsPermission`, `Success` or `Error`; never `Initial` or `Loading`. */
  lemma FetchSettles(sdkInt: int, recognitionGranted: bool, fitPermissions: bool,
                     fetched: Result<seq<Fit.ActivityData>, Exception>, lastUpdated: string)
    ensures var s := FetchOutcome(sdkInt, recognitionGranted, fitPermissions, fetched, lastUpdated);
      s.NeedsPermission? || s.Success? || s.Error?
  {
  }

  /** `NeedsPermission` exactly when a permission is missing, and then the repository's answer is irrelevant. */
  lemma PermissionGate(sdkInt: int, recognitionGranted: bool, fitPermissions: bool,
                       fetched: Result<seq<Fit.ActivityData>, Exception>,
                       other: Result<seq<Fit.ActivityData>, Exception>, lastUpdated: string)
    ensures FetchOutcome(sdkInt, recognitionGranted, fitPermissions, fetched, lastUpdated).NeedsPermission?
        <==> RecognitionMissing(sdkInt, recognitionGranted) || !fitPermissions
    ensures RecognitionMissing(sdkInt, recognitionGranted) || !fitPermissions ==>
      FetchOutcome(sdkInt, recognitionGranted, fitPermissions, fetched, lastUpdated)
        == FetchOutcome(sdkInt, recognitionGranted, fitPermissions, other, lastUpdated)
  {
  }

  /** Below Android Q the runtime recognition permission is never consulted. */
  lemma OldSdkIgnoresRecognition(sdkInt: int, fitPermissions: bool,
                                 fetched: Result<seq<Fit.ActivityData>, Exception>, lastUpdated: string)
    requires sdkInt < VersionCodeQ
    ensures FetchOutcome(sdkInt, false, fitPermissions, fetched, lastUpdated)
         == FetchOutcome(sdkInt, true, fitPermissions, fetched, lastUpdated)
  {
  }

  /** A successful fetch shows the wrapped sum of the entries and the fixed goal of 10000. */
  lemma SuccessCarriesTotal(sdkInt: int, recognitionGranted: bool, entries: seq<Fit.ActivityData>, lastUpdated: string)
    requires !RecognitionMissing(sdkInt, recognitionGranted)
    ensures FetchOutcome(sdkInt, recognitionGranted, true, Ok(entries), lastUpdated)
         == Success(TotalSteps(entries), lastUpdated, 10000)
  {
  }

  /**
   * With the real resolver behind the repository and one account snapshot for
   * both the permission check and the fetch, a fetch never ends in `Error`:
   * either consent is missing or the one resolved entry is shown.
   */
  lemma FetchFromResolver(sdkInt: int, recognitionGranted: bool, account: Option<Fit.Account>,
                          startTime: int, endTime: int, replies: Fit.DailyReplies, lastUpdated: string)
    ensures var r := Fit.DailyStepCount(account, startTime, endTime, replies);
      var s := FetchOutcome(sdkInt, recognitionGranted, Fit.HasPermissions(account), r, lastUpdated);
      && !s.Error?
      && (s.Success? ==> r.Ok? && s.steps == r.value[0].steps && s.dailyGoal == DailyStepGoal)
  {
  }

  /** With consent granted and no provider holding any step, the screen shows 0 steps of the 10000 goal. */
  lemma NoDataShowsZero(sdkInt: int, recognitionGranted: bool, account: Fit.Account,
                        startTime: int, endTime: int, lastUpdated: string)
    requires !RecognitionMissing(sdkInt, recognitionGranted) && Fit.HasPermissions(Some(account))
    ensures var empty := Fit.DataReadResponse([], []);
      var replies := Fit.DailyReplies(Fit.Returned(empty), Fit.Returned(empty),
                                      Fit.Returned(Fit.DataSet([])), Fit.Returned(Fit.DataSet([])));
      FetchOutcome(sdkInt, recognitionGranted, true, Fit.DailyStepCount(Some(account), startTime, endTime, replies), lastUpdated)
        == Success(0, lastUpdated, 10000)
  {
  }

  /** What the sign-out task does: completes, completes with a failure, or throws before listeners are set. */
  datatype SignOutOutcome = SignedOut | SignOutFailed(cause: Exception) | SignOutThrew(cause: Exception)

  class ActivityViewModel {
    var uiState: ActivityUiState
    ghost var trace: seq<ActivityUiState>

    ghost predicate Valid()
      reads this
    {
      |trace| > 0 && trace[|trace| - 1] == uiState
    }

    constructor ()
      ensures Valid()
      ensures uiState == Initial && trace == [Initial]
    {
      uiState := Initial;
      trace := [Initial];
    }

    /** `_uiState.value = s`. */
    method Emit(s: ActivityUiState)
      requires Valid()
      modifies this
      ensures Valid()
      ensures uiState == s && trace == old(trace) + [s]
    {
      uiState := s;
      trace := trace + [s];
    }

    /** `checkPermissionsAndFetchData`: `Loading`, then exactly one settled state. */
    method CheckPermissionsAndFetchData(sdkInt: int, recognitionGranted: bool, fitPermissions: bool,
                                        fetched: Result<seq<Fit.ActivityData>, Exception>, lastUpdated: string)
      requires Valid()
      modifies this
      ensures Valid()
      ensures uiState == FetchOutcome(sdkInt, recognitionGranted, fitPermissions, fetched, lastUpdated)
      ensures trace == old(trace) + [Loading, uiState]
    {
      Emit(Loading);
      if RecognitionMissing(sdkInt, recognitionGranted) {
        Emit(NeedsPermission);
        return;
      }
      if !fitPermissions {
        Emit(NeedsPermission);
        return;
      }
      match fetched {
        case Ok(entries) =>
          var totalSteps := TotalSteps(entries);
          Emit(Success(steps := totalSteps, lastUpdated := lastUpdated, dailyGoal := DailyStepGoal));
        case Err(e) =>
          Emit(Error(ErrorText(e.message)));
      }
    }

    /**
     * `checkInitialState`: a missing permission gives `NeedsPermission` without
     * passing through `Loading`; otherwise the fetch runs, asking the same
     * questions again.
     */
    method CheckInitialState(sdkInt: int, recognitionGranted: bool, fitPermissions: bool,
                             fetched: Result<seq<Fit.ActivityData>, Exception>, lastUpdated: string)
      requires Valid()
      modifies this
      ensures Valid()
      ensures uiState == FetchOutcome(sdkInt, recognitionGranted, fitPermissions, fetched, lastUpdated)
      ensures uiState != Initial && uiState != Loading
      ensures RecognitionMissing(sdkInt, recognitionGranted) || !fitPermissions ==>
                trace == old(trace) + [NeedsPermission]
      ensures !RecognitionMissing(sdkInt, recognitionGranted) && fitPermissions ==>
                trace == old(trace) + [Loading, uiState]
    {
      if RecognitionMissing(sdkInt, recognitionGranted) {
        Emit(NeedsPermission);
        return;
      }
      if !fitPermissions {
        Emit(NeedsPermission);
      } else {
        CheckPermissionsAndFetchData(sdkInt, recognitionGranted, fitPermissions, fetched, lastUpdated);
      }
    }

    /** `handleError`: the given message, from any state. */
    method HandleError(message: string)
      requires Valid()
      modifies this
      ensures Valid()
      ensures uiState == Error(message) && trace == old(trace) + [Error(message)]
    {
      Emit(Error(message));
    }

    /**
     * `signOut`: `Loading`, then the listeners' writes. A failed task runs the
     * completion listener as well as the failure listener, in an order the SDK
     * decides (`failureFirst`), so either write may be the last.
     */
    method SignOut(outcome: SignOutOutcome, failureFirst: bool)
      requires Valid()
      modifies this
      ensures Valid()
      ensures old(trace) + [Loading] <= trace
      ensures outcome.SignedOut? ==> uiState == NeedsPermission && trace == old(trace) + [Loading, NeedsPermission]
      ensures outcome.SignOutFailed? ==>
                var failed := Error("Failed to sign out: " + Template(outcome.cause.message));
                && (trace == old(trace) + [Loading, failed, NeedsPermission]
                    || trace == old(trace) + [Loading, NeedsPermission, failed])
                && failed in trace[|old(trace)| + 1..] && (uiState == failed || uiState == NeedsPermission)
      ensures outcome.SignOutThrew? ==>
                uiState == Error("Error signing out: " + Template(outcome.cause.message))
                && trace == old(trace) + [Loading, uiState]
    {
      Emit(Loading);
      match outcome {
        case SignedOut =>
          Emit(NeedsPermission);
        case SignOutFailed(e) =>
          var failed := Error("Failed to sign out: " + Template(e.message));
          if failureFirst {
            Emit(failed);
            Emit(NeedsPermission);
            assert trace[|old(trace)| + 1..] == [failed, NeedsPermission];
          } else {
            Emit(NeedsPermission);
            Emit(failed);
          }
        case SignOutThrew(e) =>
          Emit(Error("Error signing out: " + Template(e.message)));
      }
    }
  }

  /** A fresh view model shows `Initial`; any fetch then leaves it for good. */
  method FreshThenFetch(sdkInt: int, recognitionGranted: bool, fitPermissions: bool,
                        fetched: Result<seq<Fit.ActivityData>, Exception>, lastUpdated: string)
    returns (first: ActivityUiState, settled: ActivityUiState)
    ensures first == Initial
    ensures settled.NeedsPermission? || settled.Success? || settled.Error?
  {
    var vm := new ActivityViewModel();
    first := vm.uiState;
    vm.CheckInitialState(sdkInt, recognitionGranted, fitPermissions, fetched, lastUpdated);
    FetchSettles(sdkInt, recognitionGranted, fitPermissions, fetched, lastUpdated);
    settled := vm.uiState;
  }
}
