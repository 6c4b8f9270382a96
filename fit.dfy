/**
 * The step-count resolver of `FitApiService`.
 *
 * Every Google Fit call is an input: the reply it would give (`Returned`)
 * or the exception it would throw (`Threw`). The signed-in account is an
 * `Option`, the clock is the pair `startTime`/`endTime`. With that, the
 * resolver is a deterministic function of its inputs; the summing helpers,
 * which the source writes as accumulating loops, are methods proved equal to
 * the functions that specify them.
 */
module Fit {
  import opened Wrappers
  import opened Kotlin

  // ---------------------------------------------------------------------------
  // Data model
  // ---------------------------------------------------------------------------

  /** One entry of a step-count answer (times in epoch milliseconds). */
  datatype ActivityData = ActivityData(startTime: int, endTime: int, steps: Int32)

  /** A Google Fit data point; `steps` is its `Field.FIELD_STEPS` value. */
  datatype DataPoint = DataPoint(steps: Int32)

  datatype DataSet = DataSet(dataPoints: seq<DataPoint>)

  /** One time bucket of an aggregated read. */
  datatype Bucket = Bucket(startTime: int, endTime: int, dataSets: seq<DataSet>)

  /** A `DataReadResponse`: aggregated reads fill `buckets`, plain reads fill `dataSets`. */
  datatype DataReadResponse = DataReadResponse(buckets: seq<Bucket>, dataSets: seq<DataSet>)

  /** What one awaited provider call produced. */
  datatype Reply<T> = Returned(value: T) | Threw(exception: Exception)

  datatype DataType = TypeStepCountDelta | TypeStepCountCumulative | AggregateStepCountDelta
  datatype Access = AccessRead | AccessWrite
  datatype Scope = Scope(dataType: DataType, access: Access)

  /** A signed-in Google account, reduced to the fitness consent it holds. */
  datatype Account = Account(grantedScopes: set<Scope>)

  /** The replies to the four provider calls `getDailyStepCount` can make, in call order. */
  datatype DailyReplies = DailyReplies(
    history: Reply<DataReadResponse>,  // aggregated readData of the history stage
    session: Reply<DataReadResponse>,  // raw readData of the session stage
    sensorTotal: Reply<DataSet>,       // readDailyTotal of the sensor stage
    anyTotal: Reply<DataSet>)          // readDailyTotal of the last-resort stage

  /** The read access `fitnessOptions` asks for. */
  const FitnessOptions: set<Scope> :=
    {Scope(TypeStepCountDelta, AccessRead), Scope(TypeStepCountCumulative, AccessRead),
     Scope(AggregateStepCountDelta, AccessRead)}

  const NotSignedInMessage: string := "Not signed in to Google Account"
  const NotSignedIn: Exception := Exception(Some(NotSignedInMessage))

  // ---------------------------------------------------------------------------
  // Permissions
  // ---------------------------------------------------------------------------

  /** `hasPermissions`: an account is signed in and holds every scope of `fitnessOptions`. */
  function HasPermissions(account: Option<Account>): (r: bool)
    ensures r <==> account.Some? && forall s :: s in FitnessOptions ==> s in account.value.grantedScopes
  {
    account.Some? && FitnessOptions <= account.value.grantedScopes
  }

  /** Consent lacking any one requested scope is not enough. */
  lemma MissingScopeDenies(account: Account, s: Scope)
    requires s in FitnessOptions && s !in account.grantedScopes
    ensures !HasPermissions(Some(account))
  {
  }

  // ---------------------------------------------------------------------------
  // Step sums: the true (unbounded) sums the accumulating loops wrap
  // ---------------------------------------------------------------------------

  function PointsSteps(ps: seq<DataPoint>): int {
    if ps == [] then 0 else PointsSteps(ps[..|ps| - 1]) + ps[|ps| - 1].steps
  }

  function DataSetsSteps(dss: seq<DataSet>): int {
    if dss == [] then 0 else DataSetsSteps(dss[..|dss| - 1]) + PointsSteps(dss[|dss| - 1].dataPoints)
  }

  function BucketsSteps(bs: seq<Bucket>): int {
    if bs == [] then 0 else BucketsSteps(bs[..|bs| - 1]) + DataSetsSteps(bs[|bs| - 1].dataSets)
  }

  /** `buckets.flatMap { it.dataSets }`. */
  function AllDataSets(bs: seq<Bucket>): (r: seq<DataSet>)
    ensures forall d :: d in r <==> exists b :: b in bs && d in b.dataSets
  {
    if bs == [] then [] else AllDataSets(bs[..|bs| - 1]) + bs[|bs| - 1].dataSets
  }

  lemma {:induction false} DataSetsStepsAppend(a: seq<DataSet>, b: seq<DataSet>)
    ensures DataSetsSteps(a + b) == DataSetsSteps(a) + DataSetsSteps(b)
    decreases |b|
  {
    if b == [] {
      assert a + b == a;
    } else {
      var b' := b[..|b| - 1];
      assert (a + b)[..|a + b| - 1] == a + b';
      DataSetsStepsAppend(a, b');
    }
  }

  /** Summing the flattened data sets is summing bucket by bucket. */
  lemma {:induction false} FlattenedSum(bs: seq<Bucket>)
    ensures DataSetsSteps(AllDataSets(bs)) == BucketsSteps(bs)
    decreases |bs|
  {
    if bs != [] {
      var init := bs[..|bs| - 1];
      FlattenedSum(init);
      DataSetsStepsAppend(AllDataSets(init), bs[|bs| - 1].dataSets);
    }
  }

  // ---------------------------------------------------------------------------
  // The four stages
  // ---------------------------------------------------------------------------

  /**
   * `getStepHistoryData`: one entry spanning the whole range whose steps are
   * the `Int` sum of every point of every data set of every bucket. A failed
   * read is not caught here; it reaches the caller.
   */
  function StepHistoryData(reply: Reply<DataReadResponse>, startTime: int, endTime: int)
    : (r: Result<seq<ActivityData>, Exception>)
    ensures r.Err? <==> reply.Threw?
    ensures reply.Threw? ==> r.error == reply.exception
    ensures r.Ok? ==> |r.value| == 1 && r.value[0].startTime == startTime && r.value[0].endTime == endTime
  {
    match reply
    case Threw(e) => Err(e)
    case Returned(response) =>
      Ok([ActivityData(startTime, endTime, Wrap32(DataSetsSteps(AllDataSets(response.buckets))))])
  }

  method GetStepHistoryData(reply: Reply<DataReadResponse>, startTime: int, endTime: int)
    returns (r: Result<seq<ActivityData>, Exception>)
    ensures r == StepHistoryData(reply, startTime, endTime)
  {
    if reply.Threw? {
      return Err(reply.exception);
    }
    var dataSets := AllDataSets(reply.value.buckets);
    var totalSteps: Int32 := 0;
    for i := 0 to |dataSets|
      invariant totalSteps == Wrap32(DataSetsSteps(dataSets[..i]))
    {
      var points := dataSets[i].dataPoints;
      for j := 0 to |points|
        invariant totalSteps == Wrap32(DataSetsSteps(dataSets[..i]) + PointsSteps(points[..j]))
      {
        assert points[..j + 1][..j] == points[..j];
        WrapAbsorbs(DataSetsSteps(dataSets[..i]) + PointsSteps(points[..j]), points[j].steps);
        totalSteps := Wrap32(totalSteps + points[j].steps);
      }
      assert points[..|points|] == points;
      assert dataSets[..i + 1][..i] == dataSets[..i];
    }
    assert dataSets[..|dataSets|] == dataSets;
    r := Ok([ActivityData(startTime, endTime, totalSteps)]);
  }

  /** The history stage counts exactly the points the buckets hold, bucket by bucket. */
  lemma HistoryTotalIsBucketSum(response: DataReadResponse, startTime: int, endTime: int)
    ensures StepHistoryData(Returned(response), startTime, endTime)
         == Ok([ActivityData(startTime, endTime, Wrap32(BucketsSteps(response.buckets)))])
  {
    FlattenedSum(response.buckets);
  }

  /**
   * `getSessionStepData`: one entry spanning the range whose steps are the
   * `Int` sum over the response's data sets; any failure gives an empty list.
   */
  function SessionStepData(reply: Reply<DataReadResponse>, startTime: int, endTime: int)
    : (r: seq<ActivityData>)
    ensures |r| <= 1
    ensures r == [] <==> reply.Threw?
    ensures r != [] ==> r[0].startTime == startTime && r[0].endTime == endTime
  {
    match reply
    case Threw(_) => []
    case Returned(response) => [ActivityData(startTime, endTime, Wrap32(DataSetsSteps(response.dataSets)))]
  }

  method GetSessionStepData(reply: Reply<DataReadResponse>, startTime: int, endTime: int)
    returns (r: seq<ActivityData>)
    ensures r == SessionStepData(reply, startTime, endTime)
  {
    if reply.Threw? {
      return [];
    }
    var dataSets := reply.value.dataSets;
    var totalSteps: Int32 := 0;
    for i := 0 to |dataSets|
      invariant totalSteps == Wrap32(DataSetsSteps(dataSets[..i]))
    {
      var points := dataSets[i].dataPoints;
      for j := 0 to |points|
        invariant totalSteps == Wrap32(DataSetsSteps(dataSets[..i]) + PointsSteps(points[..j]))
      {
        assert points[..j + 1][..j] == points[..j];
        WrapAbsorbs(DataSetsSteps(dataSets[..i]) + PointsSteps(points[..j]), points[j].steps);
        totalSteps := Wrap32(totalSteps + points[j].steps);
      }
      assert points[..|points|] == points;
      assert dataSets[..i + 1][..i] == dataSets[..i];
    }
    assert dataSets[..|dataSets|] == dataSets;
    r := [ActivityData(startTime, endTime, totalSteps)];
  }

  /** The first point of a daily total, or 0 when it has none. */
  function FirstPointSteps(total: DataSet): (r: Int32)
    ensures total.dataPoints == [] ==> r == 0
    ensures total.dataPoints != [] ==> r == total.dataPoints[0].steps
  {
    if |total.dataPoints| > 0 then total.dataPoints[0].steps else 0
  }

  /** `getSensorStepData`: the daily total's first point, 0 when it has none or the call fails. */
  function SensorStepData(reply: Reply<DataSet>): (r: Int32)
    ensures reply.Threw? ==> r == 0
    ensures reply.Returned? ==> r == FirstPointSteps(reply.value)
  {
    match reply
    case Threw(_) => 0
    case Returned(total) => FirstPointSteps(total)
  }

  /**
   * `getAnyStepData`: an entry over the range carrying the daily total's first
   * point, whatever its value; empty when there is no point or the call fails.
   */
  function AnyStepData(reply: Reply<DataSet>, startTime: int, endTime: int): (r: seq<ActivityData>)
    ensures r == [] <==> reply.Threw? || reply.value.dataPoints == []
    ensures r != [] ==> r == [ActivityData(startTime, endTime, SensorStepData(reply))]
  {
    match reply
    case Threw(_) => []
    case Returned(total) =>
      if |total.dataPoints| > 0 then [ActivityData(startTime, endTime, total.dataPoints[0].steps)] else []
  }

  // ---------------------------------------------------------------------------
  // getDailyStepCount
  // ---------------------------------------------------------------------------

  /** `getDailyStepCount`: the first stage with a positive count wins, in the source's order. */
  function DailyStepCount(account: Option<Account>, startTime: int, endTime: int, replies: DailyReplies)
    : Result<seq<ActivityData>, Exception>
  {
    if account.None? then Err(NotSignedIn)
    else
      var history := StepHistoryData(replies.history, startTime, endTime);
      if history.Ok? && |history.value| > 0 && history.value[0].steps > 0 then Ok(history.value)
      else
        var session := SessionStepData(replies.session, startTime, endTime);
        if |session| > 0 && session[0].steps > 0 then Ok(session)
        else
          var sensor := SensorStepData(replies.sensorTotal);
          if sensor > 0 then Ok([ActivityData(startTime, endTime, sensor)])
          else
            var lastResort := AnyStepData(replies.anyTotal, startTime, endTime);
            if |lastResort| > 0 then Ok(lastResort)
            else Ok([ActivityData(startTime, endTime, 0)])
  }

  /** The source's control flow: each stage runs only after the earlier ones returned nothing positive. */
  method GetDailyStepCount(account: Option<Account>, startTime: int, endTime: int, replies: DailyReplies)
    returns (r: Result<seq<ActivityData>, Exception>)
    ensures r == DailyStepCount(account, startTime, endTime, replies)
  {
    if account.None? {
      return Err(NotSignedIn);
    }
    var history := GetStepHistoryData(replies.history, startTime, endTime);
    if history.Ok? && |history.value| > 0 && history.value[0].steps > 0 {
      return Ok(history.value);
    }
    var session := GetSessionStepData(replies.session, startTime, endTime);
    if |session| > 0 && session[0].steps > 0 {
      return Ok(session);
    }
    var sensor := SensorStepData(replies.sensorTotal);
    if sensor > 0 {
      return Ok([ActivityData(startTime, endTime, sensor)]);
    }
    var lastResort := AnyStepData(replies.anyTotal, startTime, endTime);
    if |lastResort| > 0 {
      return Ok(lastResort);
    }
    return Ok([ActivityData(startTime, endTime, 0)]);
  }

  /** The count each of the first three stages offers; a failed stage offers 0. */
  function StageOffers(replies: DailyReplies): (r: seq<Int32>)
    ensures |r| == 3
  {
    [ match replies.history
      case Threw(_) => 0
      case Returned(response) => Wrap32(BucketsSteps(response.buckets)),
      match replies.session
      case Threw(_) => 0
      case Returned(response) => Wrap32(DataSetsSteps(response.dataSets)),
      SensorStepData(replies.sensorTotal) ]
  }

  /** The last-resort count: the second daily total's first point, or 0. */
  function LastResortSteps(replies: DailyReplies): (r: Int32)
    ensures replies.anyTotal.Returned? && replies.anyTotal.value.dataPoints != [] ==>
              r == replies.anyTotal.value.dataPoints[0].steps
    ensures replies.anyTotal.Threw? || replies.anyTotal.value.dataPoints == [] ==> r == 0
  {
    SensorStepData(replies.anyTotal)
  }

  /** Reference resolver: the first positive offer in order, otherwise the fallback. */
  function FirstPositiveOr(offers: seq<Int32>, fallback: Int32): (r: Int32)
    ensures r == fallback || (r > 0 && r in offers)
    ensures (exists j :: 0 <= j < |offers| && offers[j] > 0) ==> r > 0
  {
    if offers == [] then fallback
    else if offers[0] > 0 then offers[0]
    else FirstPositiveOr(offers[1..], fallback)
  }

  lemma {:induction false} FirstPositiveOrPicksFirst(offers: seq<Int32>, fallback: Int32, k: nat)
    requires k < |offers| && offers[k] > 0
    requires forall j :: 0 <= j < k ==> offers[j] <= 0
    ensures FirstPositiveOr(offers, fallback) == offers[k]
    decreases k
  {
    if k > 0 {
      assert offers[0] <= 0;
      FirstPositiveOrPicksFirst(offers[1..], fallback, k - 1);
    }
  }

  lemma FirstPositiveOrFallsBack(offers: seq<Int32>, fallback: Int32)
    requires forall j :: 0 <= j < |offers| ==> offers[j] <= 0
    ensures FirstPositiveOr(offers, fallback) == fallback
  {
  }

  /** Without a signed-in account the call fails at once, whatever the providers would answer. */
  lemma SignedOutFails(startTime: int, endTime: int, replies: DailyReplies)
    ensures DailyStepCount(None, startTime, endTime, replies) == Err(NotSignedIn)
  {
  }

  /** Stage failures never escape: the only error is the missing account. */
  lemma DailyFailsOnlyWhenSignedOut(account: Option<Account>, startTime: int, endTime: int, replies: DailyReplies)
    ensures DailyStepCount(account, startTime, endTime, replies).Err? <==> account.None?
    ensures DailyStepCount(account, startTime, endTime, replies).Err? ==>
              DailyStepCount(account, startTime, endTime, replies).error == NotSignedIn
  {
  }

  /** The whole chain is the reference resolver over the stage offers. */
  lemma DailyIsFirstPositive(account: Account, startTime: int, endTime: int, replies: DailyReplies)
    ensures DailyStepCount(Some(account), startTime, endTime, replies)
         == Ok([ActivityData(startTime, endTime, FirstPositiveOr(StageOffers(replies), LastResortSteps(replies)))])
  {
    var offers := StageOffers(replies);
    if replies.history.Returned? {
      HistoryTotalIsBucketSum(replies.history.value, startTime, endTime);
    }
    if offers[0] > 0 {
      FirstPositiveOrPicksFirst(offers, LastResortSteps(replies), 0);
    } else if offers[1] > 0 {
      FirstPositiveOrPicksFirst(offers, LastResortSteps(replies), 1);
    } else if offers[2] > 0 {
      FirstPositiveOrPicksFirst(offers, LastResortSteps(replies), 2);
    } else {
      FirstPositiveOrFallsBack(offers, LastResortSteps(replies));
    }
  }

  /** Every successful answer is one entry spanning exactly the requested range. */
  lemma DailyResultShape(account: Option<Account>, startTime: int, endTime: int, replies: DailyReplies)
    ensures var r := DailyStepCount(account, startTime, endTime, replies);
      r.Ok? ==> |r.value| == 1 && r.value[0].startTime == startTime && r.value[0].endTime == endTime
  {
  }

  /** A positive history total is the answer, whatever the later stages would have said. */
  lemma HistoryHasPriority(account: Account, startTime: int, endTime: int, replies: DailyReplies)
    requires replies.history.Returned? && Wrap32(BucketsSteps(replies.history.value.buckets)) > 0
    ensures DailyStepCount(Some(account), startTime, endTime, replies)
         == Ok([ActivityData(startTime, endTime, Wrap32(BucketsSteps(replies.history.value.buckets)))])
  {
    DailyIsFirstPositive(account, startTime, endTime, replies);
    FirstPositiveOrPicksFirst(StageOffers(replies), LastResortSteps(replies), 0);
  }

  /** A stage decides the answer only when every earlier stage offered nothing positive. */
  lemma LaterStageNeedsEarlierNonPositive(account: Account, startTime: int, endTime: int, replies: DailyReplies, k: nat)
    requires k < 3 && StageOffers(replies)[k] > 0
    requires forall j :: 0 <= j < k ==> StageOffers(replies)[j] <= 0
    ensures DailyStepCount(Some(account), startTime, endTime, replies)
         == Ok([ActivityData(startTime, endTime, StageOffers(replies)[k])])
  {
    DailyIsFirstPositive(account, startTime, endTime, replies);
    FirstPositiveOrPicksFirst(StageOffers(replies), LastResortSteps(replies), k);
  }

  /** When no stage is positive and the last resort has nothing (or a zero point), the answer is an explicit zero. */
  lemma NothingPositiveGivesZero(account: Account, startTime: int, endTime: int, replies: DailyReplies)
    requires forall j :: 0 <= j < 3 ==> StageOffers(replies)[j] <= 0
    requires LastResortSteps(replies) == 0
    ensures DailyStepCount(Some(account), startTime, endTime, replies)
         == Ok([ActivityData(startTime, endTime, 0)])
  {
    DailyIsFirstPositive(account, startTime, endTime, replies);
    FirstPositiveOrFallsBack(StageOffers(replies), 0);
  }

  /** A stage whose call throws is treated exactly like one whose reply holds no data points. */
  lemma FailedStageActsEmpty(account: Option<Account>, startTime: int, endTime: int, replies: DailyReplies, e: Exception)
    ensures DailyStepCount(account, startTime, endTime, replies.(history := Threw(e)))
         == DailyStepCount(account, startTime, endTime, replies.(history := Returned(DataReadResponse([], []))))
    ensures DailyStepCount(account, startTime, endTime, replies.(session := Threw(e)))
         == DailyStepCount(account, startTime, endTime, replies.(session := Returned(DataReadResponse([], []))))
    ensures DailyStepCount(account, startTime, endTime, replies.(sensorTotal := Threw(e)))
         == DailyStepCount(account, startTime, endTime, replies.(sensorTotal := Returned(DataSet([]))))
    ensures DailyStepCount(account, startTime, endTime, replies.(anyTotal := Threw(e)))
         == DailyStepCount(account, startTime, endTime, replies.(anyTotal := Returned(DataSet([]))))
  {
  }

  /** Three day buckets summing to 1200, 0 and 0 resolve to 1200 from the history stage. */
  lemma ThreeBucketScenario(account: Account, startTime: int, endTime: int, replies: DailyReplies)
    requires replies.history == Returned(DataReadResponse(
      [ Bucket(startTime, endTime, [DataSet([DataPoint(700), DataPoint(500)])]),
        Bucket(startTime, endTime, []),
        Bucket(startTime, endTime, [DataSet([DataPoint(0)])]) ], []))
    ensures DailyStepCount(Some(account), startTime, endTime, replies) == Ok([ActivityData(startTime, endTime, 1200)])
  {
    var bs := replies.history.value.buckets;
    var ps := [DataPoint(700), DataPoint(500)];
    assert ps[..1] == [DataPoint(700)] && [DataPoint(700)][..0] == [];
    assert PointsSteps(ps) == 1200;
    assert [DataSet(ps)][..0] == [];
    assert DataSetsSteps([DataSet(ps)]) == 1200;
    var zero := [DataSet([DataPoint(0)])];
    assert [DataPoint(0)][..0] == [] && zero[..0] == [];
    assert DataSetsSteps(zero) == 0;
    assert bs[..2] == bs[..1] + [bs[1]] && bs[..1] == [bs[0]] && [bs[0]][..0] == [];
    assert BucketsSteps(bs[..1]) == 1200;
    assert BucketsSteps(bs[..2]) == 1200;
    assert BucketsSteps(bs) == 1200;
    HistoryHasPriority(account, startTime, endTime, replies);
  }

  /**
   * Only the last-resort stage can make the answer negative: the history,
   * session and sensor counts are taken only when positive.
   */
  lemma NegativeOnlyFromLastResort(account: Account, startTime: int, endTime: int, replies: DailyReplies)
    ensures DailyStepCount(Some(account), startTime, endTime, replies).value[0].steps < 0 <==>
      (forall j :: 0 <= j < 3 ==> StageOffers(replies)[j] <= 0) && LastResortSteps(replies) < 0
  {
    DailyIsFirstPositive(account, startTime, endTime, replies);
    if forall j :: 0 <= j < 3 ==> StageOffers(replies)[j] <= 0 {
      FirstPositiveOrFallsBack(StageOffers(replies), LastResortSteps(replies));
    }
  }

  /** When the last-resort daily total does not start with a negative point, the resolved count is never negative. */
  lemma DailyStepsNonNegative(account: Account, startTime: int, endTime: int, replies: DailyReplies)
    requires replies.anyTotal.Returned? && replies.anyTotal.value.dataPoints != [] ==>
               replies.anyTotal.value.dataPoints[0].steps >= 0
    ensures DailyStepCount(Some(account), startTime, endTime, replies).value[0].steps >= 0
  {
  }

  /** Holding the fitness consent rules out every error of the resolver. */
  lemma PermittedNeverFails(account: Option<Account>, startTime: int, endTime: int, replies: DailyReplies)
    requires HasPermissions(account)
    ensures DailyStepCount(account, startTime, endTime, replies).Ok?
  {
  }

  // ---------------------------------------------------------------------------
  // getStepCount
  // ---------------------------------------------------------------------------

  /** The `Int` sum of one bucket's points. */
  function DailySteps(b: Bucket): Int32 {
    Wrap32(DataSetsSteps(b.dataSets))
  }

  /** The entries `getStepCount`'s loop keeps: one per bucket with a positive sum, in order. */
  function DayEntries(bs: seq<Bucket>): (r: seq<ActivityData>)
    ensures |r| <= |bs|
    ensures forall i :: 0 <= i < |r| ==> r[i].steps > 0
  {
    if bs == [] then []
    else
      (if DailySteps(bs[0]) > 0 then [ActivityData(bs[0].startTime, bs[0].endTime, DailySteps(bs[0]))] else [])
      + DayEntries(bs[1..])
  }

  /** `getStepCount`: per-bucket counts, or one zero entry over the range when none is positive. */
  function StepCount(account: Option<Account>, startTime: int, endTime: int, reply: Reply<DataReadResponse>)
    : (r: Result<seq<ActivityData>, Exception>)
    ensures r.Err? <==> account.None? || reply.Threw?
    ensures account.None? ==> r.error == NotSignedIn
    ensures account.Some? && reply.Threw? ==> r.error == reply.exception
  {
    if account.None? then Err(NotSignedIn)
    else
      match reply
      case Threw(e) => Err(e)
      case Returned(response) =>
        var entries := DayEntries(response.buckets);
        Ok(if entries == [] then [ActivityData(startTime, endTime, 0)] else entries)
  }

  /** The inner loops of `getStepCount`: the `Int` sum of one bucket's points. */
  method SumBucket(bucket: Bucket) returns (dailySteps: Int32)
    ensures dailySteps == DailySteps(bucket)
  {
    dailySteps := 0;
    for i := 0 to |bucket.dataSets|
      invariant dailySteps == Wrap32(DataSetsSteps(bucket.dataSets[..i]))
    {
      var points := bucket.dataSets[i].dataPoints;
      for j := 0 to |points|
        invariant dailySteps == Wrap32(DataSetsSteps(bucket.dataSets[..i]) + PointsSteps(points[..j]))
      {
        assert points[..j + 1][..j] == points[..j];
        WrapAbsorbs(DataSetsSteps(bucket.dataSets[..i]) + PointsSteps(points[..j]), points[j].steps);
        dailySteps := Wrap32(dailySteps + points[j].steps);
      }
      assert points[..|points|] == points;
      assert bucket.dataSets[..i + 1][..i] == bucket.dataSets[..i];
    }
    assert bucket.dataSets[..|bucket.dataSets|] == bucket.dataSets;
  }

  method GetStepCount(account: Option<Account>, startTime: int, endTime: int, reply: Reply<DataReadResponse>)
    returns (r: Result<seq<ActivityData>, Exception>)
    ensures r == StepCount(account, startTime, endTime, reply)
  {
    if account.None? {
      return Err(NotSignedIn);
    }
    if reply.Threw? {
      return Err(reply.exception);
    }
    var buckets := reply.value.buckets;
    var activityDataList: seq<ActivityData> := [];
    for b := 0 to |buckets|
      invariant activityDataList == DayEntries(buckets[..b])
    {
      var bucket := buckets[b];
      var dailySteps := SumBucket(bucket);
      if dailySteps > 0 {
        activityDataList := activityDataList + [ActivityData(bucket.startTime, bucket.endTime, dailySteps)];
      }
      DayEntriesAppend(buckets[..b], [bucket]);
      assert buckets[..b + 1] == buckets[..b] + [bucket];
    }
    assert buckets[..|buckets|] == buckets;
    if activityDataList == [] {
      activityDataList := [ActivityData(startTime, endTime, 0)];
    }
    r := Ok(activityDataList);
  }

  /** Filtering is done bucket by bucket, so response order is kept. */
  lemma {:induction false} DayEntriesAppend(a: seq<Bucket>, b: seq<Bucket>)
    ensures DayEntries(a + b) == DayEntries(a) + DayEntries(b)
    decreases |a|
  {
    if a == [] {
      assert a + b == b;
    } else {
      assert (a + b)[1..] == a[1..] + b;
      DayEntriesAppend(a[1..], b);
    }
  }

  /** An entry is kept exactly when it is some bucket's own span and positive sum. */
  lemma {:induction false} DayEntriesMembers(bs: seq<Bucket>, e: ActivityData)
    ensures e in DayEntries(bs) <==>
      exists i :: 0 <= i < |bs| && DailySteps(bs[i]) > 0 && e == ActivityData(bs[i].startTime, bs[i].endTime, DailySteps(bs[i]))
    decreases |bs|
  {
    if bs != [] {
      DayEntriesMembers(bs[1..], e);
      if e in DayEntries(bs[1..]) {
        var i :| 0 <= i < |bs[1..]| && DailySteps(bs[1..][i]) > 0
          && e == ActivityData(bs[1..][i].startTime, bs[1..][i].endTime, DailySteps(bs[1..][i]));
        assert bs[i + 1] == bs[1..][i];
      }
      if exists i :: 0 <= i < |bs| && DailySteps(bs[i]) > 0 && e == ActivityData(bs[i].startTime, bs[i].endTime, DailySteps(bs[i])) {
        var i :| 0 <= i < |bs| && DailySteps(bs[i]) > 0 && e == ActivityData(bs[i].startTime, bs[i].endTime, DailySteps(bs[i]));
        if i > 0 {
          assert bs[1..][i - 1] == bs[i];
        }
      }
    }
  }

  lemma {:induction false} DayEntriesEmpty(bs: seq<Bucket>)
    ensures DayEntries(bs) == [] <==> forall i :: 0 <= i < |bs| ==> DailySteps(bs[i]) <= 0
    decreases |bs|
  {
    if bs != [] {
      DayEntriesEmpty(bs[1..]);
      assert forall i :: 1 <= i < |bs| ==> bs[i] == bs[1..][i - 1];
    }
  }

  /**
   * `getStepCount` is never empty: its answer is the positive buckets, or,
   * exactly when there is none, a single zero entry over the whole range.
   */
  lemma StepCountShape(account: Account, startTime: int, endTime: int, response: DataReadResponse)
    ensures var r := StepCount(Some(account), startTime, endTime, Returned(response));
      && r.Ok? && |r.value| >= 1
      && (r.value == [ActivityData(startTime, endTime, 0)] <==>
            forall i :: 0 <= i < |response.buckets| ==> DailySteps(response.buckets[i]) <= 0)
      && (r.value != [ActivityData(startTime, endTime, 0)] ==> r.value == DayEntries(response.buckets))
  {
    var bs := response.buckets;
    DayEntriesEmpty(bs);
    var d := DayEntries(bs);
    if d != [] {
      DayEntriesMembers(bs, d[0]);
      assert d[0] in d;
    }
  }
}
