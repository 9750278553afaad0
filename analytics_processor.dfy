/**
 * The analytics processor: validates one traffic reading, derives the five
 * analytics results from it and stores them one by one, stopping at the
 * first store that fails.
 *
 * The metric formulas are stated over `real`: every one of them is rational
 * arithmetic, so the clamps and the worked examples hold exactly.
 */
module AnalyticsProcessing {
  import opened Models
  import opened Validation

  /*
   * Validation
   */

  /**
   * The processor's validator: nil, then an empty location, a negative
   * vehicle count, a negative average speed, a zero timestamp and finally a
   * congestion level that is set but not one of the four levels; the first
   * failure wins.
   */
  function ValidateReading(data: Option<TrafficData>): (r: Check)
    ensures r == FirstViolated(data, ReadingRules)
  {
    ReadingRulesUnfolded(data);
    if data.None? then Fail(NilReading)
    else if data.value.locationId == "" then Fail(MissingLocation)
    else if data.value.vehicleCount < 0 then Fail(NegativeVehicleCount)
    else if data.value.averageSpeed < 0.0 then Fail(NegativeAverageSpeed)
    else if data.value.timestamp == ZeroTime then Fail(MissingTimestamp)
    else if data.value.congestionLevel != "" && data.value.congestionLevel !in CongestionLevels then
      Fail(UnknownCongestionLevel)
    else Pass
  }

  /** FirstViolated over the processor's rule list, one rule at a time. */
  lemma ReadingRulesUnfolded(data: Option<TrafficData>)
    ensures FirstViolated(data, ReadingRules) ==
      if Violated(data, NilReading) then Fail(NilReading)
      else if Violated(data, MissingLocation) then Fail(MissingLocation)
      else if Violated(data, NegativeVehicleCount) then Fail(NegativeVehicleCount)
      else if Violated(data, NegativeAverageSpeed) then Fail(NegativeAverageSpeed)
      else if Violated(data, MissingTimestamp) then Fail(MissingTimestamp)
      else if Violated(data, UnknownCongestionLevel) then Fail(UnknownCongestionLevel)
      else Pass
  {
    var tail := [UnknownCongestionLevel];
    FirstViolatedCons(data, UnknownCongestionLevel, []);
    assert [UnknownCongestionLevel] + [] == tail;
    FirstViolatedCons(data, MissingTimestamp, tail);
    FirstViolatedCons(data, NegativeAverageSpeed, [MissingTimestamp] + tail);
    FirstViolatedCons(data, NegativeVehicleCount, [NegativeAverageSpeed] + ([MissingTimestamp] + tail));
    FirstViolatedCons(data, MissingLocation,
      [NegativeVehicleCount] + ([NegativeAverageSpeed] + ([MissingTimestamp] + tail)));
    FirstViolatedCons(data, NilReading,
      [MissingLocation] + ([NegativeVehicleCount] + ([NegativeAverageSpeed] + ([MissingTimestamp] + tail))));
    assert ReadingRules ==
      [NilReading] + ([MissingLocation] + ([NegativeVehicleCount] + ([NegativeAverageSpeed] + ([MissingTimestamp] + tail))));
  }

  /** A reading passes exactly when it is present and breaks none of the six rules. */
  lemma ValidReadingIff(data: Option<TrafficData>)
    ensures ValidateReading(data).Pass? <==>
      && data.Some?
      && data.value.locationId != ""
      && data.value.vehicleCount >= 0
      && data.value.averageSpeed >= 0.0
      && data.value.timestamp != ZeroTime
      && (data.value.congestionLevel == "" || data.value.congestionLevel in CongestionLevels)
  {
    ReadingRulesUnfolded(data);
  }

  /*
   * Metric derivation
   */

  /** Every result of one reading covers the fixed 5-minute window starting at the reading and names its location. */
  predicate InWindowOf(data: TrafficData, r: AnalyticsResult) {
    && r.periodStart == data.timestamp
    && r.periodEnd == data.timestamp + AnalysisWindow
    && r.locationId == Some(data.locationId)
  }

  function Min(x: real, y: real): real { if x <= y then x else y }
  function Max(x: real, y: real): real { if x >= y then x else y }

  /** The trend tag of a congestion index: above 0.7 rising, below 0.3 falling, stable in between. */
  function DetermineTrend(congestionIndex: real): (t: string)
    ensures t in Trends
    ensures t == TrendIncreasing <==> congestionIndex > 0.7
    ensures t == TrendDecreasing <==> congestionIndex < 0.3
    ensures t == TrendStable <==> 0.3 <= congestionIndex <= 0.7
  {
    if congestionIndex > 0.7 then TrendIncreasing
    else if congestionIndex < 0.3 then TrendDecreasing
    else TrendStable
  }

  /**
   * Congestion index: half the sum of the vehicle count relative to 200
   * (capped at 1) and the speed deficit relative to 80 km/h (floored at 0,
   * and 0 when the speed is not positive); exactly 0, with no trend, when
   * no vehicle was counted.
   */
  function CalculateCongestionIndex(data: TrafficData): (r: AnalyticsResult)
    ensures InWindowOf(data, r)
    ensures r.metricType == MetricCongestionIndex && r.unit == UnitIndex && r.confidenceLevel == Some(0.95)
    ensures data.vehicleCount == 0 ==> r.value == 0.0 && r.trend == ""
    ensures data.vehicleCount != 0 ==>
      && r.value == (Min(data.vehicleCount as real / 200.0, 1.0)
                     + (if data.averageSpeed > 0.0 then Max(0.0, (80.0 - data.averageSpeed) / 80.0) else 0.0)) / 2.0
      && r.trend == DetermineTrend(r.value)
    ensures r.value <= 1.0
    ensures data.vehicleCount >= 0 ==> 0.0 <= r.value
  {
    if data.vehicleCount == 0 then
      AnalyticsResult(data.timestamp, data.timestamp + AnalysisWindow, Some(data.locationId),
                      MetricCongestionIndex, 0.0, UnitIndex, Some(0.95), "")
    else
      var count := data.vehicleCount as real / 200.0;
      var normalizedCount := if count > 1.0 then 1.0 else count;
      var speed := if data.averageSpeed > 0.0 then (80.0 - data.averageSpeed) / 80.0 else 0.0;
      var normalizedSpeed := if speed < 0.0 then 0.0 else speed;
      var combined := (normalizedCount + normalizedSpeed) / 2.0;
      var congestionIndex := if combined > 1.0 then 1.0 else combined;
      AnalyticsResult(data.timestamp, data.timestamp + AnalysisWindow, Some(data.locationId),
                      MetricCongestionIndex, congestionIndex, UnitIndex, Some(0.95), DetermineTrend(congestionIndex))
  }

  /** Traffic density over an assumed 1 km segment: the vehicle count, in vehicles/km. */
  function CalculateTrafficDensity(data: TrafficData): (r: AnalyticsResult)
    ensures InWindowOf(data, r)
    ensures r.metricType == MetricTrafficDensity && r.unit == UnitVehiclesPerKm && r.confidenceLevel == Some(0.90)
    ensures r.value == data.vehicleCount as real && r.trend == ""
  {
    AnalyticsResult(data.timestamp, data.timestamp + AnalysisWindow, Some(data.locationId),
                    MetricTrafficDensity, data.vehicleCount as real / 1.0, UnitVehiclesPerKm, Some(0.90), "")
  }

  /** Flow rate, taking a reading as a 5-minute sample: twelve times the count, in vehicles/hour. */
  function CalculateFlowRate(data: TrafficData): (r: AnalyticsResult)
    ensures InWindowOf(data, r)
    ensures r.metricType == MetricFlowRate && r.unit == UnitVehiclesPerHour && r.confidenceLevel == Some(0.85)
    ensures r.value == 12.0 * data.vehicleCount as real && r.trend == ""
  {
    AnalyticsResult(data.timestamp, data.timestamp + AnalysisWindow, Some(data.locationId),
                    MetricFlowRate, data.vehicleCount as real * (60.0 / 5.0), UnitVehiclesPerHour, Some(0.85), "")
  }

  /**
   * Travel time over an assumed 1 km segment, in minutes: the time to cover
   * it at the average speed, or one hour when the speed is not positive.
   */
  function CalculateTravelTime(data: TrafficData): (r: AnalyticsResult)
    ensures InWindowOf(data, r)
    ensures r.metricType == MetricTravelTime && r.unit == UnitMinutes && r.confidenceLevel == Some(0.80)
    ensures data.averageSpeed > 0.0 ==> r.value * data.averageSpeed == 60.0
    ensures data.averageSpeed <= 0.0 ==> r.value == 60.0
    ensures r.value > 0.0 && r.trend == ""
  {
    var travelTime := if data.averageSpeed > 0.0 then (1.0 / data.averageSpeed) * 60.0 else 60.0;
    AnalyticsResult(data.timestamp, data.timestamp + AnalysisWindow, Some(data.locationId),
                    MetricTravelTime, travelTime, UnitMinutes, Some(0.80), "")
  }

  /**
   * Delay index against an ideal 80 km/h: the relative speed deficit clamped
   * to [0, 1] when the speed is positive, and 0 otherwise.
   */
  function CalculateDelayIndex(data: TrafficData): (r: AnalyticsResult)
    ensures InWindowOf(data, r)
    ensures r.metricType == MetricDelayIndex && r.unit == UnitIndex && r.confidenceLevel == Some(0.85)
    ensures 0.0 <= r.value <= 1.0 && r.trend == ""
    ensures data.averageSpeed > 0.0 ==> r.value == Max(0.0, (80.0 - data.averageSpeed) / 80.0)
    ensures data.averageSpeed <= 0.0 ==> r.value == 0.0
  {
    var idealSpeed := 80.0;
    var currentSpeed := data.averageSpeed;
    var delayIndex :=
      if idealSpeed > 0.0 && currentSpeed > 0.0 then
        var d := (idealSpeed - currentSpeed) / idealSpeed;
        var d' := if d < 0.0 then 0.0 else d;
        if d' > 1.0 then 1.0 else d'
      else 0.0;
    AnalyticsResult(data.timestamp, data.timestamp + AnalysisWindow, Some(data.locationId),
                    MetricDelayIndex, delayIndex, UnitIndex, Some(0.85), "")
  }

  /**
   * The five results of one reading, in derivation order: one per metric
   * type, all over the same window and location, all well formed, and only
   * a non-zero congestion index carries a trend.
   */
  function Analysis(data: TrafficData): (rs: seq<AnalyticsResult>)
    ensures |rs| == |PipelineMetricTypes| == 5
    ensures forall i :: 0 <= i < |rs| ==> rs[i].metricType == PipelineMetricTypes[i]
    ensures forall i :: 0 <= i < |rs| ==> InWindowOf(data, rs[i]) && WellFormedResult(rs[i])
    ensures forall i :: 1 <= i < |rs| ==> rs[i].trend == ""
    ensures rs[0].trend != "" <==> data.vehicleCount != 0
  {
    [CalculateCongestionIndex(data), CalculateTrafficDensity(data), CalculateFlowRate(data),
     CalculateTravelTime(data), CalculateDelayIndex(data)]
  }

  /** Builds the list of results by successive appends, as the processor does. */
  method PerformAnalysis(data: TrafficData) returns (results: seq<AnalyticsResult>)
    ensures results == Analysis(data)
  {
    results := [];
    var congestionIndex := CalculateCongestionIndex(data);
    results := results + [congestionIndex];
    var trafficDensity := CalculateTrafficDensity(data);
    results := results + [trafficDensity];
    var flowRate := CalculateFlowRate(data);
    results := results + [flowRate];
    var travelTime := CalculateTravelTime(data);
    results := results + [travelTime];
    var delayIndex := CalculateDelayIndex(data);
    results := results + [delayIndex];
  }

  lemma ZeroCountCongestion(data: TrafficData)
    requires data.vehicleCount == 0
    ensures Analysis(data)[0].value == 0.0 && Analysis(data)[0].confidenceLevel == Some(0.95)
    ensures Analysis(data)[0].trend == ""
  {
  }

  lemma NonPositiveSpeed(data: TrafficData)
    requires data.averageSpeed <= 0.0
    ensures Analysis(data)[3].value == 60.0 && Analysis(data)[4].value == 0.0
  {
  }

  /** 100 vehicles at 40 km/h. */
  lemma ExampleModerateTraffic(data: TrafficData)
    requires data.vehicleCount == 100 && data.averageSpeed == 40.0
    ensures Analysis(data)[0].value == 0.5 && Analysis(data)[0].trend == TrendStable
    ensures Analysis(data)[1].value == 100.0 && Analysis(data)[1].unit == UnitVehiclesPerKm
    ensures Analysis(data)[2].value == 1200.0 && Analysis(data)[2].unit == UnitVehiclesPerHour
    ensures Analysis(data)[3].value == 1.5 && Analysis(data)[3].unit == UnitMinutes
    ensures Analysis(data)[4].value == 0.5
  {
  }

  /** 250 vehicles standing still: the count part is capped at 1 and the speed part is skipped. */
  lemma ExampleStandstill(data: TrafficData)
    requires data.vehicleCount == 250 && data.averageSpeed == 0.0
    ensures Analysis(data)[0].value == 0.5
    ensures Analysis(data)[3].value == 60.0 && Analysis(data)[4].value == 0.0
  {
  }

  /** No vehicles at free-flow speed: the index is exactly 0 whatever the speed. */
  lemma ExampleEmptyRoad(data: TrafficData)
    requires data.vehicleCount == 0 && data.averageSpeed == 80.0
    ensures Analysis(data)[0].value == 0.0
  {
  }

  /*
   * Storing the results
   */

  datatype ProcessError = InvalidData(rule: Rule) | StoreFailed

  /** How many of the calls 0, 1, ..., n-1 succeed before the first one that fails. */
  function LeadingSuccesses(ok: nat -> bool, n: nat): (k: nat)
    ensures k <= n
    ensures forall i :: 0 <= i < k ==> ok(i)
    ensures k < n ==> !ok(k)
  {
    if n == 0 then 0
    else
      var k := LeadingSuccesses(ok, n - 1);
      if k == n - 1 && ok(n - 1) then n else k
  }

  /** What one call of ProcessTrafficData returns and which results it writes, in order. */
  datatype ProcessOutcome = ProcessOutcome(err: Option<ProcessError>, written: seq<AnalyticsResult>)

  /**
   * The specification of ProcessTrafficData. `storeOk(i)` is whether the
   * i-th store call of this invocation succeeds. An invalid reading is
   * rejected with its rule and nothing is written; otherwise the results are
   * written in order up to the first failed store, which is reported, and
   * success means all five were written.
   */
  function Process(data: Option<TrafficData>, storeOk: nat -> bool): (o: ProcessOutcome)
    ensures ValidateReading(data).Fail? ==>
      o.err == Some(InvalidData(ValidateReading(data).rule)) && o.written == []
    ensures ValidateReading(data).Pass? ==>
      && |o.written| <= 5
      && o.written == Analysis(data.value)[..|o.written|]
      && (forall i :: 0 <= i < |o.written| ==> storeOk(i))
      && (o.err.None? <==> |o.written| == 5)
      && (o.err.Some? ==> o.err == Some(StoreFailed) && !storeOk(|o.written|))
  {
    var check := ValidateReading(data);
    if check.Fail? then ProcessOutcome(Some(InvalidData(check.rule)), [])
    else
      var k := LeadingSuccesses(storeOk, 5);
      ProcessOutcome(if k == 5 then None else Some(StoreFailed), Analysis(data.value)[..k])
  }

  /** Nothing is stored unless the reading passes validation; a full success stores exactly the five results. */
  lemma ProcessWritesOnlyValid(data: Option<TrafficData>, storeOk: nat -> bool)
    ensures Process(data, storeOk).written != [] ==> ValidateReading(data).Pass?
    ensures Process(data, storeOk).err.None? <==>
      ValidateReading(data).Pass? && forall i :: 0 <= i < 5 ==> storeOk(i)
    ensures Process(data, storeOk).err.None? ==> Process(data, storeOk).written == Analysis(data.value)
  {
    if ValidateReading(data).Pass? && (forall i :: 0 <= i < 5 ==> storeOk(i)) {
      LeadingSuccessesIs(storeOk, 5, 5);
    }
  }

  /** The analytics processor together with the analytics-results table it writes to. */
  class AnalyticsProcessor {
    /** The rows of the analytics-results table, in insertion order. */
    var results: seq<AnalyticsResult>

    constructor (existing: seq<AnalyticsResult>)
      ensures results == existing
    {
      results := existing;
    }

    /** One insert into the analytics-results table; `ok` is whether the database accepts it. */
    method StoreAnalyticsResult(r: AnalyticsResult, ok: bool) returns (stored: bool)
      modifies this
      ensures stored == ok
      ensures results == if ok then old(results) + [r] else old(results)
    {
      stored := ok;
      if ok {
        results := results + [r];
      }
    }

    /**
     * Validates the reading, derives its results and stores them in order,
     * returning at the first store that fails; results stored before it stay
     * stored.
     */
    method ProcessTrafficData(data: Option<TrafficData>, storeOk: nat -> bool) returns (err: Option<ProcessError>)
      modifies this
      ensures results == old(results) + Process(data, storeOk).written
      ensures err == Process(data, storeOk).err
    {
      var check := ValidateReading(data);
      if check.Fail? {
        return Some(InvalidData(check.rule));
      }
      var analyticsResults := PerformAnalysis(data.value);
      var i := 0;
      while i < |analyticsResults|
        invariant 0 <= i <= |analyticsResults| == 5
        invariant results == old(results) + analyticsResults[..i]
        invariant forall j :: 0 <= j < i ==> storeOk(j)
      {
        var stored := StoreAnalyticsResult(analyticsResults[i], storeOk(i));
        if !stored {
          LeadingSuccessesIs(storeOk, 5, i);
          return Some(StoreFailed);
        }
        assert analyticsResults[..i + 1] == analyticsResults[..i] + [analyticsResults[i]];
        i := i + 1;
      }
      LeadingSuccessesIs(storeOk, 5, 5);
      assert analyticsResults[..5] == analyticsResults;
      return None;
    }
  }

  /** The leading-success count is pinned down by its contract. */
  lemma LeadingSuccessesIs(ok: nat -> bool, n: nat, k: nat)
    requires k <= n
    requires forall i :: 0 <= i < k ==> ok(i)
    requires k < n ==> !ok(k)
    ensures LeadingSuccesses(ok, n) == k
  {
  }
}
