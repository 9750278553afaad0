/**
 * The records and constants shared by the ingestion and the analytics
 * services: a traffic reading, a derived analytics result, and the string
 * tags for congestion levels, metric types, units and trends.
 *
 * Only the fields the pipeline reads or writes are kept. Times are counted
 * in nanoseconds from Go's zero instant, so that "the zero time" is 0.
 */
module Models {

  datatype Option<T> = None | Some(value: T)

  datatype Result<T, E> = Ok(value: T) | Err(error: E)

  newtype byte = x: int | 0 <= x < 256

  /** A serialized payload (a JSON document, a log message value). */
  type Bytes = seq<byte>

  /** An instant, in nanoseconds since Go's zero time (January 1, year 1, UTC). */
  type Time = int

  const ZeroTime: Time := 0

  /** time.Minute, in nanoseconds. */
  const Minute: int := 60_000_000_000

  /** The fixed length of every analysis window. */
  const AnalysisWindow: int := 5 * Minute

  /** One sensor observation (`TrafficData`). */
  datatype TrafficData = TrafficData(
    locationId: string,
    timestamp: Time,
    vehicleCount: int,
    averageSpeed: real,
    congestionLevel: string,
    maxSpeed: Option<real>,
    minSpeed: Option<real>,
    occupancy: Option<real>,
    queueLength: real,
    travelTime: real,
    dataSource: string)

  /**
   * One derived measurement (`AnalyticsResult`). `locationId` and
   * `confidenceLevel` are pointers in the source, hence optional here;
   * `periodStart`, `periodEnd` and `metricType` are required columns.
   */
  datatype AnalyticsResult = AnalyticsResult(
    periodStart: Time,
    periodEnd: Time,
    locationId: Option<string>,
    metricType: string,
    value: real,
    unit: string,
    confidenceLevel: Option<real>,
    trend: string)

  // Congestion levels
  const CongestionLow := "low"
  const CongestionMedium := "medium"
  const CongestionHigh := "high"
  const CongestionSevere := "severe"

  const CongestionLevels: set<string> :=
    {CongestionLow, CongestionMedium, CongestionHigh, CongestionSevere}

  // Analytics metric types produced by the pipeline
  const MetricCongestionIndex := "congestion_index"
  const MetricTrafficDensity := "traffic_density"
  const MetricFlowRate := "flow_rate"
  const MetricTravelTime := "travel_time"
  const MetricDelayIndex := "delay_index"

  /** The metric types of one analysis, in the order they are derived. */
  const PipelineMetricTypes: seq<string> :=
    [MetricCongestionIndex, MetricTrafficDensity, MetricFlowRate, MetricTravelTime, MetricDelayIndex]

  // Units
  const UnitVehiclesPerHour := "vehicles/hour"
  const UnitIndex := "index"
  const UnitVehiclesPerKm := "vehicles/km"
  const UnitMinutes := "minutes"

  // Trends (the empty string means "no trend")
  const TrendIncreasing := "increasing"
  const TrendDecreasing := "decreasing"
  const TrendStable := "stable"

  const Trends: set<string> := {TrendIncreasing, TrendDecreasing, TrendStable}

  /**
   * The column constraints an analytics result is declared with: a trend is
   * empty or one of the three trends, a confidence is absent or in [0, 1],
   * a metric type is present and the period does not run backwards.
   */
  ghost predicate WellFormedResult(r: AnalyticsResult) {
    && (r.trend == "" || r.trend in Trends)
    && (r.confidenceLevel.Some? ==> 0.0 <= r.confidenceLevel.value <= 1.0)
    && r.metricType != ""
    && r.periodStart <= r.periodEnd
  }

  lemma CongestionLevelsAreFourDistinct()
    ensures |CongestionLevels| == 4
    ensures forall s :: s in CongestionLevels <==> s == "low" || s == "medium" || s == "high" || s == "severe"
  {
  }

  lemma MetricTypesDistinct()
    ensures |PipelineMetricTypes| == 5
    ensures forall i, j :: 0 <= i < j < |PipelineMetricTypes| ==> PipelineMetricTypes[i] != PipelineMetricTypes[j]
  {
  }

  lemma UnitsDistinct()
    ensures |{UnitIndex, UnitVehiclesPerKm, UnitVehiclesPerHour, UnitMinutes}| == 4
  {
  }
}
