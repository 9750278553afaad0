/**
 * The message handler of the analytics processor: decodes the value of one
 * log message into a traffic reading, re-validates it with its own (shorter)
 * rule list and hands it to the analytics processor.
 *
 * JSON decoding is a parameter: `unmarshal` gives the reading a payload
 * decodes to, or None when decoding fails.
 */
module MessageHandling {
  import opened Models
  import opened Validation
  import opened AnalyticsProcessing

  /**
   * The handler's validator: an empty location, then a negative vehicle
   * count, a negative average speed and a congestion level that is set but
   * not one of the four levels. There is no timestamp rule here.
   */
  function ValidateMessage(data: TrafficData): (r: Check)
    ensures r == FirstViolated(Some(data), MessageRules)
  {
    MessageRulesUnfolded(data);
    if data.locationId == "" then Fail(MissingLocation)
    else if data.vehicleCount < 0 then Fail(NegativeVehicleCount)
    else if data.averageSpeed < 0.0 then Fail(NegativeAverageSpeed)
    else if data.congestionLevel != "" && data.congestionLevel !in CongestionLevels then Fail(UnknownCongestionLevel)
    else Pass
  }

  /** FirstViolated over the handler's rule list, one rule at a time. */
  lemma MessageRulesUnfolded(data: TrafficData)
    ensures FirstViolated(Some(data), MessageRules) ==
      if Violated(Some(data), MissingLocation) then Fail(MissingLocation)
      else if Violated(Some(data), NegativeVehicleCount) then Fail(NegativeVehicleCount)
      else if Violated(Some(data), NegativeAverageSpeed) then Fail(NegativeAverageSpeed)
      else if Violated(Some(data), UnknownCongestionLevel) then Fail(UnknownCongestionLevel)
      else Pass
  {
    var d := Some(data);
    var tail := [UnknownCongestionLevel];
    FirstViolatedCons(d, UnknownCongestionLevel, []);
    assert [UnknownCongestionLevel] + [] == tail;
    FirstViolatedCons(d, NegativeAverageSpeed, tail);
    FirstViolatedCons(d, NegativeVehicleCount, [NegativeAverageSpeed] + tail);
    FirstViolatedCons(d, MissingLocation, [NegativeVehicleCount] + ([NegativeAverageSpeed] + tail));
    assert MessageRules == [MissingLocation] + ([NegativeVehicleCount] + ([NegativeAverageSpeed] + tail));
  }

  /**
   * The handler accepts a reading whatever its timestamp, and it accepts an
   * empty congestion level; a set level must equal one of the four exactly.
   */
  lemma MessageValidationIgnoresTimestamp(data: TrafficData, t: Time)
    ensures ValidateMessage(data.(timestamp := t)) == ValidateMessage(data)
    ensures data.congestionLevel == "" ==> ValidateMessage(data).Fail? ==> ValidateMessage(data).rule != UnknownCongestionLevel
    ensures ValidateMessage(data).Pass? ==> data.congestionLevel == "" || data.congestionLevel in CongestionLevels
  {
  }

  /**
   * The two validators agree except on timestamps: a reading passes the
   * processor's check exactly when it passes the handler's and its
   * timestamp is set, and any failure of the handler's other than the
   * congestion level is also the processor's failure.
   */
  lemma ValidatorsAgreeExceptTimestamp(data: TrafficData)
    ensures ValidateReading(Some(data)).Pass? <==> ValidateMessage(data).Pass? && data.timestamp != ZeroTime
    ensures ValidateMessage(data).Fail? && ValidateMessage(data).rule != UnknownCongestionLevel ==>
      ValidateReading(Some(data)) == ValidateMessage(data)
  {
    ReadingRulesUnfolded(Some(data));
    MessageRulesUnfolded(data);
  }

  datatype ParseError = UnmarshalFailed | ValidationFailed(rule: Rule)

  /** Decoding then validating a payload; on either failure no reading is returned. */
  function ParseTrafficData(msgValue: Bytes, unmarshal: Bytes -> Option<TrafficData>): (r: Result<TrafficData, ParseError>)
    ensures r.Ok? <==> unmarshal(msgValue).Some? && ValidateMessage(unmarshal(msgValue).value).Pass?
    ensures r.Ok? ==> r.value == unmarshal(msgValue).value
    ensures unmarshal(msgValue).None? ==> r == Err(UnmarshalFailed)
    ensures r.Err? && unmarshal(msgValue).Some? ==> r.error == ValidationFailed(ValidateMessage(unmarshal(msgValue).value).rule)
  {
    match unmarshal(msgValue)
    case None => Err(UnmarshalFailed)
    case Some(trafficData) =>
      var check := ValidateMessage(trafficData);
      if check.Fail? then Err(ValidationFailed(check.rule)) else Ok(trafficData)
  }

  datatype HandleError = ParseFailed(parse: ParseError) | AnalyticsFailed(process: ProcessError)

  /** What one call of HandleMessage returns and which analytics results it writes. */
  datatype HandleOutcome = HandleOutcome(err: Option<HandleError>, written: seq<AnalyticsResult>)

  /**
   * The specification of HandleMessage: a payload that does not parse never
   * reaches the processor; otherwise the processor's outcome is passed on.
   */
  function Handle(msgValue: Bytes, unmarshal: Bytes -> Option<TrafficData>, storeOk: nat -> bool): (o: HandleOutcome)
    ensures ParseTrafficData(msgValue, unmarshal).Err? ==>
      o == HandleOutcome(Some(ParseFailed(ParseTrafficData(msgValue, unmarshal).error)), [])
    ensures ParseTrafficData(msgValue, unmarshal).Ok? ==>
      var p := Process(Some(ParseTrafficData(msgValue, unmarshal).value), storeOk);
      && o.written == p.written
      && (o.err.None? <==> p.err.None?)
      && (p.err.Some? ==> o.err == Some(AnalyticsFailed(p.err.value)))
  {
    match ParseTrafficData(msgValue, unmarshal)
    case Err(e) => HandleOutcome(Some(ParseFailed(e)), [])
    case Ok(trafficData) =>
      var p := Process(Some(trafficData), storeOk);
      HandleOutcome(if p.err.None? then None else Some(AnalyticsFailed(p.err.value)), p.written)
  }

  /**
   * Handling succeeds exactly when the payload decodes to a reading that
   * passes both validators and all five stores succeed; the five results of
   * that reading are then exactly what is written.
   */
  lemma HandleSucceedsIff(msgValue: Bytes, unmarshal: Bytes -> Option<TrafficData>, storeOk: nat -> bool)
    ensures Handle(msgValue, unmarshal, storeOk).err.None? <==>
      && unmarshal(msgValue).Some?
      && ValidateReading(unmarshal(msgValue)).Pass?
      && (forall i :: 0 <= i < 5 ==> storeOk(i))
    ensures Handle(msgValue, unmarshal, storeOk).err.None? ==>
      Handle(msgValue, unmarshal, storeOk).written == Analysis(unmarshal(msgValue).value)
  {
    if unmarshal(msgValue).Some? {
      var data := unmarshal(msgValue).value;
      ValidatorsAgreeExceptTimestamp(data);
      ProcessWritesOnlyValid(Some(data), storeOk);
    }
  }

  /**
   * A message whose reading is otherwise valid but has a zero timestamp gets
   * past the handler's validator and is then rejected by the processor's,
   * with nothing written.
   */
  lemma ZeroTimestampRejectedByProcessor(msgValue: Bytes, unmarshal: Bytes -> Option<TrafficData>, storeOk: nat -> bool)
    requires unmarshal(msgValue).Some? && ValidateMessage(unmarshal(msgValue).value).Pass?
    requires unmarshal(msgValue).value.timestamp == ZeroTime
    ensures ParseTrafficData(msgValue, unmarshal).Ok?
    ensures Handle(msgValue, unmarshal, storeOk) == HandleOutcome(Some(AnalyticsFailed(InvalidData(MissingTimestamp))), [])
  {
    ReadingRulesUnfolded(unmarshal(msgValue));
  }

  /** The handler of the analytics processor; it holds the processor it calls. */
  class MessageHandler {
    const processor: AnalyticsProcessor

    constructor (processor: AnalyticsProcessor)
      ensures this.processor == processor
    {
      this.processor := processor;
    }

    /** Parses the payload and, only when that succeeds, runs the processor on the reading. */
    method HandleMessage(msgValue: Bytes, unmarshal: Bytes -> Option<TrafficData>, storeOk: nat -> bool)
      returns (err: Option<HandleError>)
      modifies processor
      ensures processor.results == old(processor.results) + Handle(msgValue, unmarshal, storeOk).written
      ensures err == Handle(msgValue, unmarshal, storeOk).err
    {
      var parsed := ParseTrafficData(msgValue, unmarshal);
      if parsed.Err? {
        return Some(ParseFailed(parsed.error));
      }
      var processErr := processor.ProcessTrafficData(Some(parsed.value), storeOk);
      if processErr.Some? {
        return Some(AnalyticsFailed(processErr.value));
      }
      return None;
    }
  }
}
