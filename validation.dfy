/**
 * The vocabulary shared by the two reading validators of the analytics
 * processor: the rules a reading can break, what breaking each one means,
 * and a reference definition of "the first rule of a list that is broken".
 * The validators themselves are written as the guard chains they are in the
 * source (AnalyticsProcessing.ValidateReading, MessageHandling.ValidateMessage)
 * and are proved equal to this reference.
 */
module Validation {
  import opened Models

  datatype Rule =
    | NilReading
    | MissingLocation
    | NegativeVehicleCount
    | NegativeAverageSpeed
    | MissingTimestamp
    | UnknownCongestionLevel

  /** Outcome of a validator: ok, or the rule that made it fail. */
  datatype Check = Pass | Fail(rule: Rule)

  /** Whether the (possibly nil) reading breaks `rule`. */
  predicate Violated(data: Option<TrafficData>, rule: Rule) {
    match rule
    case NilReading => data.None?
    case MissingLocation => data.Some? && data.value.locationId == ""
    case NegativeVehicleCount => data.Some? && data.value.vehicleCount < 0
    case NegativeAverageSpeed => data.Some? && data.value.averageSpeed < 0.0
    case MissingTimestamp => data.Some? && data.value.timestamp == ZeroTime
    case UnknownCongestionLevel =>
      data.Some? && data.value.congestionLevel != "" && data.value.congestionLevel !in CongestionLevels
  }

  /** The first rule of `rules` that `data` breaks, or Pass when it breaks none. */
  function FirstViolated(data: Option<TrafficData>, rules: seq<Rule>): (r: Check)
    ensures r.Pass? <==> forall i :: 0 <= i < |rules| ==> !Violated(data, rules[i])
    ensures r.Fail? ==> exists i :: 0 <= i < |rules| && rules[i] == r.rule && FirstAt(data, rules, i)
  {
    if rules == [] then Pass
    else if Violated(data, rules[0]) then
      assert FirstAt(data, rules, 0);
      Fail(rules[0])
    else
      var r := FirstViolated(data, rules[1..]);
      if r.Fail? then
        var i :| 0 <= i < |rules[1..]| && rules[1..][i] == r.rule && FirstAt(data, rules[1..], i);
        assert FirstAt(data, rules, i + 1);
        r
      else
        r
  }

  /** `rules[i]` is broken and no rule before it is. */
  predicate FirstAt(data: Option<TrafficData>, rules: seq<Rule>, i: nat)
    requires i < |rules|
  {
    Violated(data, rules[i]) && forall j :: 0 <= j < i ==> !Violated(data, rules[j])
  }

  /** FirstViolated looks at the head rule before the rest. */
  lemma FirstViolatedCons(data: Option<TrafficData>, rule: Rule, rest: seq<Rule>)
    ensures FirstViolated(data, [rule] + rest) ==
      if Violated(data, rule) then Fail(rule) else FirstViolated(data, rest)
  {
    assert ([rule] + rest)[0] == rule;
    assert ([rule] + rest)[1..] == rest;
  }

  /** The order in which the processor's validator checks a reading. */
  const ReadingRules: seq<Rule> :=
    [NilReading, MissingLocation, NegativeVehicleCount, NegativeAverageSpeed, MissingTimestamp, UnknownCongestionLevel]

  /** The order in which the message handler's validator checks a decoded reading. */
  const MessageRules: seq<Rule> :=
    [MissingLocation, NegativeVehicleCount, NegativeAverageSpeed, UnknownCongestionLevel]
}
