/** The outdoor activity assessment: the server's text when it supplied a
    truthy one, otherwise one of three messages chosen by AQI buckets. */
module Activity {
  import opened Js
  import opened Reports

  /** The three rule-derived messages, most severe first. */
  datatype Assessment = StayIndoors | LimitOutdoor | OutdoorAllowed

  /** Severity: a higher rank is the more restrictive advice. */
  function Rank(a: Assessment): nat {
    match a
    case OutdoorAllowed => 0
    case LimitOutdoor => 1
    case StayIndoors => 2
  }

  /** The first-match chain `v > 150 ? … : v > 100 ? … : …`. Each bucket
      is characterised by the AQI range it covers; an absent AQI compares
      false and lands in the last bucket. */
  function Assess(aqi: Option<int>): (a: Assessment)
    ensures a == StayIndoors <==> aqi.Some? && aqi.value >= 151
    ensures a == LimitOutdoor <==> aqi.Some? && 101 <= aqi.value <= 150
    ensures a == OutdoorAllowed <==> aqi.None? || aqi.value <= 100
  {
    if Above(aqi, 150) then StayIndoors
    else if Above(aqi, 100) then LimitOutdoor
    else OutdoorAllowed
  }

  function Text(a: Assessment): string {
    match a
    case StayIndoors =>
      "Based on the current AQI, outdoor activities are not recommended. It's best to stay indoors as much as possible."
    case LimitOutdoor =>
      "The current air quality is not ideal for prolonged outdoor activities. Consider limiting time outside, especially if you have respiratory issues."
    case OutdoorAllowed =>
      "The current air quality allows for outdoor activities, but stay aware of any changes in air quality or your health condition."
  }

  /** `report.report?.activityGuidelines?.outdoor || (rule text)`: which
      text is shown. */
  function OutdoorActivity(r: Report): (s: Shown<Assessment>)
    ensures s.FromServer? <==> StringTruthy(ServerOutdoor(r))
    ensures s.FromServer? ==> s.text == ServerOutdoor(r).value && s.text != ""
    ensures s.Derived? ==> s.rule == Assess(AqiValue(r))
  {
    if StringTruthy(ServerOutdoor(r)) then FromServer(ServerOutdoor(r).value) else Derived(Assess(AqiValue(r)))
  }

  /** The text the assessment line displays. */
  function OutdoorText(r: Report): string {
    match OutdoorActivity(r)
    case FromServer(x) => x
    case Derived(a) => Text(a)
  }

  /** A higher AQI never yields less restrictive advice. */
  lemma AssessMonotone(v: int, w: int)
    requires v <= w
    ensures Rank(Assess(Some(v))) <= Rank(Assess(Some(w)))
  {
  }

  /** A report whose only non-absent field is the nested AQI value. */
  function WithAqi(v: Option<int>): Report {
    EmptyReport.(aqiData := Some(AqiReading(v, None)))
  }

  /** The boundaries 150 and 100 belong to the lower bucket, so the message
      changes between 150 and 151 and between 100 and 101; a missing AQI
      allows outdoor activity. */
  lemma BoundariesFlip()
    ensures OutdoorActivity(WithAqi(Some(151))) == Derived(StayIndoors)
    ensures OutdoorActivity(WithAqi(Some(150))) == Derived(LimitOutdoor)
    ensures OutdoorActivity(WithAqi(Some(101))) == Derived(LimitOutdoor)
    ensures OutdoorActivity(WithAqi(Some(100))) == Derived(OutdoorAllowed)
    ensures OutdoorActivity(WithAqi(None)) == Derived(OutdoorAllowed)
  {
  }

  /** A truthy server text is shown unchanged whatever the AQI. */
  lemma ServerTextWins(r: Report, x: string, v: Option<int>)
    requires x != ""
    ensures OutdoorActivity(Report(Some(AqiReading(v, None)), r.aqi, r.status, r.healthData,
      Some(ServerRecommendations(Some(ActivityGuidelines(Some(x))), None, None)))) == FromServer(x)
  {
  }
}
