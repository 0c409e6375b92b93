/** The report record as the screen receives it, and the display fallback
    that reconciles the nested (`aqiData.value`, `aqiData.status`) and the
    legacy flat (`aqi`, `status`) shapes. Every field may be absent. */
module Reports {
  import opened Js

  /** `aqiData`: the air-quality reading. */
  datatype AqiReading = AqiReading(value: Option<int>, status: Option<string>)

  /** `healthData`: the part of the user's health profile the advice reads. */
  datatype HealthProfile = HealthProfile(age: Option<int>, symptoms: Option<seq<string>>)

  /** `report.activityGuidelines`. */
  datatype ActivityGuidelines = ActivityGuidelines(outdoor: Option<string>)

  /** `report`: recommendations generated by the server, if any. */
  datatype ServerRecommendations = ServerRecommendations(
    activityGuidelines: Option<ActivityGuidelines>,
    protectiveMeasures: Option<seq<string>>,
    medicineRecommendations: Option<seq<string>>)

  datatype Report = Report(
    aqiData: Option<AqiReading>,
    aqi: Option<int>,
    status: Option<string>,
    healthData: Option<HealthProfile>,
    report: Option<ServerRecommendations>)

  /** A report with every field absent. */
  const EmptyReport := Report(None, None, None, None, None)

  /** `report.aqiData?.value`: the only AQI the advisory rules read. */
  function AqiValue(r: Report): Option<int> {
    if r.aqiData.Some? then r.aqiData.value.value else None
  }

  /** `report.aqiData?.status`. */
  function AqiStatus(r: Report): Option<string> {
    if r.aqiData.Some? then r.aqiData.value.status else None
  }

  /** `report.healthData?.age`. */
  function Age(r: Report): Option<int> {
    if r.healthData.Some? then r.healthData.value.age else None
  }

  /** `report.healthData?.symptoms`. */
  function Symptoms(r: Report): Option<seq<string>> {
    if r.healthData.Some? then r.healthData.value.symptoms else None
  }

  /** `report.report?.activityGuidelines?.outdoor`. */
  function ServerOutdoor(r: Report): Option<string> {
    if r.report.Some? && r.report.value.activityGuidelines.Some?
    then r.report.value.activityGuidelines.value.outdoor
    else None
  }

  /** `report.report?.protectiveMeasures?.[0]`. */
  function ServerMask(r: Report): Option<string> {
    if r.report.Some? then First(r.report.value.protectiveMeasures) else None
  }

  /** `report.report?.medicineRecommendations?.[0]`. */
  function ServerMedicine(r: Report): Option<string> {
    if r.report.Some? then First(r.report.value.medicineRecommendations) else None
  }

  /** What an advisory line shows: the server's text, or the message a
      rule chain chose. */
  datatype Shown<M> = FromServer(text: string) | Derived(rule: M)

  /** The AQI value and status shown at the top of the screen. */
  datatype CanonicalReport = CanonicalReport(aqiValue: Option<int>, aqiStatus: Option<string>)

  /** `aqiData?.value || aqi` and `aqiData?.status || status`: the nested
      field wins when truthy; a falsy one (absent, `0`, `""`) gives way to the
      flat field, whatever that holds. */
  function Normalize(r: Report): (c: CanonicalReport)
    ensures NumberTruthy(AqiValue(r)) ==> c.aqiValue == AqiValue(r)
    ensures !NumberTruthy(AqiValue(r)) ==> c.aqiValue == r.aqi
    ensures StringTruthy(AqiStatus(r)) ==> c.aqiStatus == AqiStatus(r)
    ensures !StringTruthy(AqiStatus(r)) ==> c.aqiStatus == r.status
  {
    CanonicalReport(NumberOr(AqiValue(r), r.aqi), StringOr(AqiStatus(r), r.status))
  }

  /** The displayed AQI is truthy exactly when one of the two sources is, and
      it is always one of the two. */
  lemma NormalizedAqiTruthy(r: Report)
    ensures NumberTruthy(Normalize(r).aqiValue) <==> NumberTruthy(AqiValue(r)) || NumberTruthy(r.aqi)
    ensures Normalize(r).aqiValue == AqiValue(r) || Normalize(r).aqiValue == r.aqi
  {
  }

  /** A nested AQI of 0 is not shown: the flat `aqi` is, even when absent. */
  lemma NestedZeroFallsThrough(r: Report)
    requires AqiValue(r) == Some(0)
    ensures Normalize(r).aqiValue == r.aqi
  {
  }

  /** A legacy report (no `aqiData`) shows its flat fields. */
  lemma LegacyShape(r: Report)
    requires r.aqiData.None?
    ensures Normalize(r) == CanonicalReport(r.aqi, r.status)
  {
  }

  /** Normalizing a report with no fields raises nothing and yields nothing. */
  lemma NormalizeEmpty()
    ensures Normalize(EmptyReport) == CanonicalReport(None, None)
  {
  }
}
