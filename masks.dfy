/** The mask recommendation: a general line (the server's first protective
    measure when truthy, otherwise four AQI tiers) and a personalized line
    that is always chosen by the user's symptoms and age. */
module Masks {
  import opened Js
  import opened Reports

  /** The four general tiers, most protective first. */
  datatype MaskTier = N95Strongly | N95Extended | SurgicalOptional | NotNecessary

  /** Protection level: a higher rank asks for more protection. */
  function Rank(t: MaskTier): nat {
    match t
    case NotNecessary => 0
    case SurgicalOptional => 1
    case N95Extended => 2
    case N95Strongly => 3
  }

  /** The first-match chain `v > 150 ? … : v > 100 ? … : v > 50 ? … : …`,
      each tier characterised by the AQI range it covers. */
  function GeneralTier(aqi: Option<int>): (t: MaskTier)
    ensures t == N95Strongly <==> aqi.Some? && aqi.value >= 151
    ensures t == N95Extended <==> aqi.Some? && 101 <= aqi.value <= 150
    ensures t == SurgicalOptional <==> aqi.Some? && 51 <= aqi.value <= 100
    ensures t == NotNecessary <==> aqi.None? || aqi.value <= 50
  {
    if Above(aqi, 150) then N95Strongly
    else if Above(aqi, 100) then N95Extended
    else if Above(aqi, 50) then SurgicalOptional
    else NotNecessary
  }

  function TierText(t: MaskTier): string {
    match t
    case N95Strongly =>
      "Given the unhealthy air quality, wearing a high-quality N95 or KN95 mask is strongly recommended if you have to go outdoors. A simple cloth mask won't provide adequate protection."
    case N95Extended =>
      "For the current air quality level, an N95 or KN95 mask is recommended if you need to spend extended time outdoors, especially if you have respiratory conditions."
    case SurgicalOptional =>
      "A standard surgical mask may provide some protection during outdoor activities, though it's not essential at this air quality level unless you have respiratory sensitivities."
    case NotNecessary =>
      "At the current air quality level, masks are generally not necessary for outdoor activities unless you have specific health concerns."
  }

  /** `report.report?.protectiveMeasures?.[0] || (tier text)`. */
  function GeneralMask(r: Report): (s: Shown<MaskTier>)
    ensures s.FromServer? <==> StringTruthy(ServerMask(r))
    ensures s.FromServer? ==> s.text == ServerMask(r).value && s.text != ""
    ensures s.Derived? ==> s.rule == GeneralTier(AqiValue(r))
  {
    if StringTruthy(ServerMask(r)) then FromServer(ServerMask(r).value) else Derived(GeneralTier(AqiValue(r)))
  }

  function GeneralMaskText(r: Report): string {
    match GeneralMask(r)
    case FromServer(x) => x
    case Derived(t) => TierText(t)
  }

  /** The personalized messages, in the order the chain tries them. */
  datatype PersonalMask = RespiratoryMask | SeniorMask | ChildMask | FollowGeneral

  /** `symptoms?.includes("Asthma") || symptoms?.includes("Respiratory condition")`. */
  predicate HasRespiratoryCondition(r: Report) {
    Includes(Symptoms(r), "Asthma") || Includes(Symptoms(r), "Respiratory condition")
  }

  /** The first-match chain: a respiratory condition, then `age > 65`, then
      `age < 12`, then the default. An absent age satisfies neither age test. */
  function PersonalizedMask(r: Report): (m: PersonalMask)
    ensures m == RespiratoryMask <==> HasRespiratoryCondition(r)
    ensures m == SeniorMask <==> !HasRespiratoryCondition(r) && Age(r).Some? && Age(r).value >= 66
    ensures m == ChildMask <==> !HasRespiratoryCondition(r) && Age(r).Some? && Age(r).value <= 11
    ensures m == FollowGeneral <==>
      !HasRespiratoryCondition(r) && (Age(r).None? || 12 <= Age(r).value <= 65)
  {
    if HasRespiratoryCondition(r) then RespiratoryMask
    else if Above(Age(r), 65) then SeniorMask
    else if Below(Age(r), 12) then ChildMask
    else FollowGeneral
  }

  function PersonalText(m: PersonalMask): string {
    match m
    case RespiratoryMask =>
      "Based on your reported respiratory conditions, an N95 or KN95 mask is recommended even at moderate AQI levels to provide adequate protection for your sensitive respiratory system."
    case SeniorMask =>
      "As a senior adult, your respiratory system may be more vulnerable to air pollution. A properly fitted N95 mask is recommended when air quality is poor."
    case ChildMask =>
      "For children, specially sized masks designed for younger users are important. Standard adult masks won't provide proper protection due to fit issues."
    case FollowGeneral =>
      "Based on your profile, follow the general mask recommendations for your current air quality level."
  }

  /** A higher AQI never asks for less protection. */
  lemma GeneralTierMonotone(v: int, w: int)
    requires v <= w
    ensures Rank(GeneralTier(Some(v))) <= Rank(GeneralTier(Some(w)))
  {
  }

  /** 150, 100 and 50 each land in the next-lower tier; a missing AQI gets
      the last tier. */
  lemma GeneralTierBoundaries()
    ensures GeneralTier(Some(151)) == N95Strongly && GeneralTier(Some(150)) == N95Extended
    ensures GeneralTier(Some(101)) == N95Extended && GeneralTier(Some(100)) == SurgicalOptional
    ensures GeneralTier(Some(51)) == SurgicalOptional && GeneralTier(Some(50)) == NotNecessary
    ensures GeneralTier(None) == NotNecessary
  {
  }

  /** A health profile with the given age and symptoms, and nothing else. */
  function WithProfile(age: Option<int>, symptoms: Option<seq<string>>): Report {
    EmptyReport.(healthData := Some(HealthProfile(age, symptoms)))
  }

  /** A respiratory condition beats every age rule: `["Asthma"]` at age 70
      gets the respiratory text, not the senior one. */
  lemma RespiratoryBeatsAge()
    ensures PersonalizedMask(WithProfile(Some(70), Some(["Asthma"]))) == RespiratoryMask
    ensures PersonalizedMask(WithProfile(Some(5), Some(["Respiratory condition"]))) == RespiratoryMask
    ensures PersonalizedMask(WithProfile(Some(70), Some(["Cough"]))) == SeniorMask
  {
  }

  /** Ages 65 and 12, and a missing age, reach the default. */
  lemma AgeBoundaries()
    ensures PersonalizedMask(WithProfile(Some(65), None)) == FollowGeneral
    ensures PersonalizedMask(WithProfile(Some(66), None)) == SeniorMask
    ensures PersonalizedMask(WithProfile(Some(12), None)) == FollowGeneral
    ensures PersonalizedMask(WithProfile(Some(11), None)) == ChildMask
    ensures PersonalizedMask(WithProfile(None, Some([]))) == FollowGeneral
  {
  }

  /** The personalized line reads only the health profile: neither the AQI
      nor any server recommendation changes it. */
  lemma PersonalizedReadsOnlyHealth(r: Report, r': Report)
    requires r.healthData == r'.healthData
    ensures PersonalizedMask(r) == PersonalizedMask(r')
  {
  }
}
