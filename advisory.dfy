/** Everything the screen derives from one report: the displayed AQI and
    status, and the advisory bundle (activity, general and personalized
    mask, medicine), with the properties that span several rule chains. */
module Advisory {
  import opened Js
  import opened Reports
  import Activity
  import Masks
  import Medicine

  datatype Bundle = Bundle(
    display: CanonicalReport,
    outdoor: Shown<Activity.Assessment>,
    generalMask: Shown<Masks.MaskTier>,
    personalMask: Masks.PersonalMask,
    medicine: Shown<seq<Medicine.Sentence>>)

  /** The advisory part of a bundle, without the displayed AQI and status. */
  datatype Advice = Advice(
    outdoor: Shown<Activity.Assessment>,
    generalMask: Shown<Masks.MaskTier>,
    personalMask: Masks.PersonalMask,
    medicine: Shown<seq<Medicine.Sentence>>)

  function Advise(r: Report): Bundle {
    Bundle(Normalize(r), Activity.OutdoorActivity(r), Masks.GeneralMask(r),
      Masks.PersonalizedMask(r), Medicine.Medicine(r))
  }

  function AdviceOf(b: Bundle): Advice {
    Advice(b.outdoor, b.generalMask, b.personalMask, b.medicine)
  }

  /** The inputs the rule chains read: `aqiData?.value`, age, symptoms and
      the three server texts. */
  predicate SameRuleInputs(r: Report, r': Report) {
    && AqiValue(r) == AqiValue(r')
    && Age(r) == Age(r')
    && Symptoms(r) == Symptoms(r')
    && ServerOutdoor(r) == ServerOutdoor(r')
    && ServerMask(r) == ServerMask(r')
    && ServerMedicine(r) == ServerMedicine(r')
  }

  /** The advice is a function of the rule inputs alone. */
  lemma AdviceReadsOnlyRuleInputs(r: Report, r': Report)
    requires SameRuleInputs(r, r')
    ensures AdviceOf(Advise(r)) == AdviceOf(Advise(r'))
  {
  }

  /** The flat `aqi` and `status` feed only the display: no advice changes
      with them, even when the nested AQI is absent or 0. */
  lemma FlatFieldsOnlyDisplayed(r: Report, aqi: Option<int>, status: Option<string>)
    ensures AdviceOf(Advise(r.(aqi := aqi, status := status))) == AdviceOf(Advise(r))
    ensures !NumberTruthy(AqiValue(r)) ==> Advise(r.(aqi := aqi, status := status)).display.aqiValue == aqi
  {
    AdviceReadsOnlyRuleInputs(r.(aqi := aqi, status := status), r);
  }

  /** Every advisory line shows something: a truthy server text or a
      message chosen by its rules, and derived medicine text has at least
      one sentence. */
  lemma AlwaysSomethingShown(r: Report)
    ensures Advise(r).outdoor.FromServer? ==> Advise(r).outdoor.text != ""
    ensures Advise(r).generalMask.FromServer? ==> Advise(r).generalMask.text != ""
    ensures Advise(r).medicine.FromServer? ==> Advise(r).medicine.text != ""
    ensures Advise(r).medicine.Derived? ==> Advise(r).medicine.rule != []
  {
    if Advise(r).medicine.Derived? && NonEmpty(Symptoms(r)) {
      Medicine.SymptomSentencesNonEmpty(Symptoms(r).value);
    }
  }

  /** A report with no fields at all yields the defaults of every chain. */
  lemma EmptyReportAdvice()
    ensures Advise(EmptyReport) == Bundle(
      CanonicalReport(None, None),
      Derived(Activity.OutdoorAllowed),
      Derived(Masks.NotNecessary),
      Masks.FollowGeneral,
      Derived([Medicine.NoMedication(None)]))
  {
    var r := EmptyReport;
    assert AqiValue(r) == None && Symptoms(r) == None && Age(r) == None;
    assert ServerOutdoor(r) == None && ServerMask(r) == None && ServerMedicine(r) == None;
    assert Medicine.AqiSentences(None) == [Medicine.NoMedication(None)];
  }

  /** AQI 180, age 70, `["Asthma"]`, no server texts: the strongest general
      tier, the respiratory personalized text (age ignored), and Asthma's
      medicine sentence with the disclaimer. */
  lemma SevereAsthmaSenior()
    ensures var r := Report(Some(AqiReading(Some(180), None)), None, None,
      Some(HealthProfile(Some(70), Some(["Asthma"]))), None);
      && Advise(r).generalMask == Derived(Masks.N95Strongly)
      && Advise(r).personalMask == Masks.RespiratoryMask
      && Advise(r).outdoor == Derived(Activity.StayIndoors)
      && Advise(r).medicine == Derived([Medicine.SymptomAdvice(Medicine.Asthma)])
  {
    var r := Report(Some(AqiReading(Some(180), None)), None, None,
      Some(HealthProfile(Some(70), Some(["Asthma"]))), None);
    assert AqiValue(r) == Some(180) && Symptoms(r) == Some(["Asthma"]) && Age(r) == Some(70);
    assert ServerOutdoor(r) == None && ServerMask(r) == None && ServerMedicine(r) == None;
    assert Masks.HasRespiratoryCondition(r);
    Medicine.AsthmaExample();
  }

  /** AQI 40 and an empty symptom list: only the AQI message, no rescue
      clause, since 40 is not above 100. */
  lemma CleanAirNoSymptoms()
    ensures var r := Report(Some(AqiReading(Some(40), None)), None, None,
      Some(HealthProfile(None, Some([]))), None);
      Advise(r).medicine == Derived([Medicine.NoMedication(Some(40))])
  {
    var r := Report(Some(AqiReading(Some(40), None)), None, None,
      Some(HealthProfile(None, Some([]))), None);
    assert AqiValue(r) == Some(40) && Symptoms(r) == Some([]) && ServerMedicine(r) == None;
    assert Medicine.AqiSentences(Some(40)) == [Medicine.NoMedication(Some(40))];
  }

  /** A legacy report carrying only the flat `aqi` shows that AQI at the top
      while every rule chain sees a missing AQI: the mildest activity and
      mask advice, and a medicine message with an empty AQI. */
  lemma LegacyAqiShownButNotAdvised()
    ensures var r := Report(None, Some(180), Some("Unhealthy"), None, None);
      && Advise(r).display == CanonicalReport(Some(180), Some("Unhealthy"))
      && Advise(r).outdoor == Derived(Activity.OutdoorAllowed)
      && Advise(r).generalMask == Derived(Masks.NotNecessary)
      && Advise(r).medicine == Derived([Medicine.NoMedication(None)])
  {
    var r := Report(None, Some(180), Some("Unhealthy"), None, None);
    assert AqiValue(r) == None && AqiStatus(r) == None && Symptoms(r) == None;
    assert ServerOutdoor(r) == None && ServerMask(r) == None && ServerMedicine(r) == None;
    assert Medicine.AqiSentences(None) == [Medicine.NoMedication(None)];
  }
}
