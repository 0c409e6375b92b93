/** The medicine recommendation: the server's first medicine text when
    truthy; otherwise, for a non-empty symptom list, one fixed sentence per
    recognised symptom in vocabulary order (or a generic sentence when none
    is recognised); otherwise an AQI-referencing message with a rescue
    clause above AQI 100. The disclaimer belongs to the non-server branch. */
module Medicine {
  import opened Js
  import opened Reports
  import Decimal

  /** The seven symptoms that have a sentence of their own. */
  datatype Symptom = Asthma | Allergies | Cough | ShortnessOfBreath | EyeIrritation | Headache | ThroatIrritation

  /** The string the profile uses for a symptom. */
  function Name(s: Symptom): string {
    match s
    case Asthma => "Asthma"
    case Allergies => "Allergies"
    case Cough => "Cough"
    case ShortnessOfBreath => "Shortness of breath"
    case EyeIrritation => "Eye irritation"
    case Headache => "Headache"
    case ThroatIrritation => "Throat irritation"
  }

  /** The order in which the symptom sentences are emitted. */
  const Vocabulary: seq<Symptom> :=
    [Asthma, Allergies, Cough, ShortnessOfBreath, EyeIrritation, Headache, ThroatIrritation]

  /** The list the generic-sentence test checks each listed symptom against. */
  const VocabularyNames: seq<string> :=
    ["Asthma", "Allergies", "Cough", "Shortness of breath", "Eye irritation", "Headache", "Throat irritation"]

  /** A symptom's place in the emission order. */
  function Position(s: Symptom): nat {
    match s
    case Asthma => 0
    case Allergies => 1
    case Cough => 2
    case ShortnessOfBreath => 3
    case EyeIrritation => 4
    case Headache => 5
    case ThroatIrritation => 6
  }

  /** One sentence of the medicine text. */
  datatype Sentence =
    | SymptomAdvice(symptom: Symptom)
    | GenericAdvice
    | NoMedication(aqi: Option<int>)
    | RescueClause

  /** The test for one symptom: its name listed or not. */
  function Hit(x: Symptom, symptoms: seq<string>): seq<Symptom> {
    if Name(x) in symptoms then [x] else []
  }

  /** The symptoms of `vocab`, kept in `vocab`'s order, whose name the
      profile's list includes. */
  function Recognised(vocab: seq<Symptom>, symptoms: seq<string>): seq<Symptom>
    decreases |vocab|
  {
    if vocab == [] then []
    else Hit(vocab[0], symptoms) + Recognised(vocab[1..], symptoms)
  }

  /** `symptoms.some(symptom => VocabularyNames.includes(symptom))`. */
  predicate AnyRecognised(symptoms: seq<string>)
    decreases |symptoms|
  {
    symptoms != [] && (symptoms[0] in VocabularyNames || AnyRecognised(symptoms[1..]))
  }

  /** One sentence per recognised symptom. The first ensures spells the
      comprehension out index by index for the proofs that use it; the
      property itself is `AdviceForMembers`. */
  function AdviceFor(m: seq<Symptom>): (ss: seq<Sentence>)
    ensures |ss| == |m| && forall i :: 0 <= i < |m| ==> ss[i] == SymptomAdvice(m[i])
    ensures forall x :: x in ss ==> x.SymptomAdvice?
  {
    seq(|m|, i requires 0 <= i < |m| => SymptomAdvice(m[i]))
  }

  /** The symptom branch: the seven conditional sentences in vocabulary
      order, then the generic sentence when no listed symptom is one of
      the seven. */
  function SymptomSentences(symptoms: seq<string>): seq<Sentence> {
    AdviceFor(Recognised(Vocabulary, symptoms)) + (if AnyRecognised(symptoms) then [] else [GenericAdvice])
  }

  /** The branch for an empty or absent symptom list. */
  function AqiSentences(aqi: Option<int>): (ss: seq<Sentence>)
    ensures |ss| >= 1 && ss[0] == NoMedication(aqi)
    ensures RescueClause in ss <==> aqi.Some? && aqi.value >= 101
    ensures |ss| == (if aqi.Some? && aqi.value >= 101 then 2 else 1)
  {
    [NoMedication(aqi)] + (if Above(aqi, 100) then [RescueClause] else [])
  }

  /** `medicineRecommendations?.[0] ? (server text) : symptoms?.length > 0 ? … : …`.
      The symptom and AQI branches read `aqiData?.value` and the symptoms only. */
  function Medicine(r: Report): (m: Shown<seq<Sentence>>)
    ensures m.FromServer? <==> StringTruthy(ServerMedicine(r))
    ensures m.FromServer? ==> m.text == ServerMedicine(r).value && m.text != ""
    ensures m.Derived? && NonEmpty(Symptoms(r)) ==> m.rule == SymptomSentences(Symptoms(r).value)
    ensures m.Derived? && !NonEmpty(Symptoms(r)) ==> m.rule == AqiSentences(AqiValue(r))
  {
    if StringTruthy(ServerMedicine(r)) then FromServer(ServerMedicine(r).value)
    else if NonEmpty(Symptoms(r)) then Derived(SymptomSentences(Symptoms(r).value))
    else Derived(AqiSentences(AqiValue(r)))
  }

  /** The disclaimer block sits inside the non-server branch only. */
  predicate ShowsDisclaimer(r: Report) {
    Medicine(r).Derived?
  }

  const NoMedicationPrefix := "Based on the current air quality (AQI: "
  const NoMedicationSuffix :=
    "), no specific medications are recommended at this time. Stay hydrated and monitor for any developing symptoms."

  function SentenceText(s: Sentence): string {
    match s
    case SymptomAdvice(Asthma) =>
      "For asthma symptoms, ensure you have your prescribed rescue inhaler readily available. Consider using your controller medications as directed by your healthcare provider, especially before going outdoors in current air quality conditions."
    case SymptomAdvice(Allergies) =>
      "For allergy symptoms, non-drowsy antihistamines like Cetirizine or Loratadine may help reduce symptoms. Nasal saline rinses can help clear irritants from nasal passages."
    case SymptomAdvice(Cough) =>
      "For cough symptoms, consider honey-based cough suppressants (if over 1 year old) or over-the-counter expectorants like Guaifenesin to help loosen congestion."
    case SymptomAdvice(ShortnessOfBreath) =>
      "Shortness of breath can be serious. If you have a prescribed inhaler, use as directed. If symptoms persist or worsen, seek immediate medical attention."
    case SymptomAdvice(EyeIrritation) =>
      "For eye irritation, preservative-free lubricating eye drops can help flush irritants and provide relief."
    case SymptomAdvice(Headache) =>
      "For headaches, over-the-counter pain relievers like Acetaminophen or Ibuprofen may provide relief. Stay hydrated and consider rest in a dark, quiet room."
    case SymptomAdvice(ThroatIrritation) =>
      "For throat irritation, throat lozenges, warm saltwater gargles, or soothing herbal teas with honey may provide relief."
    case GenericAdvice =>
      "Based on your reported symptoms, staying hydrated and monitoring your condition is recommended. If symptoms persist or worsen, consult with a healthcare provider."
    case NoMedication(aqi) => NoMedicationPrefix + RenderNumber(aqi) + NoMedicationSuffix
    case RescueClause =>
      " If you have pre-existing respiratory conditions, keep rescue medications readily available."
  }

  /** Sentences are displayed one after another with no separator. */
  function Concat(ss: seq<Sentence>): string
    decreases |ss|
  {
    if ss == [] then "" else SentenceText(ss[0]) + Concat(ss[1..])
  }

  const Disclaimer :=
    "Important: These medicine recommendations are provided as general guidance only and not as medical advice. Always consult with a healthcare professional before starting any medication, especially if you have pre-existing conditions, are pregnant, or are taking other medications."

  /** The text of the medicine panel, followed by the disclaimer when the
      panel was derived. */
  function MedicinePanel(r: Report): seq<string> {
    match Medicine(r)
    case FromServer(x) => [x]
    case Derived(ss) => [Concat(ss), Disclaimer]
  }

  /** Every element of `m` comes strictly later in the vocabulary than the
      ones before it. */
  ghost predicate StrictlyOrdered(m: seq<Symptom>) {
    forall i, j :: 0 <= i < j < |m| ==> Position(m[i]) < Position(m[j])
  }

  /** Two symptom lists holding the same strings, in any order and number. */
  ghost predicate SameMembers(a: seq<string>, b: seq<string>) {
    forall x :: x in a <==> x in b
  }

  /** Every symptom sits in `Vocabulary` at its `Position`. */
  lemma VocabularyPosition(s: Symptom)
    ensures Position(s) < |Vocabulary| && Vocabulary[Position(s)] == s
  {
  }

  /** A symptom's name sits at its `Position` in `VocabularyNames`. */
  lemma VocabularyNamePosition(s: Symptom)
    ensures Position(s) < |VocabularyNames| && VocabularyNames[Position(s)] == Name(s)
  {
  }

  /** `VocabularyNames` lists the names of `Vocabulary`, place by place. */
  lemma VocabularyNamesMatch(k: nat)
    requires k < |VocabularyNames|
    ensures k < |Vocabulary| && VocabularyNames[k] == Name(Vocabulary[k])
  {
  }

  lemma VocabularyOrdered()
    ensures StrictlyOrdered(Vocabulary)
  {
  }

  /** A symptom is recognised exactly when it is in `vocab` and listed. */
  lemma {:induction false} RecognisedMembers(vocab: seq<Symptom>, symptoms: seq<string>, s: Symptom)
    ensures s in Recognised(vocab, symptoms) <==> s in vocab && Name(s) in symptoms
    decreases |vocab|
  {
    if vocab != [] {
      RecognisedMembers(vocab[1..], symptoms, s);
      assert vocab == [vocab[0]] + vocab[1..];
    }
  }

  /** Filtering keeps the vocabulary order. */
  lemma {:induction false} RecognisedOrdered(vocab: seq<Symptom>, symptoms: seq<string>)
    requires StrictlyOrdered(vocab)
    ensures StrictlyOrdered(Recognised(vocab, symptoms))
    decreases |vocab|
  {
    if vocab != [] {
      var rest := Recognised(vocab[1..], symptoms);
      RecognisedOrdered(vocab[1..], symptoms);
      forall k | 0 <= k < |rest|
        ensures Position(vocab[0]) < Position(rest[k])
      {
        RecognisedMembers(vocab[1..], symptoms, rest[k]);
      }
    }
  }

  /** Only which strings are listed matters, not their order or repetition. */
  lemma {:induction false} RecognisedByMembership(vocab: seq<Symptom>, a: seq<string>, b: seq<string>)
    requires SameMembers(a, b)
    ensures Recognised(vocab, a) == Recognised(vocab, b)
    decreases |vocab|
  {
    if vocab != [] {
      RecognisedByMembership(vocab[1..], a, b);
      assert Name(vocab[0]) in a <==> Name(vocab[0]) in b;
    }
  }

  /** The `some` test holds exactly when some listed string is in the list. */
  lemma {:induction false} AnyRecognisedMeans(symptoms: seq<string>)
    ensures AnyRecognised(symptoms) <==> exists i :: 0 <= i < |symptoms| && symptoms[i] in VocabularyNames
    decreases |symptoms|
  {
    if symptoms != [] {
      AnyRecognisedMeans(symptoms[1..]);
      if !AnyRecognised(symptoms) {
        forall i | 0 <= i < |symptoms|
          ensures symptoms[i] !in VocabularyNames
        {
          if i > 0 {
            assert symptoms[i] == symptoms[1..][i - 1];
          }
        }
      } else if symptoms[0] !in VocabularyNames {
        var i :| 0 <= i < |symptoms[1..]| && symptoms[1..][i] in VocabularyNames;
        assert symptoms[i + 1] in VocabularyNames;
      }
    }
  }

  /** The `some` test and the seven `includes` tests agree: some listed
      string is in the vocabulary exactly when some symptom is recognised. */
  lemma AnyRecognisedIffRecognised(symptoms: seq<string>)
    ensures AnyRecognised(symptoms) <==> Recognised(Vocabulary, symptoms) != []
  {
    AnyRecognisedMeans(symptoms);
    if AnyRecognised(symptoms) {
      var i :| 0 <= i < |symptoms| && symptoms[i] in VocabularyNames;
      var k :| 0 <= k < |VocabularyNames| && VocabularyNames[k] == symptoms[i];
      VocabularyNamesMatch(k);
      RecognisedMembers(Vocabulary, symptoms, Vocabulary[k]);
    }
    if Recognised(Vocabulary, symptoms) != [] {
      var s := Recognised(Vocabulary, symptoms)[0];
      RecognisedMembers(Vocabulary, symptoms, s);
      VocabularyNamePosition(s);
      var i :| 0 <= i < |symptoms| && symptoms[i] == Name(s);
      assert symptoms[i] in VocabularyNames;
    }
  }

  /** A symptom has a sentence in `AdviceFor(m)` exactly when it is in `m`. */
  lemma AdviceForMembers(m: seq<Symptom>, s: Symptom)
    ensures SymptomAdvice(s) in AdviceFor(m) <==> s in m
  {
    var ss := AdviceFor(m);
    if SymptomAdvice(s) in ss {
      var k :| 0 <= k < |ss| && ss[k] == SymptomAdvice(s);
      assert m[k] == s;
    }
    if s in m {
      var k :| 0 <= k < |m| && m[k] == s;
      assert ss[k] == SymptomAdvice(s);
    }
  }

  /** A symptom's sentence is emitted exactly when the symptom is listed. */
  lemma SymptomAdviceIffListed(symptoms: seq<string>, s: Symptom)
    ensures SymptomAdvice(s) in SymptomSentences(symptoms) <==> Name(s) in symptoms
  {
    var m := Recognised(Vocabulary, symptoms);
    var tail := if AnyRecognised(symptoms) then [] else [GenericAdvice];
    assert SymptomSentences(symptoms) == AdviceFor(m) + tail;
    assert SymptomAdvice(s) !in tail;
    AdviceForMembers(m, s);
    VocabularyPosition(s);
    RecognisedMembers(Vocabulary, symptoms, s);
  }

  /** The generic sentence is emitted exactly when no listed string is one
      of the seven, that is, when no symptom is recognised. */
  lemma GenericIffNoneRecognised(symptoms: seq<string>)
    ensures GenericAdvice in SymptomSentences(symptoms) <==>
      forall i :: 0 <= i < |symptoms| ==> symptoms[i] !in VocabularyNames
    ensures GenericAdvice in SymptomSentences(symptoms) <==> Recognised(Vocabulary, symptoms) == []
  {
    var m := Recognised(Vocabulary, symptoms);
    AnyRecognisedMeans(symptoms);
    AnyRecognisedIffRecognised(symptoms);
  }

  /** What the symptom branch emits: a symptom's sentence exactly when the
      symptom is listed; the generic sentence exactly when none of the
      seven is listed; nothing else. */
  lemma SymptomSentencesContents(symptoms: seq<string>)
    ensures forall s: Symptom :: SymptomAdvice(s) in SymptomSentences(symptoms) <==> Name(s) in symptoms
    ensures GenericAdvice in SymptomSentences(symptoms) <==> forall s: Symptom :: Name(s) !in symptoms
    ensures forall x :: x in SymptomSentences(symptoms) ==> x.SymptomAdvice? || x == GenericAdvice
  {
    forall s: Symptom
      ensures SymptomAdvice(s) in SymptomSentences(symptoms) <==> Name(s) in symptoms
    {
      SymptomAdviceIffListed(symptoms, s);
    }
    GenericIffNoneRecognised(symptoms);
    NoneRecognisedIffNoneListed(symptoms);
  }

  /** No symptom is recognised exactly when none of the seven names is listed. */
  lemma NoneRecognisedIffNoneListed(symptoms: seq<string>)
    ensures Recognised(Vocabulary, symptoms) == [] <==> forall s: Symptom :: Name(s) !in symptoms
  {
    var m := Recognised(Vocabulary, symptoms);
    if m != [] {
      RecognisedMembers(Vocabulary, symptoms, m[0]);
    }
    forall s: Symptom | Name(s) in symptoms
      ensures m != []
    {
      VocabularyPosition(s);
      RecognisedMembers(Vocabulary, symptoms, s);
    }
  }

  /** Sentences come in vocabulary order (Asthma, Allergies, Cough, Shortness
      of breath, Eye irritation, Headache, Throat irritation), each at most
      once, whatever the order of the listed symptoms. */
  lemma SymptomSentencesOrdered(symptoms: seq<string>)
    ensures forall i, j :: 0 <= i < j < |SymptomSentences(symptoms)| ==>
      SymptomSentences(symptoms)[i] != SymptomSentences(symptoms)[j]
    ensures forall i, j :: (0 <= i < j < |SymptomSentences(symptoms)| &&
      SymptomSentences(symptoms)[j].SymptomAdvice?) ==>
        SymptomSentences(symptoms)[i].SymptomAdvice? &&
        Position(SymptomSentences(symptoms)[i].symptom) < Position(SymptomSentences(symptoms)[j].symptom)
  {
    VocabularyOrdered();
    RecognisedOrdered(Vocabulary, symptoms);
  }

  /** A non-empty symptom list always yields some text. */
  lemma SymptomSentencesNonEmpty(symptoms: seq<string>)
    requires symptoms != []
    ensures SymptomSentences(symptoms) != []
  {
    AnyRecognisedIffRecognised(symptoms);
  }

  /** Reordering or repeating the listed symptoms changes nothing. */
  lemma SymptomSentencesByMembership(a: seq<string>, b: seq<string>)
    requires SameMembers(a, b)
    ensures SymptomSentences(a) == SymptomSentences(b)
  {
    RecognisedByMembership(Vocabulary, a, b);
    AnyRecognisedIffRecognised(a);
    AnyRecognisedIffRecognised(b);
  }

  /** Lifted to reports: replacing the symptom list by one with the same
      members leaves the whole medicine recommendation unchanged. */
  lemma MedicineBySymptomMembership(r: Report, symptoms: seq<string>)
    requires r.healthData.Some? && r.healthData.value.symptoms.Some?
    requires SameMembers(r.healthData.value.symptoms.value, symptoms)
    ensures Medicine(r.(healthData := Some(r.healthData.value.(symptoms := Some(symptoms))))) == Medicine(r)
  {
    var a := r.healthData.value.symptoms.value;
    if a != [] {
      assert a[0] in symptoms;
    }
    if symptoms != [] {
      assert symptoms[0] in a;
    }
    SymptomSentencesByMembership(a, symptoms);
  }

  /** Permuting the list is one such replacement. */
  lemma PermutationHasSameMembers(a: seq<string>, b: seq<string>)
    requires multiset(a) == multiset(b)
    ensures SameMembers(a, b)
  {
    forall x
      ensures x in a <==> x in b
    {
      assert x in a <==> x in multiset(a);
      assert x in b <==> x in multiset(b);
    }
  }

  /** Repeating a listed symptom is another. */
  lemma DuplicateHasSameMembers(a: seq<string>, i: nat)
    requires i < |a|
    ensures SameMembers(a, a + [a[i]])
  {
  }

  /** One step of `Recognised`: the head is tested, then the rest. */
  lemma RecognisedCons(x: Symptom, rest: seq<Symptom>, symptoms: seq<string>)
    ensures Recognised([x] + rest, symptoms) == Hit(x, symptoms) + Recognised(rest, symptoms)
  {
    assert ([x] + rest)[1..] == rest;
  }

  /** `Recognised` over the whole vocabulary, written out as the seven tests. */
  lemma RecognisedUnrolled(symptoms: seq<string>)
    ensures Recognised(Vocabulary, symptoms) ==
      Hit(Asthma, symptoms) + (Hit(Allergies, symptoms) + (Hit(Cough, symptoms) +
      (Hit(ShortnessOfBreath, symptoms) + (Hit(EyeIrritation, symptoms) +
      (Hit(Headache, symptoms) + Hit(ThroatIrritation, symptoms))))))
  {
    var t := [ThroatIrritation];
    var h := [Headache] + t;
    var e := [EyeIrritation] + h;
    var b := [ShortnessOfBreath] + e;
    var c := [Cough] + b;
    var l := [Allergies] + c;
    assert Vocabulary == [Asthma] + l;
    RecognisedCons(ThroatIrritation, [], symptoms);
    assert t == [ThroatIrritation] + [];
    assert Recognised(t, symptoms) == Hit(ThroatIrritation, symptoms);
    RecognisedCons(Headache, t, symptoms);
    RecognisedCons(EyeIrritation, h, symptoms);
    RecognisedCons(ShortnessOfBreath, e, symptoms);
    RecognisedCons(Cough, b, symptoms);
    RecognisedCons(Allergies, c, symptoms);
    RecognisedCons(Asthma, l, symptoms);
  }

  /** `["Cough", "Asthma"]` gives Asthma's sentence before Cough's. */
  lemma CoughAsthmaExample()
    ensures SymptomSentences(["Cough", "Asthma"]) == [SymptomAdvice(Asthma), SymptomAdvice(Cough)]
  {
    var syms := ["Cough", "Asthma"];
    RecognisedUnrolled(syms);
    assert Hit(Asthma, syms) == [Asthma] && Hit(Cough, syms) == [Cough];
    assert Hit(Allergies, syms) == [] && Hit(ShortnessOfBreath, syms) == [];
    assert Hit(EyeIrritation, syms) == [] && Hit(Headache, syms) == [] && Hit(ThroatIrritation, syms) == [];
    assert syms[0] == VocabularyNames[2];
  }

  /** `["Asthma"]` gives Asthma's sentence alone. */
  lemma AsthmaExample()
    ensures SymptomSentences(["Asthma"]) == [SymptomAdvice(Asthma)]
  {
    var syms := ["Asthma"];
    RecognisedUnrolled(syms);
    assert Hit(Asthma, syms) == [Asthma];
    assert Hit(Allergies, syms) == [] && Hit(Cough, syms) == [] && Hit(ShortnessOfBreath, syms) == [];
    assert Hit(EyeIrritation, syms) == [] && Hit(Headache, syms) == [] && Hit(ThroatIrritation, syms) == [];
    assert syms[0] == VocabularyNames[0];
  }

  /** `["Respiratory condition"]` gives only the generic sentence. */
  lemma RespiratoryConditionExample()
    ensures SymptomSentences(["Respiratory condition"]) == [GenericAdvice]
  {
    var syms := ["Respiratory condition"];
    GenericIffNoneRecognised(syms);
    assert Recognised(Vocabulary, syms) == [];
  }

  /** An unknown string next to a known one is skipped silently. */
  lemma UnknownSymptomSkipped()
    ensures SymptomSentences(["Eye irritation", "Sneezing"]) == [SymptomAdvice(EyeIrritation)]
  {
    var syms := ["Eye irritation", "Sneezing"];
    RecognisedUnrolled(syms);
    assert Hit(EyeIrritation, syms) == [EyeIrritation];
    assert Hit(Asthma, syms) == [] && Hit(Allergies, syms) == [] && Hit(Cough, syms) == [];
    assert Hit(ShortnessOfBreath, syms) == [] && Hit(Headache, syms) == [] && Hit(ThroatIrritation, syms) == [];
    assert syms[0] == VocabularyNames[4];
  }

  /** The rescue clause is added for AQI 101 but not for 100 or 40, nor for
      a missing AQI. */
  lemma RescueClauseBoundary()
    ensures AqiSentences(Some(40)) == [NoMedication(Some(40))]
    ensures AqiSentences(Some(100)) == [NoMedication(Some(100))]
    ensures AqiSentences(Some(101)) == [NoMedication(Some(101)), RescueClause]
    ensures AqiSentences(None) == [NoMedication(None)]
  {
  }

  /** A truthy server text is shown verbatim and hides the disclaimer; any
      derived text shows it. */
  lemma DisclaimerOnlyWhenDerived(r: Report)
    ensures ShowsDisclaimer(r) <==> !StringTruthy(ServerMedicine(r))
    ensures !ShowsDisclaimer(r) ==> MedicinePanel(r) == [ServerMedicine(r).value]
    ensures ShowsDisclaimer(r) ==> |MedicinePanel(r)| == 2 && MedicinePanel(r)[1] == Disclaimer
  {
  }

  /** The AQI message reports the AQI it was given: distinct readings
      (including a missing one) give distinct text. */
  lemma NoMedicationTextInjective(v: Option<int>, w: Option<int>)
    requires SentenceText(NoMedication(v)) == SentenceText(NoMedication(w))
    ensures v == w
  {
    var p, x, y := NoMedicationPrefix, RenderNumber(v), RenderNumber(w);
    var t := SentenceText(NoMedication(v));
    assert t == p + x + NoMedicationSuffix;
    assert t == p + y + NoMedicationSuffix;
    assert |x| == |y|;
    assert x == t[|p|..|p| + |x|];
    assert y == t[|p|..|p| + |y|];
    if v.Some? && w.Some? {
      Decimal.IntToStringInjective(v.value, w.value);
    }
  }
}
