# Health report advisory derivation

A Dafny model of the decision logic of the air-quality health report screen
(`src/pages/HealthReportDetail.jsx`). From one report record the screen
derives:

- the displayed AQI and status, preferring the nested `aqiData` fields and
  falling back to the legacy flat `aqi`/`status` (the report normalizer);
- the outdoor activity assessment: the server text when truthy, otherwise
  three AQI buckets;
- the general mask recommendation: the server's first protective measure when
  truthy, otherwise four AQI tiers;
- the personalized mask recommendation: a first-match chain over the
  respiratory symptoms, then age above 65, then age below 12, then a default;
- the medicine recommendation: the server's first medicine text when truthy;
  otherwise one fixed sentence per recognised symptom in vocabulary order, or a
  generic sentence when none of the seven is listed; otherwise an
  AQI-referencing message with a rescue-medication clause above AQI 100. The
  disclaimer is shown only with derived text.

Layout, one module per file:

- `js.dfy` (`Js`): the JavaScript semantics the expressions rely on. `Option`
  models `undefined`. It also covers truthiness (`0` and `""` are falsy), `||`,
  comparison with `undefined` (always false), `?.[0]`, `includes`, and how JSX
  renders a number or `undefined` inside text.
- `decimal.dfy` (`Decimal`): `String(n)` for integers, with a parser proved to
  invert it. It renders the AQI inside the medicine message.
- `reports.dfy` (`Reports`): the report record, the optional-chaining
  accessors, and `Normalize`, which gives the displayed AQI and status.
  `Shown<M>` records whether a line shows the server's text or the message a
  rule chain chose.
- `activity.dfy` (`Activity`), `masks.dfy` (`Masks`), `medicine.dfy`
  (`Medicine`): the rule chains. Each chain picks a message identity, and a
  text table maps each identity to the literal string the screen shows.
- `advisory.dfy` (`Advisory`): the whole bundle for one report and the
  properties that span several chains.

The intended behaviour and the code differ in three places. The model
follows the code:

- One normalized AQI was meant to feed every rule. In the code the rules,
  and the AQI printed in the medicine message, read only `aqiData?.value`.
  The flat `aqi` only reaches the AQI display at the top.
  `Advisory.LegacyAqiShownButNotAdvised` shows the consequence: a legacy
  report with `aqi: 180` displays 180 but gets the mildest advice.
- The default personalized rule was meant to defer to the general tier.
  The code prints one fixed sentence that points the user to the general
  line. The model does the same.
- The symptoms were meant as a set. The code reads an array. The model
  uses a sequence and proves that only its members matter.

## Model

| member | source | states |
|---|---|---|
| Reports.Normalize | src/pages/HealthReportDetail.jsx:120-124 | the nested AQI/status is displayed when truthy; otherwise the flat field is displayed, whatever it holds |
| Reports.NormalizedAqiTruthy | src/pages/HealthReportDetail.jsx:120 | the displayed AQI is truthy iff the nested or the flat one is, and it is always one of the two |
| Reports.NestedZeroFallsThrough | src/pages/HealthReportDetail.jsx:120 | a nested AQI of 0 is not displayed; the flat `aqi` is displayed, even when absent |
| Reports.LegacyShape | src/pages/HealthReportDetail.jsx:120-124 | a report without `aqiData` displays its flat `aqi` and `status` |
| Reports.NormalizeEmpty | src/pages/HealthReportDetail.jsx:120-124 | a report with no fields displays nothing for AQI and status, and raises nothing |
| Activity.Assess | src/pages/HealthReportDetail.jsx:229-233 | stay-indoors iff AQI >= 151; limit-outdoor iff 101..150; activities-allowed iff AQI <= 100 or missing |
| Activity.OutdoorActivity | src/pages/HealthReportDetail.jsx:228-233 | a truthy server `outdoor` text is shown unchanged; otherwise the bucket of `aqiData.value` is shown |
| Activity.Text | src/pages/HealthReportDetail.jsx:229-233 | no contract of its own: the three literal messages of the chain, one per assessment; which one is shown is stated by Activity.Assess |
| Activity.OutdoorText | src/pages/HealthReportDetail.jsx:228-233 | no contract of its own: the displayed line, the server text or the text of the chosen assessment; the choice is stated by Activity.OutdoorActivity and Activity.ServerTextWins |
| Activity.AssessMonotone | src/pages/HealthReportDetail.jsx:229-233 | a higher AQI never gives less restrictive advice |
| Activity.BoundariesFlip | src/pages/HealthReportDetail.jsx:229-233 | 150 and 100 fall in the lower bucket, so the message changes between 150/151 and 100/101; a missing AQI allows activity |
| Activity.ServerTextWins | src/pages/HealthReportDetail.jsx:228 | a non-empty server text is shown whatever the AQI |
| Masks.GeneralTier | src/pages/HealthReportDetail.jsx:247-253 | N95 strongly iff AQI >= 151; N95 extended iff 101..150; surgical optional iff 51..100; not necessary iff AQI <= 50 or missing |
| Masks.GeneralMask | src/pages/HealthReportDetail.jsx:246-253 | a truthy `protectiveMeasures[0]` is shown; otherwise the tier of `aqiData.value` is shown |
| Masks.TierText | src/pages/HealthReportDetail.jsx:247-253 | no contract of its own: the four literal tier messages; which one is shown is stated by Masks.GeneralTier |
| Masks.GeneralMaskText | src/pages/HealthReportDetail.jsx:246-253 | no contract of its own: the displayed general line, the server's first measure or the tier text; the choice is stated by Masks.GeneralMask |
| Masks.GeneralTierMonotone | src/pages/HealthReportDetail.jsx:247-253 | a higher AQI never asks for less protection |
| Masks.GeneralTierBoundaries | src/pages/HealthReportDetail.jsx:247-253 | 150, 100 and 50 each land in the next-lower tier; a missing AQI gets the last tier |
| Masks.PersonalizedMask | src/pages/HealthReportDetail.jsx:255-261 | respiratory text iff "Asthma" or "Respiratory condition" is listed; else senior iff age >= 66; else child iff age <= 11; else the default, which also covers a missing age |
| Masks.PersonalText | src/pages/HealthReportDetail.jsx:255-261 | no contract of its own: the four literal personalized messages; which one is shown is stated by Masks.PersonalizedMask |
| Masks.RespiratoryBeatsAge | src/pages/HealthReportDetail.jsx:255-258 | `["Asthma"]` at age 70 gets the respiratory text, not the senior one |
| Masks.AgeBoundaries | src/pages/HealthReportDetail.jsx:257-261 | ages 65 and 12, and a missing age, reach the default; 66 and 11 do not |
| Masks.PersonalizedReadsOnlyHealth | src/pages/HealthReportDetail.jsx:255-261 | the personalized line depends on the health profile only, never on AQI or server data |
| Medicine.Medicine | src/pages/HealthReportDetail.jsx:274-313 | a truthy server medicine text is shown verbatim; otherwise a non-empty symptom list selects the symptom branch and an empty or absent one selects the AQI branch |
| Medicine.SymptomSentences | src/pages/HealthReportDetail.jsx:279-306 | no contract of its own: the symptom branch; its output is fixed by Medicine.SymptomSentencesContents and Medicine.SymptomSentencesOrdered, and its independence of order and repeats by Medicine.SymptomSentencesByMembership |
| Medicine.Recognised | src/pages/HealthReportDetail.jsx:280-299 | no contract of its own: the seven `includes` tests as a filter over the vocabulary; stated by Medicine.RecognisedUnrolled, Medicine.RecognisedMembers and Medicine.RecognisedOrdered |
| Medicine.AnyRecognised | src/pages/HealthReportDetail.jsx:301-304 | no contract of its own: the `some` test against the seven names; stated by Medicine.AnyRecognisedMeans and Medicine.AnyRecognisedIffRecognised |
| Medicine.AqiSentences | src/pages/HealthReportDetail.jsx:308-313 | the AQI message comes first, and the rescue clause is present iff AQI >= 101, and nothing else: one sentence, or two with the clause |
| Medicine.RescueClauseBoundary | src/pages/HealthReportDetail.jsx:311-312 | AQI 40, 100 and a missing AQI get no rescue clause; 101 gets it |
| Medicine.ShowsDisclaimer | src/pages/HealthReportDetail.jsx:316-320 | no contract of its own: the disclaimer block sits in the non-server branch; stated by Medicine.DisclaimerOnlyWhenDerived |
| Medicine.SentenceText | src/pages/HealthReportDetail.jsx:281-312 | no contract of its own: the literal sentence texts, and the AQI message built from `aqiData?.value`; its injectivity on the AQI is Medicine.NoMedicationTextInjective |
| Medicine.Concat | src/pages/HealthReportDetail.jsx:279-313 | no contract of its own: the chosen sentences displayed one after another with no separator |
| Medicine.MedicinePanel | src/pages/HealthReportDetail.jsx:274-320 | no contract of its own: the panel's text followed by the disclaimer when derived; stated by Medicine.DisclaimerOnlyWhenDerived |
| Medicine.DisclaimerOnlyWhenDerived | src/pages/HealthReportDetail.jsx:274-320 | the disclaimer is shown iff no truthy server text is; server text is the panel's only content |
| Medicine.NoMedicationTextInjective | src/pages/HealthReportDetail.jsx:309 | the AQI message identifies its AQI: distinct readings, a missing one included, give distinct text |
| Medicine.VocabularyPosition | src/pages/HealthReportDetail.jsx:280-299 | every symptom of the seven has its place in the emission order |
| Medicine.VocabularyNamePosition | src/pages/HealthReportDetail.jsx:301-303 | each symptom's name is in the recognised-name list at the same place |
| Medicine.VocabularyNamesMatch | src/pages/HealthReportDetail.jsx:301-303 | the recognised-name list is exactly the names of the seven symptoms, in order |
| Medicine.VocabularyOrdered | src/pages/HealthReportDetail.jsx:280-299 | the emission order is Asthma, Allergies, Cough, Shortness of breath, Eye irritation, Headache, Throat irritation |
| Medicine.RecognisedUnrolled | src/pages/HealthReportDetail.jsx:280-299 | the recognised symptoms are exactly the seven `includes` tests, concatenated in the order Asthma, Allergies, Cough, Shortness of breath, Eye irritation, Headache, Throat irritation |
| Medicine.RecognisedCons | src/pages/HealthReportDetail.jsx:280-299 | each vocabulary entry is tested once, before the entries after it |
| Medicine.AdviceForMembers | src/pages/HealthReportDetail.jsx:280-299 | a symptom has a sentence iff it is recognised |
| Medicine.RecognisedMembers | src/pages/HealthReportDetail.jsx:280-299 | a symptom is recognised iff it is in the vocabulary and its name is listed |
| Medicine.RecognisedOrdered | src/pages/HealthReportDetail.jsx:280-299 | recognised symptoms keep the vocabulary's order |
| Medicine.RecognisedByMembership | src/pages/HealthReportDetail.jsx:280-299 | recognition depends only on which strings are listed |
| Medicine.AnyRecognisedMeans | src/pages/HealthReportDetail.jsx:301-304 | the `some` test holds iff some listed string is in the recognised-name list |
| Medicine.AnyRecognisedIffRecognised | src/pages/HealthReportDetail.jsx:280-304 | the `some` test agrees with the seven `includes` tests |
| Medicine.SymptomAdviceIffListed | src/pages/HealthReportDetail.jsx:280-299 | a symptom's sentence is emitted iff the symptom is listed |
| Medicine.GenericIffNoneRecognised | src/pages/HealthReportDetail.jsx:301-305 | the generic sentence is emitted iff no listed string is one of the seven, that is iff no symptom is recognised |
| Medicine.NoneRecognisedIffNoneListed | src/pages/HealthReportDetail.jsx:280-305 | no symptom is recognised iff none of the seven names is listed |
| Medicine.SymptomSentencesContents | src/pages/HealthReportDetail.jsx:280-305 | the symptom branch emits exactly the listed symptoms' sentences, plus the generic one iff none of the seven is listed, and nothing else |
| Medicine.SymptomSentencesOrdered | src/pages/HealthReportDetail.jsx:280-305 | sentences appear in vocabulary order, each at most once, and the generic sentence comes last |
| Medicine.SymptomSentencesNonEmpty | src/pages/HealthReportDetail.jsx:278-305 | a non-empty symptom list always yields at least one sentence |
| Medicine.SymptomSentencesByMembership | src/pages/HealthReportDetail.jsx:280-305 | lists with the same members yield the same sentences |
| Medicine.MedicineBySymptomMembership | src/pages/HealthReportDetail.jsx:274-313 | reordering or repeating the listed symptoms leaves the medicine recommendation unchanged |
| Medicine.PermutationHasSameMembers | src/pages/HealthReportDetail.jsx:280-305 | a permuted symptom list has the same members |
| Medicine.DuplicateHasSameMembers | src/pages/HealthReportDetail.jsx:280-305 | a list with a repeated symptom has the same members |
| Medicine.CoughAsthmaExample | src/pages/HealthReportDetail.jsx:280-287 | `["Cough", "Asthma"]` gives Asthma's sentence before Cough's |
| Medicine.AsthmaExample | src/pages/HealthReportDetail.jsx:280-305 | `["Asthma"]` gives Asthma's sentence alone |
| Medicine.RespiratoryConditionExample | src/pages/HealthReportDetail.jsx:301-305 | `["Respiratory condition"]` gives only the generic sentence |
| Medicine.UnknownSymptomSkipped | src/pages/HealthReportDetail.jsx:292-305 | an unknown string next to "Eye irritation" is skipped, with no generic sentence |
| Decimal.NatToString | src/pages/HealthReportDetail.jsx:309 | a non-negative AQI renders as a non-empty string of digits without a leading zero |
| Decimal.IntToString | src/pages/HealthReportDetail.jsx:309 | an AQI renders as non-empty text that starts with '-' iff it is negative |
| Decimal.NatToStringRoundTrip | src/pages/HealthReportDetail.jsx:309 | reading back the digits of n gives n |
| Decimal.IntToStringRoundTrip | src/pages/HealthReportDetail.jsx:309 | reading back the rendering of v gives v |
| Decimal.IntToStringInjective | src/pages/HealthReportDetail.jsx:309 | distinct AQI values render as distinct text |
| Advisory.Advise | src/pages/HealthReportDetail.jsx:120-320 | no contract of its own: the display and the four advisory lines for one report; stated by Advisory.AdviceReadsOnlyRuleInputs, Advisory.FlatFieldsOnlyDisplayed and Advisory.AlwaysSomethingShown |
| Advisory.AdviceReadsOnlyRuleInputs | src/pages/HealthReportDetail.jsx:228-313 | the advice depends only on `aqiData.value`, age, symptoms and the three server texts |
| Advisory.FlatFieldsOnlyDisplayed | src/pages/HealthReportDetail.jsx:120-313 | the flat `aqi` and `status` change the display only, never the advice |
| Advisory.AlwaysSomethingShown | src/pages/HealthReportDetail.jsx:228-313 | every line shows a non-empty server text or a chosen message, and derived medicine has at least one sentence |
| Advisory.EmptyReportAdvice | src/pages/HealthReportDetail.jsx:120-313 | a report with no fields gets the default of every chain |
| Advisory.SevereAsthmaSenior | src/pages/HealthReportDetail.jsx:228-299 | AQI 180, age 70, `["Asthma"]`: N95 strongly, respiratory personalized text, stay indoors, Asthma's sentence |
| Advisory.CleanAirNoSymptoms | src/pages/HealthReportDetail.jsx:278-313 | AQI 40 with no symptoms gives only the AQI message, without the rescue clause |
| Advisory.LegacyAqiShownButNotAdvised | src/pages/HealthReportDetail.jsx:120-313 | a flat-only AQI of 180 is displayed, but the rules treat the AQI as missing |

## Left out

- Report fetch and authentication (lines 31-62): the stored token, the network request, JSON parsing and the error/loading state. This is I/O and React effect plumbing.
- Loading, error and empty-report rendering (lines 66-92), and all layout, styling, icons and animation. These are presentation.
- PDF export (lines 13-23). It calls foreign rasterizing and PDF libraries and computes a floating-point page height.
- Timestamp display (line 135). It depends on the clock and on locale formatting.
- Name and age "N/A" display (lines 149, 155), the raw `aqiData` value and status at lines 171 and 177, and the server's general, age-specific and health-specific first recommendations (lines 192, 203, 214). These are passthroughs with no rules.
- Static prose (lines 226, 328).
- Numbers are integers. A non-integer, `NaN` or string AQI or age is not modelled, and neither is JavaScript's coercion of strings in comparisons. The exponential form JavaScript prints for magnitudes of 1e21 and above is not modelled either.
- A JSON `null` age is not distinguished from an absent one. In JavaScript `null < 12` is true, so a `null` age would get the child text. The model's absent age reaches the default, as `undefined` does.
- Symptom lists are sequences of strings. A non-array `symptoms` value, whose `includes` would test substrings, is not modelled.
- Advisory.AlwaysSomethingShown: states that each line shows a non-empty server text or a message chosen by its rules, not that the rendered literal texts are non-empty or pairwise distinct; the fixed texts are constants in `Text`, `TierText`, `PersonalText` and `SentenceText`, and the properties are stated on message identities.
- Repeated calls giving the same output is not stated as a lemma: every member is a pure function, so it holds by construction.
